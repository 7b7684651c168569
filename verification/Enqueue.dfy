/** Idempotent enqueue of generation jobs, supplier text runs and script sessions
    (ai_drama_web/store.py).  Snapshot validation and the request hash are computed before
    the transaction and enter as arguments. */
module Enqueue {
  import opened Wrappers

  datatype Capability = Text | Image | Video

  datatype Key = Key(supplierId: string, capability: Capability, key: string)

  datatype Record = Record(requestHash: string, existingId: string)

  datatype JobRow = JobRow(provider: string, key: string, requestHash: string, snapshotHash: string)

  datatype TextRow = TextRow(supplierId: string, key: string, requestHash: string, snapshotHash: string)

  datatype SessionRow = SessionRow(
    projectId: string, chapterId: string, sourceId: string, runtimeRunId: string,
    textRunId: string, snapshotHash: string, key: string)

  /** execution_snapshots by hash, generation_jobs, the jobs with an attempt, supplier_text_runs,
      script_generation_runs and supplier_idempotency_records. */
  datatype Db = Db(
    snapshots: set<string>,
    jobs: map<string, JobRow>,
    attempts: set<string>,
    textRuns: map<string, TextRow>,
    sessions: map<string, SessionRow>,
    records: map<Key, Record>)

  const EMPTY := Db({}, map[], {}, map[], map[], map[])

  datatype EnqueueError = IdempotencyConflict | ScriptConflict | IntegrityError | MissingTextRun

  /** The rows a call returns: the job or text run, and for a script call its session; created says
      whether the call made the job, the text run or the session.  A replayed id is looked up in the
      method's own table, and nothing is returned when that table does not hold it. */
  datatype Receipt = Receipt(row: Option<string>, session: Option<string>, created: bool)

  /** The two text methods always use the text capability. */
  datatype Op =
    | EnqueueJob(supplierId: string, capability: Capability, key: string, provider: string,
                 requestHash: string, snapshotHash: string, freshId: string)
    | EnqueueText(supplierId: string, key: string, requestHash: string, snapshotHash: string, freshId: string)
    | EnqueueScript(supplierId: string, key: string, requestHash: string, snapshotHash: string, freshId: string,
                    runId: string, projectId: string, chapterId: string, sourceId: string,
                    runtimeRunId: string, sessionKey: string, parentsExist: bool)

  function KeyOf(op: Op): Key {
    Key(op.supplierId, if op.EnqueueJob? then op.capability else Text, op.key)
  }

  predicate ProviderKeyTaken(jobs: map<string, JobRow>, provider: string, key: string) {
    exists j :: j in jobs && jobs[j].provider == provider && jobs[j].key == key
  }

  predicate RuntimeRunTaken(sessions: map<string, SessionRow>, runtimeRunId: string) {
    exists r :: r in sessions && sessions[r].runtimeRunId == runtimeRunId
  }

  predicate SessionFor(sessions: map<string, SessionRow>, key: string, r: string) {
    r in sessions && sessions[r].key == key
  }

  predicate SessionKeyTaken(sessions: map<string, SessionRow>, key: string) {
    exists r :: r in sessions && SessionFor(sessions, key, r)
  }

  /** idempotency_key is unique among sessions. */
  ghost predicate SessionKeysUnique(db: Db) {
    forall r, q :: r in db.sessions && q in db.sessions && db.sessions[r].key == db.sessions[q].key ==> r == q
  }

  ghost function SessionWithKey(db: Db, key: string): string
    requires SessionKeyTaken(db.sessions, key)
    ensures SessionFor(db.sessions, key, SessionWithKey(db, key))
  {
    var r :| r in db.sessions && SessionFor(db.sessions, key, r);
    r
  }

  function StoredJob(db: Db, id: string): Option<string> {
    if id in db.jobs then Some(id) else None
  }

  function StoredText(db: Db, id: string): Option<string> {
    if id in db.textRuns then Some(id) else None
  }

  function WithTextRun(db: Db, op: Op): Db {
    db.(snapshots := db.snapshots + {op.snapshotHash},
        textRuns := db.textRuns[op.freshId := TextRow(op.supplierId, op.key, op.requestHash, op.snapshotHash)],
        records := db.records[KeyOf(op) := Record(op.requestHash, op.freshId)])
  }

  /** The supplier half of both text methods: the id of the text run and whether it was inserted now. */
  function EnsureTextRun(db: Db, op: Op): Result<(Db, string, bool), EnqueueError> {
    if KeyOf(op) in db.records then
      if db.records[KeyOf(op)].requestHash != op.requestHash then Err(IdempotencyConflict)
      else Ok((db, db.records[KeyOf(op)].existingId, false))
    else if op.freshId in db.textRuns then Err(IntegrityError)
    else Ok((WithTextRun(db, op), op.freshId, true))
  }

  function EnqueuedText(db: Db, op: Op): Result<(Db, Receipt), EnqueueError>
    requires op.EnqueueText?
  {
    match EnsureTextRun(db, op)
    case Err(e) => Err(e)
    case Ok((after, id, created)) => Ok((after, Receipt(StoredText(after, id), None, created)))
  }

  function WithJob(db: Db, op: Op): Db
    requires op.EnqueueJob?
  {
    db.(snapshots := db.snapshots + {op.snapshotHash},
        jobs := db.jobs[op.freshId := JobRow(op.provider, op.key, op.requestHash, op.snapshotHash)],
        attempts := db.attempts + {op.freshId},
        records := db.records[KeyOf(op) := Record(op.requestHash, op.freshId)])
  }

  function EnqueuedJob(db: Db, op: Op): Result<(Db, Receipt), EnqueueError>
    requires op.EnqueueJob?
  {
    if KeyOf(op) in db.records then
      if db.records[KeyOf(op)].requestHash != op.requestHash then Err(IdempotencyConflict)
      else Ok((db, Receipt(StoredJob(db, db.records[KeyOf(op)].existingId), None, false)))
    else if op.freshId in db.jobs || ProviderKeyTaken(db.jobs, op.provider, op.key) || op.freshId in db.attempts
    then Err(IntegrityError)
    else Ok((WithJob(db, op), Receipt(Some(op.freshId), None, true)))
  }

  function SessionOf(op: Op, textRunId: string): SessionRow
    requires op.EnqueueScript?
  {
    SessionRow(op.projectId, op.chapterId, op.sourceId, op.runtimeRunId, textRunId, op.snapshotHash, op.sessionKey)
  }

  /** A stored session replays only a call with its project, chapter, source, text run and snapshot. */
  predicate SessionMatches(stored: SessionRow, wanted: SessionRow) {
    stored == wanted.(runtimeRunId := stored.runtimeRunId)
  }

  /** The visible half, inside the same transaction. */
  ghost function AddSession(db: Db, op: Op, textRunId: string): Result<(Db, Receipt), EnqueueError>
    requires op.EnqueueScript?
  {
    var wanted := SessionOf(op, textRunId);
    if SessionKeyTaken(db.sessions, op.sessionKey) then
      var r := SessionWithKey(db, op.sessionKey);
      if !SessionMatches(db.sessions[r], wanted) then Err(ScriptConflict)
      else if textRunId !in db.textRuns then Err(MissingTextRun)
      else Ok((db, Receipt(Some(textRunId), Some(r), false)))
    else if op.runId in db.sessions || RuntimeRunTaken(db.sessions, op.runtimeRunId) || !op.parentsExist
    then Err(IntegrityError)
    else
      Ok((db.(sessions := db.sessions[op.runId := wanted]), Receipt(StoredText(db, textRunId), Some(op.runId), true)))
  }

  /** Snapshot, supplier run and visible session together, or nothing. */
  ghost function EnqueuedScript(db: Db, op: Op): Result<(Db, Receipt), EnqueueError>
    requires op.EnqueueScript?
  {
    match EnsureTextRun(db, op)
    case Err(e) => Err(e)
    case Ok((mid, id, _)) => AddSession(mid, op, id)
  }

  ghost function Effect(db: Db, op: Op): Result<(Db, Receipt), EnqueueError> {
    if op.EnqueueJob? then EnqueuedJob(db, op)
    else if op.EnqueueText? then EnqueuedText(db, op)
    else EnqueuedScript(db, op)
  }

  ghost function Step(db: Db, op: Op): Db {
    match Effect(db, op)
    case Ok((after, _)) => after
    case Err(_) => db
  }

  ghost function Run(db: Db, ops: seq<Op>): Db {
    if ops == [] then db else Step(Run(db, ops[..|ops| - 1]), ops[|ops| - 1])
  }

  // ---------- every record names a row that carries its request hash ----------

  ghost predicate RecordsHonest(db: Db) {
    forall k :: k in db.records ==>
      var rec := db.records[k];
      || (rec.existingId in db.jobs && db.jobs[rec.existingId].requestHash == rec.requestHash)
      || (rec.existingId in db.textRuns && db.textRuns[rec.existingId].requestHash == rec.requestHash)
  }

  /** One idempotency record for each job or text run, one attempt for each job. */
  ghost predicate Balanced(db: Db) {
    && |db.jobs| + |db.textRuns| == |db.records|
    && db.attempts == db.jobs.Keys
  }

  /** Every session was enqueued with a row of one of the two tables. */
  ghost predicate SessionsLinked(db: Db) {
    forall r :: r in db.sessions ==> db.sessions[r].textRunId in db.textRuns || db.sessions[r].textRunId in db.jobs
  }

  ghost predicate EnqueueInvariant(db: Db) {
    RecordsHonest(db) && Balanced(db) && SessionKeysUnique(db) && SessionsLinked(db)
  }

  lemma WithJobKeepsRecords(db: Db, op: Op)
    requires RecordsHonest(db) && op.EnqueueJob? && op.freshId !in db.jobs
    ensures RecordsHonest(WithJob(db, op))
  {
  }

  lemma OneEntryMore<K, V>(m: map<K, V>, k: K, v: V)
    requires k !in m
    ensures |m[k := v]| == |m| + 1
  {
    assert m[k := v].Keys == m.Keys + {k};
  }

  lemma WithJobKeepsBalance(db: Db, op: Op)
    requires Balanced(db) && op.EnqueueJob? && KeyOf(op) !in db.records && op.freshId !in db.jobs
    ensures Balanced(WithJob(db, op))
  {
    OneEntryMore(db.jobs, op.freshId, JobRow(op.provider, op.key, op.requestHash, op.snapshotHash));
    OneEntryMore(db.records, KeyOf(op), Record(op.requestHash, op.freshId));
  }

  lemma WithJobKeepsInvariant(db: Db, op: Op)
    requires EnqueueInvariant(db) && op.EnqueueJob? && KeyOf(op) !in db.records && op.freshId !in db.jobs
    ensures EnqueueInvariant(WithJob(db, op))
  {
    WithJobKeepsRecords(db, op);
    WithJobKeepsBalance(db, op);
  }

  lemma JobKeepsInvariant(db: Db, op: Op)
    requires EnqueueInvariant(db) && op.EnqueueJob? && EnqueuedJob(db, op).Ok?
    ensures EnqueueInvariant(EnqueuedJob(db, op).value.0)
  {
    if KeyOf(op) !in db.records { WithJobKeepsInvariant(db, op); }
  }

  lemma WithTextRunKeepsRecords(db: Db, op: Op)
    requires RecordsHonest(db) && op.freshId !in db.textRuns
    ensures RecordsHonest(WithTextRun(db, op))
  {
  }

  lemma WithTextRunKeepsBalance(db: Db, op: Op)
    requires Balanced(db) && KeyOf(op) !in db.records && op.freshId !in db.textRuns
    ensures Balanced(WithTextRun(db, op))
  {
    OneEntryMore(db.textRuns, op.freshId, TextRow(op.supplierId, op.key, op.requestHash, op.snapshotHash));
    OneEntryMore(db.records, KeyOf(op), Record(op.requestHash, op.freshId));
  }

  lemma TextKeepsInvariant(db: Db, op: Op)
    requires EnqueueInvariant(db) && EnsureTextRun(db, op).Ok?
    ensures EnqueueInvariant(EnsureTextRun(db, op).value.0)
    ensures var (after, id, _) := EnsureTextRun(db, op).value; id in after.textRuns || id in after.jobs
  {
    if KeyOf(op) in db.records {
      assert db.records[KeyOf(op)].existingId in db.textRuns || db.records[KeyOf(op)].existingId in db.jobs;
    } else {
      WithTextRunKeepsRecords(db, op);
      WithTextRunKeepsBalance(db, op);
    }
  }

  lemma SessionKeepsInvariant(db: Db, op: Op, textRunId: string)
    requires EnqueueInvariant(db) && op.EnqueueScript? && AddSession(db, op, textRunId).Ok?
    requires textRunId in db.textRuns || textRunId in db.jobs
    ensures EnqueueInvariant(AddSession(db, op, textRunId).value.0)
  {
  }

  lemma StepKeepsInvariant(db: Db, op: Op)
    requires EnqueueInvariant(db)
    ensures EnqueueInvariant(Step(db, op))
  {
    if op.EnqueueJob? {
      if EnqueuedJob(db, op).Ok? { JobKeepsInvariant(db, op); }
    } else if EnsureTextRun(db, op).Ok? {
      TextKeepsInvariant(db, op);
      var (mid, id, _) := EnsureTextRun(db, op).value;
      if op.EnqueueScript? && AddSession(mid, op, id).Ok? {
        SessionKeepsInvariant(mid, op, id);
      }
    }
  }

  /** Rows and records are never removed or rewritten. */
  ghost predicate Extends(a: Db, b: Db) {
    && a.snapshots <= b.snapshots
    && (forall j :: j in a.jobs ==> j in b.jobs && b.jobs[j] == a.jobs[j])
    && (forall t :: t in a.textRuns ==> t in b.textRuns && b.textRuns[t] == a.textRuns[t])
    && (forall r :: r in a.sessions ==> r in b.sessions && b.sessions[r] == a.sessions[r])
    && (forall k :: k in a.records ==> k in b.records && b.records[k] == a.records[k])
  }

  lemma StepExtends(db: Db, op: Op)
    ensures Extends(db, Step(db, op))
  {
  }

  lemma {:induction false} RunExtends(db: Db, ops: seq<Op>, earlier: nat)
    requires earlier <= |ops|
    ensures Extends(Run(db, ops[..earlier]), Run(db, ops))
    decreases |ops|
  {
    if earlier == |ops| {
      assert ops[..earlier] == ops;
    } else {
      var front := ops[..|ops| - 1];
      RunExtends(db, front, earlier);
      assert front[..earlier] == ops[..earlier];
      StepExtends(Run(db, front), ops[|ops| - 1]);
    }
  }

  lemma {:induction false} HistoryKeepsInvariant(ops: seq<Op>)
    ensures EnqueueInvariant(Run(EMPTY, ops))
  {
    if ops != [] {
      HistoryKeepsInvariant(ops[..|ops| - 1]);
      StepKeepsInvariant(Run(EMPTY, ops[..|ops| - 1]), ops[|ops| - 1]);
    }
  }

  ghost function Before(ops: seq<Op>, i: nat): Db
    requires i <= |ops|
  {
    Run(EMPTY, ops[..i])
  }

  lemma BeforeNext(ops: seq<Op>, i: nat)
    requires i < |ops|
    ensures Before(ops, i + 1) == Step(Before(ops, i), ops[i])
  {
    assert ops[..i + 1][..i] == ops[..i];
  }

  /** What a call leaves is still there before any later call. */
  lemma CallIsKept(ops: seq<Op>, i: nat, k: nat)
    requires i < k <= |ops|
    ensures Extends(Step(Before(ops, i), ops[i]), Before(ops, k))
  {
    BeforeNext(ops, i);
    assert ops[..k][..i + 1] == ops[..i + 1];
    RunExtends(EMPTY, ops[..k], i + 1);
  }

  lemma CallLeavesRecord(db: Db, op: Op)
    requires Effect(db, op).Ok?
    ensures KeyOf(op) in Step(db, op).records && Step(db, op).records[KeyOf(op)].requestHash == op.requestHash
  {}

  lemma RecordSurvives(ops: seq<Op>, i: nat, k: nat)
    requires i < k <= |ops| && Effect(Before(ops, i), ops[i]).Ok?
    ensures KeyOf(ops[i]) in Before(ops, k).records && KeyOf(ops[i]) in Step(Before(ops, i), ops[i]).records
    ensures Before(ops, k).records[KeyOf(ops[i])] == Step(Before(ops, i), ops[i]).records[KeyOf(ops[i])]
    ensures Before(ops, k).records[KeyOf(ops[i])].requestHash == ops[i].requestHash
  {
    CallLeavesRecord(Before(ops, i), ops[i]);
    CallIsKept(ops, i, k);
  }

  /** The first call with a key: the one that inserts the job or text run and its record. */
  ghost predicate Creates(ops: seq<Op>, i: nat)
    requires i < |ops|
  {
    KeyOf(ops[i]) !in Before(ops, i).records && Effect(Before(ops, i), ops[i]).Ok?
  }

  /** Job calls read generation_jobs, the two text methods read supplier_text_runs. */
  predicate SameTable(a: Op, b: Op) {
    a.EnqueueJob? == b.EnqueueJob?
  }

  /** Generated ids are new to both tables. */
  ghost predicate FreshIds(ops: seq<Op>) {
    forall i :: 0 <= i < |ops| ==> ops[i].freshId !in Before(ops, i).jobs && ops[i].freshId !in Before(ops, i).textRuns
  }

  ghost predicate TablesDisjoint(db: Db) {
    db.jobs.Keys !! db.textRuns.Keys
  }

  lemma {:induction false} FreshIdsKeepTablesDisjoint(ops: seq<Op>, k: nat)
    requires FreshIds(ops) && k <= |ops|
    ensures TablesDisjoint(Before(ops, k))
    decreases k
  {
    if k > 0 {
      FreshIdsKeepTablesDisjoint(ops, k - 1);
      BeforeNext(ops, k - 1);
      StepKeepsTablesDisjoint(Before(ops, k - 1), ops[k - 1]);
    }
  }

  lemma StepKeepsTablesDisjoint(db: Db, op: Op)
    requires TablesDisjoint(db) && op.freshId !in db.jobs && op.freshId !in db.textRuns
    ensures TablesDisjoint(Step(db, op))
  {
  }

  /** After the creating call, of whichever method, the record names the row it inserted and its hash, for
      ever, and that row stays in the creator's table. */
  lemma CreatorIsRemembered(ops: seq<Op>, i: nat, k: nat)
    requires i < k <= |ops| && Creates(ops, i)
    ensures Effect(Before(ops, i), ops[i]).value.1.row == Some(ops[i].freshId)
    ensures KeyOf(ops[i]) in Before(ops, k).records
         && Before(ops, k).records[KeyOf(ops[i])] == Record(ops[i].requestHash, ops[i].freshId)
    ensures if ops[i].EnqueueJob? then ops[i].freshId in Before(ops, k).jobs else ops[i].freshId in Before(ops, k).textRuns
  {
    RecordSurvives(ops, i, k);
    CallIsKept(ops, i, k);
  }

  /** Once a key has its record, a later call with another hash is refused with nothing changed, and no later
      call with the key adds a job, text run, record or snapshot. */
  lemma LaterCallsAddNothing(ops: seq<Op>, i: nat, k: nat)
    requires i < k < |ops| && Effect(Before(ops, i), ops[i]).Ok? && KeyOf(ops[k]) == KeyOf(ops[i])
    ensures ops[k].requestHash != ops[i].requestHash ==>
              Effect(Before(ops, k), ops[k]) == Err(IdempotencyConflict) && Step(Before(ops, k), ops[k]) == Before(ops, k)
    ensures Step(Before(ops, k), ops[k]).(sessions := Before(ops, k).sessions) == Before(ops, k)
  {
    RecordSurvives(ops, i, k);
  }

  /** A job or text call that repeats the key and the hash changes nothing and returns the one existing row
      if and only if it reads the table the creator wrote; otherwise it returns no row. */
  lemma LaterCallsReplay(ops: seq<Op>, i: nat, k: nat)
    requires FreshIds(ops) && i < k < |ops| && Creates(ops, i)
    requires KeyOf(ops[k]) == KeyOf(ops[i]) && ops[k].requestHash == ops[i].requestHash && !ops[k].EnqueueScript?
    ensures Effect(Before(ops, k), ops[k]) ==
              Ok((Before(ops, k),
                  Receipt(if SameTable(ops[i], ops[k]) then Some(ops[i].freshId) else None, None, false)))
  {
    CreatorIsRemembered(ops, i, k);
    FreshIdsKeepTablesDisjoint(ops, k);
  }

  /** A script call that succeeds on an existing record binds its session to the one existing row, and returns
      that row if and only if the record was made by a text method. */
  lemma ScriptBindsExistingRun(ops: seq<Op>, i: nat, k: nat)
    requires FreshIds(ops) && i < k < |ops| && Creates(ops, i)
    requires KeyOf(ops[k]) == KeyOf(ops[i]) && ops[k].EnqueueScript? && Effect(Before(ops, k), ops[k]).Ok?
    ensures var (after, receipt) := Effect(Before(ops, k), ops[k]).value;
            && receipt.row == (if SameTable(ops[i], ops[k]) then Some(ops[i].freshId) else None)
            && receipt.session.Some? && receipt.session.value in after.sessions
            && after.sessions[receipt.session.value].textRunId == ops[i].freshId
  {
    CreatorIsRemembered(ops, i, k);
    FreshIdsKeepTablesDisjoint(ops, k);
  }

  /** The session a successful script call returns, and what it stores of the call. */
  lemma ScriptSessionStored(db: Db, op: Op)
    requires op.EnqueueScript? && Effect(db, op).Ok?
    ensures var (after, receipt) := Effect(db, op).value;
            && receipt.session.Some? && receipt.session.value in after.sessions && KeyOf(op) in after.records
            && SessionMatches(after.sessions[receipt.session.value], SessionOf(op, after.records[KeyOf(op)].existingId))
            && receipt.row == StoredText(after, after.records[KeyOf(op)].existingId)
  {
  }

  /** Two script calls that ask for the same session. */
  predicate SameScript(a: Op, b: Op) {
    && a.EnqueueScript? && b.EnqueueScript? && KeyOf(a) == KeyOf(b) && a.requestHash == b.requestHash
    && a.snapshotHash == b.snapshotHash && a.sessionKey == b.sessionKey
    && a.projectId == b.projectId && a.chapterId == b.chapterId && a.sourceId == b.sourceId
  }

  lemma SessionIsUnique(db: Db, r: string, key: string)
    requires SessionKeysUnique(db) && SessionFor(db.sessions, key, r)
    ensures SessionKeyTaken(db.sessions, key) && SessionWithKey(db, key) == r
  {
  }

  lemma ScriptRepeats(earlier: Db, op: Op, later: Db, again: Op)
    requires SameScript(op, again) && Effect(earlier, op).Ok? && Extends(Step(earlier, op), later) && SessionKeysUnique(later)
    ensures var receipt := Effect(earlier, op).value.1;
            receipt.row.Some? ==> Effect(later, again) == Ok((later, receipt.(created := false)))
    ensures KeyOf(op) in later.records && later.records[KeyOf(op)].existingId !in later.textRuns
            ==> Effect(later, again) == Err(MissingTextRun)
  {
    ScriptSessionStored(earlier, op);
    SessionIsUnique(later, Effect(earlier, op).value.1.session.value, op.sessionKey);
  }

  /** A script call repeated at any later time returns the session and the text run of the first one and
      changes nothing, if and only if the key's record was made by a text method; on a record that a job
      call made it raises, again with nothing changed. */
  lemma LaterScriptsReplay(ops: seq<Op>, c: nat, i: nat, k: nat)
    requires FreshIds(ops) && c <= i < k < |ops| && Creates(ops, c) && KeyOf(ops[c]) == KeyOf(ops[i])
    requires SameScript(ops[i], ops[k]) && Effect(Before(ops, i), ops[i]).Ok?
    ensures Effect(Before(ops, k), ops[k]) ==
              if SameTable(ops[c], ops[k])
              then Ok((Before(ops, k), Effect(Before(ops, i), ops[i]).value.1.(created := false)))
              else Err(MissingTextRun)
    ensures Effect(Before(ops, i), ops[i]).value.1.row == if SameTable(ops[c], ops[k]) then Some(ops[c].freshId) else None
  {
    CreatorIsRemembered(ops, c, k);
    FreshIdsKeepTablesDisjoint(ops, k);
    HistoryKeepsInvariant(ops[..k]);
    CallIsKept(ops, i, k);
    if c < i { ScriptBindsExistingRun(ops, c, i); }
    ScriptRepeats(Before(ops, i), ops[i], Before(ops, k), ops[k]);
  }

  lemma NewRecordIsOwn(db: Db, op: Op, key: Key)
    requires key !in db.records && key in Step(db, op).records
    ensures KeyOf(op) == key && Effect(db, op).Ok?
  {
  }

  /** Every key with a record has a creating call. */
  lemma {:induction false} RecordHasCreator(ops: seq<Op>, k: nat, key: Key) returns (c: nat)
    requires k <= |ops| && key in Before(ops, k).records
    ensures c < k && Creates(ops, c) && KeyOf(ops[c]) == key
    decreases k
  {
    BeforeNext(ops, k - 1);
    if key in Before(ops, k - 1).records {
      c := RecordHasCreator(ops, k - 1, key);
    } else {
      NewRecordIsOwn(Before(ops, k - 1), ops[k - 1], key);
      c := k - 1;
    }
  }

  /** When a session with the key exists, a script call adds nothing; it succeeds exactly when its record names
      a stored text run and the session has its project, chapter, source, text run and snapshot, and then
      returns that session and that run. */
  lemma SessionReplayAddsNothing(db: Db, op: Op)
    requires EnqueueInvariant(db) && op.EnqueueScript? && SessionKeyTaken(db.sessions, op.sessionKey)
    requires op.freshId !in db.jobs && op.freshId !in db.textRuns
    ensures Step(db, op) == db
    ensures var r := SessionWithKey(db, op.sessionKey);
            if KeyOf(op) in db.records && db.records[KeyOf(op)].requestHash == op.requestHash
               && db.records[KeyOf(op)].existingId in db.textRuns
               && SessionMatches(db.sessions[r], SessionOf(op, db.records[KeyOf(op)].existingId))
            then Effect(db, op) == Ok((db, Receipt(Some(db.records[KeyOf(op)].existingId), Some(r), false)))
            else Effect(db, op).Err?
  {
    var r := SessionWithKey(db, op.sessionKey);
    if KeyOf(op) !in db.records {
      var mid := WithTextRun(db, op);
      SessionIsUnique(mid, r, op.sessionKey);
      assert mid.sessions[r].textRunId != op.freshId;
    }
  }

  // ---------- a key shared by a job and a text run ----------

  /** The capability of a job call is a free argument, so a job and a text call can share a key: the text call
      then returns no row (get_supplier_text_run of a job's id), and a script call opens a session that can
      never be replayed. */
  lemma JobThenText() returns (job: Op, text: Op, script: Op)
    ensures job.EnqueueJob? && text.EnqueueText? && script.EnqueueScript?
    ensures KeyOf(job) == KeyOf(text) == KeyOf(script)
    ensures var db := Step(EMPTY, job);
            && Effect(EMPTY, job) == Ok((db, Receipt(Some("job1"), None, true)))
            && Effect(db, text) == Ok((db, Receipt(None, None, false)))
            && Effect(db, script) == Ok((Step(db, script), Receipt(None, Some("session1"), true)))
            && Effect(Step(db, script), script) == Err(MissingTextRun)
  {
    job := EnqueueJob("s", Text, "k", "p", "h", "snap", "job1");
    text := EnqueueText("s", "k", "h", "snap", "run1");
    script := EnqueueScript("s", "k", "h", "snap", "run2", "session1", "project", "chapter", "source", "runtime", "key", true);
    var db := Step(EMPTY, job);
    assert !SessionKeyTaken(db.sessions, "key");
    SessionIsUnique(Step(db, script), "session1", "key");
  }

  /** The mirror case: a job call on a record that names a text run. */
  lemma TextThenJob() returns (text: Op, job: Op)
    ensures text.EnqueueText? && job.EnqueueJob? && KeyOf(job) == KeyOf(text)
    ensures var db := Step(EMPTY, text);
            && Effect(EMPTY, text) == Ok((db, Receipt(Some("run1"), None, true)))
            && Effect(db, job) == Ok((db, Receipt(None, None, false)))
  {
    text := EnqueueText("s", "k", "h", "snap", "run1");
    job := EnqueueJob("s", Text, "k", "p", "h", "snap", "job1");
  }
}
