/** Streaming script runs (ai_drama_web/store.py): the per-run event log, the status
    column, and crash recovery.

    A session is a row of script_generation_runs together with the rows of
    script_generation_events that reference it, keyed by sequence (their primary key
    is (run_id, sequence) and run_id is a foreign key).  Time stamps are left out. */
module ScriptRuns {
  import opened Wrappers
  import opened Hashing
  import opened JsonText
  import opened CanonicalJson

  datatype Status = Prepared | Submitting | Streaming | Finalizing | Completed | Failed | UnknownOutcome

  datatype Run = Run(
    runtimeRunId: string,
    status: Status,
    lastSequence: int,
    characterCount: int,
    revisionId: string,
    errorCode: string,
    evidence: string)

  /** payload_object_id and payload_hash are both the digest of the payload's text. */
  datatype Event = Event(eventType: string, payload: Json)

  datatype Session = Session(run: Run, log: map<int, Event>)

  type Sessions = map<string, Session>

  datatype Conflict = EventTypeInvalid | SequenceConflict | NotFound | StatusConflict

  predicate KnownEventType(eventType: string) {
    eventType in {"stage", "text_delta", "usage", "failed", "revision_completed"}
  }

  // ---------- single steps ----------

  function PayloadHash(sha: TextSha256, payload: Json): string {
    sha(Dumps(payload))
  }

  /** What an event adds to character_count: the length of a text_delta's text. */
  function TextLength(e: Event): nat {
    if e.eventType != "text_delta" || !e.payload.Obj? then 0
    else
      match Lookup(e.payload.fields, "text")
      case Some(Str(text)) => |text|
      case _ => 0
  }

  function Record(s: Session, e: Event): Session {
    Session(
      s.run.(lastSequence := s.run.lastSequence + 1, characterCount := s.run.characterCount + TextLength(e)),
      s.log[s.run.lastSequence + 1 := e])
  }

  function Append(sha: TextSha256, ss: Sessions, runId: string, sequence: int, e: Event): Result<Sessions, Conflict> {
    if !KnownEventType(e.eventType) then Err(EventTypeInvalid)
    else if runId in ss && sequence in ss[runId].log then
      var existing := ss[runId].log[sequence];
      if existing.eventType != e.eventType || PayloadHash(sha, existing.payload) != PayloadHash(sha, e.payload)
      then Err(SequenceConflict)
      else Ok(ss)
    else if runId !in ss then Err(NotFound)
    else if sequence != ss[runId].run.lastSequence + 1 then Err(SequenceConflict)
    else Ok(ss[runId := Record(ss[runId], e)])
  }

  function Moved(s: Session, status: Status, revisionId: string, errorCode: string, evidence: string): Session {
    s.(run := s.run.(status := status, revisionId := revisionId, errorCode := errorCode, evidence := evidence))
  }

  function Transition(ss: Sessions, runId: string, expected: set<Status>, status: Status,
                      revisionId: string, errorCode: string, evidence: string): Result<Sessions, Conflict>
  {
    if runId in ss && ss[runId].run.status in expected
    then Ok(ss[runId := Moved(ss[runId], status, revisionId, errorCode, evidence)])
    else Err(StatusConflict)
  }

  // ---------- the invariant of the event log ----------

  function TextTotal(log: map<int, Event>, n: int): nat
    decreases n
  {
    if n <= 0 || n !in log then 0 else TextTotal(log, n - 1) + TextLength(log[n])
  }

  /** Sequences are exactly 1..last_sequence and character_count is the streamed text's length. */
  ghost predicate LogSound(s: Session) {
    && s.run.lastSequence >= 0
    && (forall i :: i in s.log <==> 1 <= i <= s.run.lastSequence)
    && s.run.characterCount == TextTotal(s.log, s.run.lastSequence)
    && forall i :: i in s.log ==> KnownEventType(s.log[i].eventType) && WellFormed(s.log[i].payload)
  }

  ghost predicate AllSound(ss: Sessions) {
    forall r :: r in ss ==> LogSound(ss[r])
  }

  lemma {:induction false} TextTotalAgrees(a: map<int, Event>, b: map<int, Event>, n: int)
    requires forall i :: 1 <= i <= n ==> i in a && i in b && a[i] == b[i]
    ensures TextTotal(a, n) == TextTotal(b, n)
    decreases n
  {
    if n > 0 { TextTotalAgrees(a, b, n - 1); }
  }

  lemma RecordKeepsLogSound(s: Session, e: Event)
    requires LogSound(s) && KnownEventType(e.eventType) && WellFormed(e.payload)
    ensures LogSound(Record(s, e))
    ensures s.log.Keys <= Record(s, e).log.Keys && forall i :: i in s.log ==> Record(s, e).log[i] == s.log[i]
  {
    TextTotalAgrees(s.log, Record(s, e).log, s.run.lastSequence);
  }

  /** A replayed event is accepted exactly when it is the stored event up to the order of
      dict keys, and then nothing changes. */
  lemma ReplayIsExact(sha: TextSha256, ss: Sessions, runId: string, sequence: int, e: Event)
    requires AllSound(ss) && WellFormed(e.payload) && KnownEventType(e.eventType)
    requires runId in ss && 1 <= sequence <= ss[runId].run.lastSequence
    ensures var stored := ss[runId].log[sequence];
            Append(sha, ss, runId, sequence, e) ==
              if stored.eventType == e.eventType && SameValue(stored.payload, e.payload)
              then Ok(ss) else Err(SequenceConflict)
  {
    DumpsDecidesSameValue(ss[runId].log[sequence].payload, e.payload);
  }

  /** A sequence that is neither stored nor next is refused. */
  lemma GapIsRefused(sha: TextSha256, ss: Sessions, runId: string, sequence: int, e: Event)
    requires AllSound(ss) && runId in ss && KnownEventType(e.eventType)
    ensures sequence < 1 || sequence > ss[runId].run.lastSequence + 1
            ==> Append(sha, ss, runId, sequence, e) == Err(SequenceConflict)
    ensures sequence == ss[runId].run.lastSequence + 1
            ==> Append(sha, ss, runId, sequence, e) == Ok(ss[runId := Record(ss[runId], e)])
  {
  }

  // ---------- recovery, run by run ----------

  datatype RuntimeRun = RuntimeRun(status: string, errorCode: string)

  /** The runtime tables: runs by id, and the newest revision published by each run. */
  datatype Runtime = Runtime(runs: map<string, RuntimeRun>, newestRevision: map<string, string>)

  datatype Verdict = Published(revisionId: string) | Rejected(errorCode: string) | Unresolved

  /** What the runtime tables say about a session that was finalizing. */
  function JudgeRun(rt: Runtime, runtimeRunId: string): Verdict {
    if runtimeRunId !in rt.runs then Unresolved
    else
      var run := rt.runs[runtimeRunId];
      if run.status == "SUCCEEDED" && runtimeRunId in rt.newestRevision then Published(rt.newestRevision[runtimeRunId])
      else if run.status in {"PARSE_FAILED", "VALIDATION_FAILED", "RUNTIME_FAILED"}
      then Rejected(if run.errorCode != "" then run.errorCode else run.status)
      else Unresolved
  }

  function JudgeSession(rt: Runtime, s: Session): Verdict {
    if s.run.status.Finalizing? then JudgeRun(rt, s.run.runtimeRunId) else Unresolved
  }

  predicate Pending(s: Session) {
    s.run.status in {Submitting, Streaming, Finalizing}
  }

  predicate HasEvent(s: Session, eventType: string) {
    exists i :: i in s.log && s.log[i].eventType == eventType
  }

  const UNKNOWN := "SUBMISSION_OUTCOME_UNKNOWN"

  function FailedEvent(errorCode: string): Event {
    Event("failed", Obj([Field("error_code", Str(errorCode))]))
  }

  function CompletedEvent(revisionId: string): Event {
    Event("revision_completed", Obj([Field("revision_id", Str(revisionId))]))
  }

  /** The terminal event recovery owes a pending session. */
  function OwedEvent(rt: Runtime, s: Session): Event {
    match JudgeSession(rt, s)
    case Published(revisionId) => CompletedEvent(revisionId)
    case Rejected(errorCode) => FailedEvent(errorCode)
    case Unresolved => FailedEvent(UNKNOWN)
  }

  function WithOwedEvent(rt: Runtime, s: Session): Session {
    var e := OwedEvent(rt, s);
    if HasEvent(s, e.eventType) then s else Record(s, e)
  }

  /** The status update recovery makes once the event is there. */
  function Closed(rt: Runtime, s: Session): Session {
    match JudgeSession(rt, s)
    case Published(revisionId) => Moved(s, Completed, revisionId, "", s.run.evidence)
    case Rejected(errorCode) => Moved(s, Failed, "", errorCode, s.run.evidence)
    case Unresolved => s.(run := s.run.(status := UnknownOutcome, errorCode := UNKNOWN))
  }

  function RecoveredSession(rt: Runtime, s: Session): Session {
    if Pending(s) then Closed(rt, WithOwedEvent(rt, s)) else s
  }

  /** The state one uninterrupted recovery reaches. */
  function Recovered(rt: Runtime, ss: Sessions): Sessions {
    map r | r in ss :: RecoveredSession(rt, ss[r])
  }

  /** Closing changes the status columns only. */
  lemma ClosedKeepsLog(rt: Runtime, s: Session)
    ensures var t := Closed(rt, s); t.log == s.log && !Pending(t) && (LogSound(s) ==> LogSound(t))
  {
  }

  lemma OwedEventKeepsSound(rt: Runtime, s: Session)
    requires LogSound(s)
    ensures LogSound(WithOwedEvent(rt, s)) && |WithOwedEvent(rt, s).log| <= |s.log| + 1
    ensures forall i :: i in s.log ==> i in WithOwedEvent(rt, s).log && WithOwedEvent(rt, s).log[i] == s.log[i]
  {
    if !HasEvent(s, OwedEvent(rt, s).eventType) {
      RecordKeepsLogSound(s, OwedEvent(rt, s));
    }
  }

  lemma RecoveredKeepsSound(rt: Runtime, s: Session)
    requires LogSound(s)
    ensures LogSound(RecoveredSession(rt, s))
    ensures !Pending(RecoveredSession(rt, s))
    ensures |RecoveredSession(rt, s).log| <= |s.log| + 1
    ensures forall i :: i in s.log ==> i in RecoveredSession(rt, s).log && RecoveredSession(rt, s).log[i] == s.log[i]
  {
    OwedEventKeepsSound(rt, s);
    ClosedKeepsLog(rt, WithOwedEvent(rt, s));
  }
}
