/** Generation jobs and their submission attempts (ai_drama_web/store.py): a store whose
    methods are single steps, and what holds over every history of them. */
module Submission {
  import opened Wrappers

  datatype JobStatus = Draft | Queued | Submitting | Submitted | Polling | Completed | Failed | Cancelled

  datatype AttemptState = Prepared | AttemptSubmitting | Accepted | Committed | UnknownOutcome | AttemptFailed

  datatype Job = Job(status: JobStatus, providerJobId: string, providerResultId: string, responseId: string)

  /** job_id is unique among attempts, so a job has at most one. */
  datatype Attempt = Attempt(state: AttemptState, providerJobId: string, evidence: string)

  /** results: generation_results rows, each naming its job. */
  datatype Db = Db(jobs: map<string, Job>, attempts: map<string, Attempt>, results: map<string, string>)

  /** What a call does: commits a state, finds no row, or raises and leaves the state alone. */
  datatype Outcome = Done(db: Db) | Absent | Refused

  predicate Allowed(a: JobStatus, b: JobStatus) {
    match a
    case Draft => b == Queued
    case Queued => b in {Submitting, Cancelled}
    case Submitting => b in {Submitted, Failed}
    case Submitted => b in {Polling, Completed, Failed}
    case Polling => b in {Polling, Completed, Failed}
    case _ => false
  }

  function SetJob(db: Db, id: string, job: Job): Db {
    db.(jobs := db.jobs[id := job])
  }

  // ---------- the calls ----------

  datatype Op =
    | CreateJob(id: string)
    | EnqueueJob(id: string)
    | TransitionJob(id: string, next: JobStatus, newResultId: Option<string>, newResponseId: Option<string>)
    | AttachProviderJob(id: string, providerJobId: string, responseId: string)
    | PrepareAttempt(id: string)
    | RecordAttempt(id: string, state: AttemptState, providerJobId: string, evidence: string)
    | ClaimSubmission(id: string)
    | CommitAccepted(id: string)
    | CreateResult(id: string, resultId: string)
    | CompleteWithResult(id: string, resultId: string)

  function Effect(db: Db, op: Op): Outcome {
    match op
    case CreateJob(id) =>
      if id in db.jobs then Refused else Done(SetJob(db, id, Job(Draft, "", "", "")))
    case EnqueueJob(id) =>
      if id in db.jobs || id in db.attempts then Refused
      else Done(SetJob(db, id, Job(Queued, "", "", "")).(attempts := db.attempts[id := Attempt(Prepared, "", "")]))
    case TransitionJob(id, next, result, response) =>
      if id !in db.jobs then Absent
      else if !Allowed(db.jobs[id].status, next) then Refused
      else
        var job := db.jobs[id];
        Done(SetJob(db, id, job.(
          status := next,
          providerResultId := if result.Some? then result.value else job.providerResultId,
          responseId := if response.Some? then response.value else job.responseId)))
    case AttachProviderJob(id, providerJobId, response) =>
      if id !in db.jobs then Absent
      else if db.jobs[id].status != Submitting then Refused
      else Done(SetJob(db, id, db.jobs[id].(status := Submitted, providerJobId := providerJobId, responseId := response)))
    case PrepareAttempt(id) =>
      if id in db.attempts then Done(db)
      else if id !in db.jobs then Refused
      else Done(db.(attempts := db.attempts[id := Attempt(Prepared, "", "")]))
    case RecordAttempt(id, state, providerJobId, evidence) =>
      if state == Prepared then Refused
      else if id !in db.attempts then Absent
      else Done(db.(attempts := db.attempts[id := Attempt(state, providerJobId, evidence)]))
    case ClaimSubmission(id) =>
      if id in db.jobs && id in db.attempts && db.jobs[id].status == Queued && db.attempts[id].state == Prepared
      then Done(SetJob(db, id, db.jobs[id].(status := Submitting)).(
                  attempts := db.attempts[id := db.attempts[id].(state := AttemptSubmitting)]))
      else Absent
    case CommitAccepted(id) =>
      if id !in db.attempts || id !in db.jobs || db.attempts[id].state != Accepted || db.attempts[id].providerJobId == ""
      then Refused
      else if db.jobs[id].status == Submitting then
        Done(SetJob(db, id, db.jobs[id].(status := Submitted, providerJobId := db.attempts[id].providerJobId,
                                         responseId := db.attempts[id].evidence)).(
               attempts := db.attempts[id := db.attempts[id].(state := Committed)]))
      else if db.jobs[id].status == Submitted then
        Done(db.(attempts := db.attempts[id := db.attempts[id].(state := Committed)]))
      else Refused
    case CreateResult(id, resultId) =>
      if resultId in db.results || id !in db.jobs then Refused
      else Done(db.(results := db.results[resultId := id]))
    case CompleteWithResult(id, resultId) =>
      if id !in db.jobs then Absent
      else if db.jobs[id].status !in {Submitted, Polling} || resultId in db.results then Refused
      else Done(SetJob(db, id, db.jobs[id].(status := Completed, providerResultId := resultId)).(
                  results := db.results[resultId := id]))
  }

  function Step(db: Db, op: Op): Db {
    match Effect(db, op)
    case Done(after) => after
    case _ => db
  }

  function Run(db: Db, ops: seq<Op>): Db {
    if ops == [] then db else Step(Run(db, ops[..|ops| - 1]), ops[|ops| - 1])
  }

  const EMPTY := Db(map[], map[], map[])

  // ---------- one step ----------

  /** How far a job has come; only polling -> polling stays on one level. */
  function Rank(s: JobStatus): nat {
    match s
    case Draft => 0
    case Queued => 1
    case Submitting => 2
    case Submitted => 3
    case Polling => 4
    case _ => 5
  }

  /** No job appears past queued, none disappears, and a status changes only along the table. */
  lemma StepFollowsTable(db: Db, op: Op, id: string)
    ensures id in db.jobs ==>
              && id in Step(db, op).jobs
              && (Step(db, op).jobs[id].status == db.jobs[id].status
                  || Allowed(db.jobs[id].status, Step(db, op).jobs[id].status))
    ensures id !in db.jobs && id in Step(db, op).jobs ==> Step(db, op).jobs[id].status in {Draft, Queued}
  {
  }

  /** The level of a job id: 0 before the row exists. */
  function Level(db: Db, id: string): nat {
    if id in db.jobs then 1 + Rank(db.jobs[id].status) else 0
  }

  ghost predicate Crosses(db: Db, op: Op, id: string, level: nat) {
    Level(db, id) < level <= Level(Step(db, op), id)
  }

  lemma {:induction false} LevelNeverFalls(db: Db, ops: seq<Op>, earlier: nat, id: string)
    requires earlier <= |ops|
    ensures Level(Run(db, ops[..earlier]), id) <= Level(Run(db, ops), id)
    decreases |ops|
  {
    if earlier < |ops| {
      var front := ops[..|ops| - 1];
      LevelNeverFalls(db, front, earlier, id);
      assert front[..earlier] == ops[..earlier];
      StepFollowsTable(Run(db, front), ops[|ops| - 1], id);
    } else {
      assert ops[..earlier] == ops;
    }
  }

  /** The state a history is in before its i-th call. */
  function Before(db: Db, ops: seq<Op>, i: nat): Db
    requires i <= |ops|
  {
    Run(db, ops[..i])
  }

  lemma BeforeNext(db: Db, ops: seq<Op>, i: nat)
    requires i < |ops|
    ensures Before(db, ops, i + 1) == Step(Before(db, ops, i), ops[i])
  {
    assert ops[..i + 1][..i] == ops[..i];
  }

  /** A level is crossed at most once in a history. */
  lemma CrossedOnce(db: Db, ops: seq<Op>, i: nat, k: nat, id: string, level: nat)
    requires i < |ops| && k < |ops|
    requires Crosses(Before(db, ops, i), ops[i], id, level) && Crosses(Before(db, ops, k), ops[k], id, level)
    ensures i == k
  {
    if i < k {
      CrossedBefore(db, ops, i, k, id, level);
    } else if k < i {
      CrossedBefore(db, ops, k, i, id, level);
    }
  }

  lemma CrossedBefore(db: Db, ops: seq<Op>, i: nat, k: nat, id: string, level: nat)
    requires i < k <= |ops| && Crosses(Before(db, ops, i), ops[i], id, level)
    ensures Level(Before(db, ops, k), id) >= level
  {
    BeforeNext(db, ops, i);
    LevelNeverFalls(db, ops[..k], i + 1, id);
    assert ops[..k][..i + 1] == ops[..i + 1];
  }

  // ---------- whole histories ----------

  /** Every status history is a path in the transition table. */
  lemma HistoryIsTablePath(db: Db, ops: seq<Op>, i: nat, id: string)
    requires i < |ops| && id in Before(db, ops, i).jobs
    ensures id in Before(db, ops, i + 1).jobs
    ensures var a, b := Before(db, ops, i).jobs[id].status, Before(db, ops, i + 1).jobs[id].status;
            a == b || Allowed(a, b)
  {
    BeforeNext(db, ops, i);
    StepFollowsTable(Before(db, ops, i), ops[i], id);
  }

  /** A terminal status is final. */
  lemma {:induction false} TerminalIsFinal(db: Db, ops: seq<Op>, i: nat, k: nat, id: string)
    requires i <= k <= |ops| && id in Before(db, ops, i).jobs
    requires Before(db, ops, i).jobs[id].status in {Completed, Failed, Cancelled}
    ensures id in Before(db, ops, k).jobs && Before(db, ops, k).jobs[id].status == Before(db, ops, i).jobs[id].status
    decreases k
  {
    if i < k {
      TerminalIsFinal(db, ops, i, k - 1, id);
      HistoryIsTablePath(db, ops, k - 1, id);
    }
  }

  ghost predicate EntersSubmitting(db: Db, op: Op, id: string) {
    && id in Step(db, op).jobs && Step(db, op).jobs[id].status == Submitting
    && (id in db.jobs ==> db.jobs[id].status != Submitting)
  }

  lemma SubmittingEnteredOnce(db: Db, ops: seq<Op>, i: nat, k: nat, id: string)
    requires i < |ops| && k < |ops|
    requires EntersSubmitting(Before(db, ops, i), ops[i], id) && EntersSubmitting(Before(db, ops, k), ops[k], id)
    ensures i == k
  {
    StepFollowsTable(Before(db, ops, i), ops[i], id);
    StepFollowsTable(Before(db, ops, k), ops[k], id);
    CrossedOnce(db, ops, i, k, id, 3);
  }

  ghost predicate Claims(db: Db, op: Op, id: string) {
    op == ClaimSubmission(id) && Effect(db, op).Done?
  }

  /** Of all claims of a job at most one succeeds. */
  lemma ClaimSucceedsOnce(db: Db, ops: seq<Op>, i: nat, k: nat, id: string)
    requires i < |ops| && k < |ops|
    requires Claims(Before(db, ops, i), ops[i], id) && Claims(Before(db, ops, k), ops[k], id)
    ensures i == k
  {
    SubmittingEnteredOnce(db, ops, i, k, id);
  }

  ghost predicate ChangesProviderJob(db: Db, op: Op, id: string) {
    id in db.jobs && id in Step(db, op).jobs && Step(db, op).jobs[id].providerJobId != db.jobs[id].providerJobId
  }

  lemma ProviderJobChangesOnce(db: Db, ops: seq<Op>, i: nat, k: nat, id: string)
    requires i < |ops| && k < |ops|
    requires ChangesProviderJob(Before(db, ops, i), ops[i], id) && ChangesProviderJob(Before(db, ops, k), ops[k], id)
    ensures i == k
  {
    ProviderJobNeedsSubmitting(Before(db, ops, i), ops[i], id);
    ProviderJobNeedsSubmitting(Before(db, ops, k), ops[k], id);
    CrossedOnce(db, ops, i, k, id, 4);
  }

  lemma ProviderJobNeedsSubmitting(db: Db, op: Op, id: string)
    requires ChangesProviderJob(db, op, id)
    ensures db.jobs[id].status == Submitting && Step(db, op).jobs[id].status == Submitted
  {
  }

  ghost predicate Completes(db: Db, op: Op, id: string) {
    op.CompleteWithResult? && op.id == id && Effect(db, op).Done?
  }

  /** The completing step adds one result, and happens at most once for a job. */
  lemma CompletedOnce(db: Db, ops: seq<Op>, i: nat, k: nat, id: string)
    requires i < |ops| && k < |ops|
    requires Completes(Before(db, ops, i), ops[i], id) && Completes(Before(db, ops, k), ops[k], id)
    ensures i == k
    ensures Before(db, ops, i + 1).results == Before(db, ops, i).results[ops[i].resultId := id]
    ensures ops[i].resultId !in Before(db, ops, i).results
    ensures id in Before(db, ops, i + 1).jobs && Before(db, ops, i + 1).jobs[id].providerResultId == ops[i].resultId
  {
    BeforeNext(db, ops, i);
    CrossedOnce(db, ops, i, k, id, 6);
  }

  predicate LeftPrepared(db: Db, id: string) {
    id in db.attempts && db.attempts[id].state != Prepared
  }

  lemma StepKeepsLeftPrepared(db: Db, op: Op, id: string)
    requires LeftPrepared(db, id)
    ensures LeftPrepared(Step(db, op), id)
  {
  }

  /** prepared is never re-entered: an attempt that left it is still stored at any later time, and out of it. */
  lemma {:induction false} PreparedIsNotReentered(db: Db, ops: seq<Op>, i: nat, k: nat, id: string)
    requires i <= k <= |ops| && LeftPrepared(Before(db, ops, i), id)
    ensures LeftPrepared(Before(db, ops, k), id)
  {
    if i < k {
      PreparedIsNotReentered(db, ops, i, k - 1, id);
      BeforeNext(db, ops, k - 1);
      StepKeepsLeftPrepared(Before(db, ops, k - 1), ops[k - 1], id);
    }
  }

  /** commit_accepted_submission succeeds exactly on an accepted attempt with a provider id whose job
      is submitting or already submitted; afterwards both sides agree on the provider's id unless
      a submitted job already carried another one. */
  lemma CommitAcceptedOutcome(db: Db, id: string)
    ensures Effect(db, CommitAccepted(id)).Done? <==>
              && id in db.jobs && id in db.attempts && db.attempts[id].state == Accepted
              && db.attempts[id].providerJobId != "" && db.jobs[id].status in {Submitting, Submitted}
    ensures Effect(db, CommitAccepted(id)).Done? ==>
              var after := Step(db, CommitAccepted(id));
              && after.jobs[id].status == Submitted && after.attempts[id].state == Committed
              && (after.jobs[id].providerJobId == after.attempts[id].providerJobId <==>
                    db.jobs[id].status == Submitting || db.jobs[id].providerJobId == db.attempts[id].providerJobId)
  {
  }

  lemma OneMoreStep(db: Db, ops: seq<Op>, op: Op, after: Db)
    requires Effect(Run(db, ops), op) == Done(after)
    ensures Run(db, ops + [op]) == after
  {
    assert (ops + [op])[..|ops|] == ops;
  }

  /** A database with the one job j and its attempt. */
  function OneJob(job: Job, attempt: Attempt): Db {
    Db(map["j" := job], map["j" := attempt], map[])
  }

  /** The two provider ids can differ: a job is attached under one id while its attempt is recorded as
      accepted under another, and the commit then succeeds. */
  lemma CommitLeavesDifferentIds() returns (ops: seq<Op>)
    ensures Effect(Run(EMPTY, ops), CommitAccepted("j")) == Done(OneJob(Job(Submitted, "x", "", ""), Attempt(Committed, "y", "")))
  {
    ops := [];
    OneMoreStep(EMPTY, ops, EnqueueJob("j"), OneJob(Job(Queued, "", "", ""), Attempt(Prepared, "", "")));
    ops := ops + [EnqueueJob("j")];
    OneMoreStep(EMPTY, ops, ClaimSubmission("j"), OneJob(Job(Submitting, "", "", ""), Attempt(AttemptSubmitting, "", "")));
    ops := ops + [ClaimSubmission("j")];
    OneMoreStep(EMPTY, ops, AttachProviderJob("j", "x", ""),
                OneJob(Job(Submitted, "x", "", ""), Attempt(AttemptSubmitting, "", "")));
    ops := ops + [AttachProviderJob("j", "x", "")];
    OneMoreStep(EMPTY, ops, RecordAttempt("j", Accepted, "y", ""), OneJob(Job(Submitted, "x", "", ""), Attempt(Accepted, "y", "")));
    ops := ops + [RecordAttempt("j", Accepted, "y", "")];
  }
}
