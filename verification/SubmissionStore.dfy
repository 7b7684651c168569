/** The store object behind the submission protocol: each method updates its tables in place
    and is one step of Submission (ai_drama_web/store.py). */
module SubmissionStore {
  import opened Wrappers
  import opened Submission

  /** A row or a true value; None or false; an exception. */
  datatype Reply = Row | NoRow | Raised

  /** The state and the reply a call must leave behind. */
  predicate Answers(before: Db, op: Op, after: Db, reply: Reply) {
    match Effect(before, op)
    case Done(db) => after == db && reply == Row
    case Absent => after == before && reply == NoRow
    case Refused => after == before && reply == Raised
  }

  class JobStore {
    var jobs: map<string, Job>
    var attempts: map<string, Attempt>
    var results: map<string, string>

    constructor ()
      ensures Contents() == EMPTY
    {
      jobs, attempts, results := map[], map[], map[];
    }

    function Contents(): Db
      reads this
    {
      Db(jobs, attempts, results)
    }

    method TransitionGenerationJob(id: string, next: JobStatus, newResultId: Option<string>, newResponseId: Option<string>)
      returns (reply: Reply)
      modifies this`jobs
      ensures Answers(old(Contents()), TransitionJob(id, next, newResultId, newResponseId), Contents(), reply)
    {
      if id !in jobs {
        return NoRow;
      }
      var current := jobs[id];
      if !Allowed(current.status, next) {
        return Raised;
      }
      var providerResultId, responseId := current.providerResultId, current.responseId;
      if newResultId.Some? { providerResultId := newResultId.value; }
      if newResponseId.Some? { responseId := newResponseId.value; }
      jobs := jobs[id := Job(next, current.providerJobId, providerResultId, responseId)];
      return Row;
    }

    method AttachGenerationProviderJob(id: string, providerJobId: string, responseId: string) returns (reply: Reply)
      modifies this`jobs
      ensures Answers(old(Contents()), AttachProviderJob(id, providerJobId, responseId), Contents(), reply)
    {
      if id !in jobs {
        return NoRow;
      }
      if jobs[id].status != Submitting {
        return Raised;
      }
      jobs := jobs[id := Job(Submitted, providerJobId, jobs[id].providerResultId, responseId)];
      return Row;
    }

    method PrepareSubmissionAttempt(id: string) returns (reply: Reply)
      modifies this`attempts
      ensures Answers(old(Contents()), PrepareAttempt(id), Contents(), reply)
    {
      if id in attempts {
        return Row;
      }
      if id !in jobs {
        return Raised;
      }
      attempts := attempts[id := Attempt(Prepared, "", "")];
      return Row;
    }

    method RecordSubmissionAttempt(id: string, state: AttemptState, providerJobId: string, evidence: string)
      returns (reply: Reply)
      modifies this`attempts
      ensures Answers(old(Contents()), RecordAttempt(id, state, providerJobId, evidence), Contents(), reply)
    {
      if state !in {AttemptSubmitting, Accepted, Committed, UnknownOutcome, AttemptFailed} {
        return Raised;
      }
      if id !in attempts {
        return NoRow;
      }
      attempts := attempts[id := Attempt(state, providerJobId, evidence)];
      return Row;
    }

    /** Two guarded updates in one transaction. */
    method ClaimGenerationSubmission(id: string) returns (reply: Reply)
      modifies this`jobs, this`attempts
      ensures Answers(old(Contents()), ClaimSubmission(id), Contents(), reply)
    {
      if id !in jobs || id !in attempts || jobs[id].status != Queued || attempts[id].state != Prepared {
        return NoRow;
      }
      jobs := jobs[id := jobs[id].(status := Submitting)];
      attempts := attempts[id := attempts[id].(state := AttemptSubmitting)];
      return Row;
    }

    /** The job row is written before the attempt row; a wrong job status rolls back. */
    method CommitAcceptedSubmission(id: string) returns (reply: Reply)
      modifies this`jobs, this`attempts
      ensures Answers(old(Contents()), CommitAccepted(id), Contents(), reply)
    {
      if id !in attempts || id !in jobs || attempts[id].state != Accepted || attempts[id].providerJobId == "" {
        return Raised;
      }
      var attempt, job := attempts[id], jobs[id];
      if job.status == Submitting {
        jobs := jobs[id := Job(Submitted, attempt.providerJobId, job.providerResultId, attempt.evidence)];
      } else if job.status != Submitted {
        return Raised;
      }
      attempts := attempts[id := attempt.(state := Committed)];
      return Row;
    }

    /** The result row is inserted first; a duplicate result id rolls it back. */
    method CompleteGenerationJobWithResult(id: string, resultId: string) returns (reply: Reply)
      modifies this`jobs, this`results
      ensures Answers(old(Contents()), CompleteWithResult(id, resultId), Contents(), reply)
    {
      if id !in jobs {
        return NoRow;
      }
      var current := jobs[id];
      if current.status !in {Submitted, Polling} {
        return Raised;
      }
      if resultId in results {
        return Raised;
      }
      results := results[resultId := id];
      jobs := jobs[id := Job(Completed, current.providerJobId, resultId, current.responseId)];
      return Row;
    }
  }
}
