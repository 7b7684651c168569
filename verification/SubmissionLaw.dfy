/** What each call on a generation job does to the three tables, column by column, with the transition table
    written out (ai_drama_web/store.py). */
module SubmissionLaw {
  import opened Wrappers
  import opened Submission

  /** The eleven pairs of the transition table. */
  predicate InTable(a: JobStatus, b: JobStatus) {
    (a, b) in {(Draft, Queued), (Queued, Submitting), (Queued, Cancelled), (Submitting, Submitted), (Submitting, Failed),
               (Submitted, Polling), (Submitted, Completed), (Submitted, Failed),
               (Polling, Polling), (Polling, Completed), (Polling, Failed)}
  }

  /** Every row but that of the one job is as it was, and no row appeared or went. */
  ghost predicate OnlyJob(db: Db, after: Db, id: string) {
    && id in db.jobs && after.jobs.Keys == db.jobs.Keys && after.results == db.results
    && forall j :: j in db.jobs && j != id ==> after.jobs[j] == db.jobs[j]
  }

  ghost predicate OnlyAttempt(db: Db, after: Db, id: string) {
    && id in after.attempts && after.attempts.Keys == db.attempts.Keys + {id} && after.results == db.results
    && forall j :: j in db.attempts && j != id ==> after.attempts[j] == db.attempts[j]
  }

  /** A transition is granted exactly along the table; it writes the status and the columns it is given. */
  lemma TransitionByTables(db: Db, id: string, next: JobStatus, result: Option<string>, response: Option<string>)
    ensures var r := Effect(db, TransitionJob(id, next, result, response));
            if id !in db.jobs then r == Absent
            else if !InTable(db.jobs[id].status, next) then r == Refused
            else
              && r.Done? && OnlyJob(db, r.db, id) && r.db.attempts == db.attempts
              && r.db.jobs[id].status == next && r.db.jobs[id].providerJobId == db.jobs[id].providerJobId
              && (match result
                  case Some(x) => r.db.jobs[id].providerResultId == x
                  case None => r.db.jobs[id].providerResultId == db.jobs[id].providerResultId)
              && (match response
                  case Some(x) => r.db.jobs[id].responseId == x
                  case None => r.db.jobs[id].responseId == db.jobs[id].responseId)
  {
  }

  /** Attaching needs a submitting job and stores both ids of the provider. */
  lemma AttachByTables(db: Db, id: string, providerJobId: string, response: string)
    ensures var r := Effect(db, AttachProviderJob(id, providerJobId, response));
            if id !in db.jobs then r == Absent
            else if db.jobs[id].status != Submitting then r == Refused
            else
              && r.Done? && OnlyJob(db, r.db, id) && r.db.attempts == db.attempts
              && r.db.jobs[id] == Job(Submitted, providerJobId, db.jobs[id].providerResultId, response)
  {
  }

  /** A new job starts as a draft, an enqueued one queued with a prepared attempt; an attempt is prepared once. */
  lemma CreationByTables(db: Db, id: string)
    ensures Effect(db, CreateJob(id)) ==
              if id in db.jobs then Refused else Done(Db(db.jobs[id := Job(Draft, "", "", "")], db.attempts, db.results))
    ensures Effect(db, EnqueueJob(id)) ==
              if id in db.jobs || id in db.attempts then Refused
              else Done(Db(db.jobs[id := Job(Queued, "", "", "")], db.attempts[id := Attempt(Prepared, "", "")], db.results))
    ensures Effect(db, PrepareAttempt(id)) ==
              if id in db.attempts then Done(db)
              else if id in db.jobs then Done(Db(db.jobs, db.attempts[id := Attempt(Prepared, "", "")], db.results))
              else Refused
  {
  }

  /** Recording replaces the attempt's three columns, by anything but prepared. */
  lemma RecordByTables(db: Db, id: string, state: AttemptState, providerJobId: string, evidence: string)
    ensures var r := Effect(db, RecordAttempt(id, state, providerJobId, evidence));
            if state == Prepared then r == Refused
            else if id !in db.attempts then r == Absent
            else
              && r.Done? && OnlyAttempt(db, r.db, id) && r.db.jobs == db.jobs
              && r.db.attempts[id].state == state && r.db.attempts[id].providerJobId == providerJobId
              && r.db.attempts[id].evidence == evidence
  {
  }

  /** A claim succeeds exactly on a queued job with a prepared attempt, and moves both to submitting. */
  lemma ClaimByTables(db: Db, id: string)
    ensures var r := Effect(db, ClaimSubmission(id));
            if id in db.jobs && db.jobs[id].status == Queued && id in db.attempts && db.attempts[id].state == Prepared then
              && r.Done? && OnlyJob(db, r.db, id) && OnlyAttempt(db, r.db, id)
              && r.db.jobs[id] == Job(Submitting, db.jobs[id].providerJobId, db.jobs[id].providerResultId, db.jobs[id].responseId)
              && r.db.attempts[id] == Attempt(AttemptSubmitting, db.attempts[id].providerJobId, db.attempts[id].evidence)
            else r == Absent
  {
  }

  /** Committing moves an accepted attempt to committed; a submitting job takes over the attempt's provider id
      and evidence, a submitted one keeps its columns. */
  lemma CommitByTables(db: Db, id: string)
    ensures var r := Effect(db, CommitAccepted(id));
            if id in db.jobs && id in db.attempts && db.attempts[id].state == Accepted && db.attempts[id].providerJobId != ""
               && db.jobs[id].status in {Submitting, Submitted} then
              && r.Done? && OnlyJob(db, r.db, id) && OnlyAttempt(db, r.db, id)
              && r.db.attempts[id] == Attempt(Committed, db.attempts[id].providerJobId, db.attempts[id].evidence)
              && r.db.jobs[id] == if db.jobs[id].status == Submitted then db.jobs[id]
                                  else Job(Submitted, db.attempts[id].providerJobId, db.jobs[id].providerResultId,
                                           db.attempts[id].evidence)
            else r == Refused
  {
  }

  /** A result row needs a stored job and an unused id; completing also needs a submitted or polling job,
      and names the result in it. */
  lemma ResultsByTables(db: Db, id: string, resultId: string)
    ensures Effect(db, CreateResult(id, resultId)) ==
              if id in db.jobs && resultId !in db.results then Done(Db(db.jobs, db.attempts, db.results[resultId := id])) else Refused
    ensures var r := Effect(db, CompleteWithResult(id, resultId));
            if id !in db.jobs then r == Absent
            else if db.jobs[id].status !in {Submitted, Polling} || resultId in db.results then r == Refused
            else
              && r.Done? && r.db.attempts == db.attempts && r.db.results == db.results[resultId := id]
              && OnlyJob(db, r.db.(results := db.results), id)
              && r.db.jobs[id] == Job(Completed, db.jobs[id].providerJobId, resultId, db.jobs[id].responseId)
  {
  }
}
