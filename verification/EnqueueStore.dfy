/** The store object behind the three enqueue methods: each inserts into several tables and
    rolls all of them back when a later check or insert fails (ai_drama_web/store.py). */
module EnqueueStore {
  import opened Wrappers
  import opened Enqueue

  /** The new state and the answer of one call. */
  ghost predicate Answers(before: Db, op: Op, after: Db, r: Result<Receipt, EnqueueError>) {
    match Effect(before, op)
    case Ok((db, receipt)) => after == db && r == Ok(receipt)
    case Err(e) => after == before && r == Err(e)
  }

  class QueueStore {
    var snapshots: set<string>
    var jobs: map<string, JobRow>
    var attempts: set<string>
    var textRuns: map<string, TextRow>
    var sessions: map<string, SessionRow>
    var records: map<Key, Record>

    constructor ()
      ensures Contents() == EMPTY
    {
      snapshots, jobs, attempts, textRuns, sessions, records := {}, map[], {}, map[], map[], map[];
    }

    function Contents(): Db
      reads this
    {
      Db(snapshots, jobs, attempts, textRuns, sessions, records)
    }

    ghost predicate Valid()
      reads this
    {
      SessionKeysUnique(Contents())
    }

    /** The row a getter returns, by its id. */
    function GetGenerationJob(id: string): Option<string>
      reads this`jobs
    {
      if id in jobs then Some(id) else None
    }

    function GetSupplierTextRun(id: string): Option<string>
      reads this`textRuns
    {
      if id in textRuns then Some(id) else None
    }

    method EnqueueGenerationJob(op: Op) returns (r: Result<Receipt, EnqueueError>)
      requires op.EnqueueJob?
      modifies this
      ensures Answers(old(Contents()), op, Contents(), r)
    {
      if KeyOf(op) in records {
        if records[KeyOf(op)].requestHash != op.requestHash {
          return Err(IdempotencyConflict);
        }
        return Ok(Receipt(GetGenerationJob(records[KeyOf(op)].existingId), None, false));
      }
      var saved := snapshots;
      snapshots := snapshots + {op.snapshotHash};
      if op.freshId in jobs || ProviderKeyTaken(jobs, op.provider, op.key) || op.freshId in attempts {
        snapshots := saved;
        return Err(IntegrityError);
      }
      jobs := jobs[op.freshId := JobRow(op.provider, op.key, op.requestHash, op.snapshotHash)];
      attempts := attempts + {op.freshId};
      records := records[KeyOf(op) := Record(op.requestHash, op.freshId)];
      return Ok(Receipt(GetGenerationJob(op.freshId), None, true));
    }

    method EnqueueTextRun(op: Op) returns (r: Result<Receipt, EnqueueError>)
      requires op.EnqueueText?
      modifies this
      ensures Answers(old(Contents()), op, Contents(), r)
    {
      var text := InsertTextRun(op);
      if text.Err? {
        return Err(text.error);
      }
      return Ok(Receipt(GetSupplierTextRun(text.value.0), None, text.value.1));
    }

    /** The supplier inserts that both text methods make. */
    method InsertTextRun(op: Op) returns (r: Result<(string, bool), EnqueueError>)
      requires !op.EnqueueJob?
      modifies this
      ensures match EnsureTextRun(old(Contents()), op)
              case Ok((after, id, created)) => Contents() == after && r == Ok((id, created))
              case Err(e) => Contents() == old(Contents()) && r == Err(e)
    {
      if KeyOf(op) in records {
        if records[KeyOf(op)].requestHash != op.requestHash {
          return Err(IdempotencyConflict);
        }
        return Ok((records[KeyOf(op)].existingId, false));
      }
      var saved := snapshots;
      snapshots := snapshots + {op.snapshotHash};
      if op.freshId in textRuns {
        snapshots := saved;
        return Err(IntegrityError);
      }
      textRuns := textRuns[op.freshId := TextRow(op.supplierId, op.key, op.requestHash, op.snapshotHash)];
      records := records[KeyOf(op) := Record(op.requestHash, op.freshId)];
      return Ok((op.freshId, true));
    }

    /** A conflict found in the session half undoes the supplier inserts of the first half. */
    method EnqueueScriptGeneration(op: Op) returns (r: Result<Receipt, EnqueueError>)
      requires op.EnqueueScript? && Valid()
      modifies this
      ensures Answers(old(Contents()), op, Contents(), r) && Valid()
    {
      var oldSnapshots, oldTextRuns, oldRecords := snapshots, textRuns, records;
      var text := InsertTextRun(op);
      if text.Err? {
        return Err(text.error);
      }
      r := InsertSession(op, text.value.0);
      if r.Err? {
        snapshots, textRuns, records := oldSnapshots, oldTextRuns, oldRecords;
      }
    }

    method InsertSession(op: Op, textRunId: string) returns (r: Result<Receipt, EnqueueError>)
      requires op.EnqueueScript? && Valid()
      modifies this`sessions
      ensures Valid()
      ensures match AddSession(old(Contents()), op, textRunId)
              case Ok((after, receipt)) => Contents() == after && r == Ok(receipt)
              case Err(e) => Contents() == old(Contents()) && r == Err(e)
    {
      var wanted := SessionOf(op, textRunId);
      if SessionKeyTaken(sessions, op.sessionKey) {
        var stored: string :| stored in sessions && SessionFor(sessions, op.sessionKey, stored);
        assert stored == SessionWithKey(Contents(), op.sessionKey);
        if !SessionMatches(sessions[stored], wanted) {
          return Err(ScriptConflict);
        }
        if textRunId !in textRuns {
          return Err(MissingTextRun);
        }
        return Ok(Receipt(Some(textRunId), Some(stored), false));
      }
      if op.runId in sessions || RuntimeRunTaken(sessions, op.runtimeRunId) || !op.parentsExist {
        return Err(IntegrityError);
      }
      KeyIsNew(sessions, op.sessionKey);
      sessions := sessions[op.runId := wanted];
      return Ok(Receipt(GetSupplierTextRun(textRunId), Some(op.runId), true));
    }
  }

  lemma KeyIsNew(sessions: map<string, SessionRow>, key: string)
    requires !SessionKeyTaken(sessions, key)
    ensures forall r :: r in sessions ==> sessions[r].key != key
  {
  }
}
