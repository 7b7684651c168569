/** What each enqueue call stores and answers, table by table (ai_drama_web/store.py). */
module EnqueueLaw {
  import opened Wrappers
  import opened Enqueue

  /** Which key a record is stored under: jobs bring their capability, the text methods always use text. */
  function RecordKey(op: Op): Key {
    match op
    case EnqueueJob(supplierId, capability, key, _, _, _, _) => Key(supplierId, capability, key)
    case EnqueueText(supplierId, key, _, _, _) => Key(supplierId, Text, key)
    case EnqueueScript(supplierId, key, _, _, _, _, _, _, _, _, _, _) => Key(supplierId, Text, key)
  }

  lemma JobByTables(db: Db, supplierId: string, capability: Capability, key: string, provider: string,
                    requestHash: string, snapshotHash: string, freshId: string)
    ensures var r := Effect(db, EnqueueJob(supplierId, capability, key, provider, requestHash, snapshotHash, freshId));
            var k := Key(supplierId, capability, key);
            if k in db.records then
              if db.records[k].requestHash != requestHash then r == Err(IdempotencyConflict)
              else
                var id := db.records[k].existingId;
                r == Ok((db, Receipt(if id in db.jobs then Some(id) else None, None, false)))
            else if freshId in db.jobs || freshId in db.attempts
                    || exists j :: j in db.jobs && db.jobs[j].provider == provider && db.jobs[j].key == key
            then r == Err(IntegrityError)
            else
              r == Ok((Db(db.snapshots + {snapshotHash}, db.jobs[freshId := JobRow(provider, key, requestHash, snapshotHash)],
                          db.attempts + {freshId}, db.textRuns, db.sessions, db.records[k := Record(requestHash, freshId)]),
                       Receipt(Some(freshId), None, true)))
  {
  }

  /** The tables after the supplier half of a text call that finds no record. */
  function TextStored(db: Db, supplierId: string, key: string, requestHash: string, snapshotHash: string, freshId: string): Db {
    Db(db.snapshots + {snapshotHash}, db.jobs, db.attempts,
       db.textRuns[freshId := TextRow(supplierId, key, requestHash, snapshotHash)], db.sessions,
       db.records[Key(supplierId, Text, key) := Record(requestHash, freshId)])
  }

  lemma TextByTables(db: Db, supplierId: string, key: string, requestHash: string, snapshotHash: string, freshId: string)
    ensures var r := Effect(db, EnqueueText(supplierId, key, requestHash, snapshotHash, freshId));
            var k := Key(supplierId, Text, key);
            if k in db.records then
              if db.records[k].requestHash != requestHash then r == Err(IdempotencyConflict)
              else
                var id := db.records[k].existingId;
                r == Ok((db, Receipt(if id in db.textRuns then Some(id) else None, None, false)))
            else if freshId in db.textRuns then r == Err(IntegrityError)
            else r == Ok((TextStored(db, supplierId, key, requestHash, snapshotHash, freshId), Receipt(Some(freshId), None, true)))
  {
  }

  /** The second half of a script call, over the tables and the text run of the first. */
  ghost predicate SessionOutcome(mid: Db, op: Op, textId: string, r: Result<(Db, Receipt), EnqueueError>)
    requires op.EnqueueScript?
  {
    && (forall s :: s in mid.sessions && mid.sessions[s].key == op.sessionKey ==>
          r == if mid.sessions[s].projectId != op.projectId || mid.sessions[s].chapterId != op.chapterId
                  || mid.sessions[s].sourceId != op.sourceId || mid.sessions[s].textRunId != textId
                  || mid.sessions[s].snapshotHash != op.snapshotHash then Err(ScriptConflict)
               else if textId !in mid.textRuns then Err(MissingTextRun)
               else Ok((mid, Receipt(Some(textId), Some(s), false))))
    && ((forall s :: s in mid.sessions ==> mid.sessions[s].key != op.sessionKey) ==>
          r == if op.runId in mid.sessions || !op.parentsExist
                  || (exists s :: s in mid.sessions && mid.sessions[s].runtimeRunId == op.runtimeRunId) then Err(IntegrityError)
               else
                 Ok((mid.(sessions := mid.sessions[op.runId := SessionRow(
                            op.projectId, op.chapterId, op.sourceId, op.runtimeRunId, textId, op.snapshotHash, op.sessionKey)]),
                     Receipt(if textId in mid.textRuns then Some(textId) else None, Some(op.runId), true))))
  }

  /** A script call fails like a text call, or hands the text run it found or made to the session half. */
  lemma ScriptByTables(db: Db, op: Op)
    requires op.EnqueueScript? && EnqueueInvariant(db)
    ensures var r, k := Effect(db, op), Key(op.supplierId, Text, op.key);
            if k in db.records then
              if db.records[k].requestHash != op.requestHash then r == Err(IdempotencyConflict)
              else SessionOutcome(db, op, db.records[k].existingId, r)
            else if op.freshId in db.textRuns then r == Err(IntegrityError)
            else SessionOutcome(TextStored(db, op.supplierId, op.key, op.requestHash, op.snapshotHash, op.freshId), op, op.freshId, r)
  {
    var k := Key(op.supplierId, Text, op.key);
    if k in db.records {
      SessionHalf(db, op, db.records[k].existingId);
    } else if op.freshId !in db.textRuns {
      SessionHalf(WithTextRun(db, op), op, op.freshId);
    }
  }

  lemma SessionHalf(mid: Db, op: Op, textId: string)
    requires op.EnqueueScript? && SessionKeysUnique(mid)
    ensures SessionOutcome(mid, op, textId, AddSession(mid, op, textId))
  {
    forall s | s in mid.sessions && mid.sessions[s].key == op.sessionKey
      ensures SessionKeyTaken(mid.sessions, op.sessionKey) && SessionWithKey(mid, op.sessionKey) == s
    {
      SessionIsUnique(mid, s, op.sessionKey);
    }
  }

  /** The record of a call's key is the one its own row is stored under. */
  lemma KeyByTables(db: Db, op: Op)
    requires RecordKey(op) !in db.records && Effect(db, op).Ok?
    ensures var after := Effect(db, op).value.0;
            after.records == db.records[RecordKey(op) := Record(op.requestHash, op.freshId)]
  {
  }
}
