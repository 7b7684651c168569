/** The runtime store's revision methods as updates of its tables, and the lineage invariant
    over every history of them (ai_drama_runtime/store.py). */
module LineageStore {
  import opened Wrappers
  import opened Lineage

  class RuntimeStore {
    var revisions: Revisions
    var approvals: seq<ApprovalRecord>
    var dependencies: map<string, seq<Dependency>>

    constructor ()
      ensures Contents() == EMPTY
    {
      revisions, approvals, dependencies := map[], [], map[];
    }

    function Contents(): Store
      reads this
    {
      Store(revisions, approvals, dependencies)
    }

    /** The newest number of the artifact and a revision that carries it. */
    method NewestOf(artifactId: string) returns (n: int, newest: Option<string>)
      ensures n == MaxNumber(revisions, artifactId, revisions.Keys)
      ensures match newest
              case None => n == 0
              case Some(p) => p in revisions && revisions[p].artifactId == artifactId && revisions[p].number == n
    {
      n, newest := 0, None;
      var todo := revisions.Keys;
      while todo != {}
        invariant todo <= revisions.Keys && n >= 0
        invariant forall r :: r in revisions.Keys - todo && revisions[r].artifactId == artifactId ==> revisions[r].number <= n
        invariant newest.None? ==> n == 0
        invariant newest.Some? ==>
                    && newest.value in revisions && revisions[newest.value].artifactId == artifactId
                    && revisions[newest.value].number == n
        decreases todo
      {
        var r :| r in todo;
        todo := todo - {r};
        if revisions[r].artifactId == artifactId && revisions[r].number > n {
          n, newest := revisions[r].number, Some(r);
        }
      }
    }

    /** One call of insert_revision; create_manual_revision passes the edited revision as source. */
    method InsertRevision(id: string, artifactId: string, contentHash: string, source: Option<string>)
      returns (r: Result<Revision, StoreError>)
      modifies this`revisions
      ensures r.Err? <==> id in old(revisions)
      ensures r.Err? ==> revisions == old(revisions)
      ensures r.Ok? ==> Inserted(old(Contents()), Contents(), id, artifactId, contentHash, source)
                        && r.value == revisions[id]
      ensures r.Ok? ==>
        && approvals == old(approvals) && dependencies == old(dependencies) && revisions == old(revisions)[id := r.value]
        && r.value == Revision(artifactId, r.value.number, contentHash, Pending, r.value.supersedes)
        && (source.Some? ==> r.value.supersedes == source)
        && (forall q :: q in old(revisions) && old(revisions)[q].artifactId == artifactId ==> old(revisions)[q].number < r.value.number)
      ensures r.Err? ==> r.error == DuplicateId
    {
      var n, newest := NewestOf(artifactId);
      if id in revisions {
        return Err(DuplicateId);
      }
      var supersedes := if source.Some? then source else newest;
      var row := Revision(artifactId, n + 1, contentHash, Pending, supersedes);
      revisions := revisions[id := row];
      return Ok(row);
    }

    /** A rejected insert of the approval record rolls the two updates back. */
    method ApproveInTransaction(id: string, recordId: string) returns (r: Result<ApprovalRecord, StoreError>)
      modifies this`revisions, this`approvals
      ensures match Approving(old(Contents()), id, recordId)
              case Ok(after) => Contents() == after && r == Ok(after.approvals[|after.approvals| - 1])
              case Err(e) => Contents() == old(Contents()) && r == Err(e)
    {
      if id !in revisions {
        return Err(UnknownRevision);
      }
      var saved := revisions;
      var artifactId := revisions[id].artifactId;
      revisions := map q | q in revisions ::
        if revisions[q].artifactId == artifactId && revisions[q].approval == Approved
        then revisions[q].(approval := Superseded) else revisions[q];
      revisions := revisions[id := revisions[id].(approval := Approved)];
      if HasRecord(approvals, recordId) {
        revisions := saved;
        return Err(DuplicateId);
      }
      var rec := ApprovalRecord(recordId, id, artifactId, Approve);
      approvals := approvals + [rec];
      return Ok(rec);
    }

    method RecordRejection(id: string, recordId: string) returns (r: Result<ApprovalRecord, StoreError>)
      modifies this`revisions, this`approvals
      ensures match Rejecting(old(Contents()), id, recordId)
              case Ok(after) => Contents() == after && r == Ok(after.approvals[|after.approvals| - 1])
              case Err(e) => Contents() == old(Contents()) && r == Err(e)
    {
      if id !in revisions {
        return Err(UnknownRevision);
      }
      var saved := revisions;
      revisions := revisions[id := revisions[id].(approval := Rejected)];
      if HasRecord(approvals, recordId) {
        revisions := saved;
        return Err(DuplicateId);
      }
      var rec := ApprovalRecord(recordId, id, revisions[id].artifactId, Reject);
      approvals := approvals + [rec];
      return Ok(rec);
    }
  }

  const EMPTY := Store(map[], [], map[])

  // ---------- histories ----------

  datatype Op =
    | InsertRevision(id: string, artifactId: string, contentHash: string, source: Option<string>)
    | ApproveRevision(id: string, recordId: string)
    | RejectRevision(id: string, recordId: string)
    | InsertDependency(child: string, dependency: Dependency)

  /** Callers of insert_revision that name a source edit a stored revision of the same artifact. */
  predicate Legal(s: Store, op: Op) {
    op.InsertRevision? && op.source.Some? ==>
      op.source.value in s.revisions && s.revisions[op.source.value].artifactId == op.artifactId
  }

  ghost predicate Stepped(s: Store, op: Op, t: Store) {
    match op
    case InsertRevision(id, artifactId, contentHash, source) =>
      if id in s.revisions then t == s else Inserted(s, t, id, artifactId, contentHash, source)
    case ApproveRevision(id, recordId) =>
      (match Approving(s, id, recordId) case Ok(after) => t == after case Err(_) => t == s)
    case RejectRevision(id, recordId) =>
      (match Rejecting(s, id, recordId) case Ok(after) => t == after case Err(_) => t == s)
    case InsertDependency(child, dependency) =>
      t.revisions == s.revisions && t.approvals == s.approvals
  }

  ghost predicate History(states: seq<Store>, ops: seq<Op>) {
    && |states| == |ops| + 1 && states[0] == EMPTY
    && forall i :: 0 <= i < |ops| ==> Legal(states[i], ops[i]) && Stepped(states[i], ops[i], states[i + 1])
  }

  lemma StepKeepsInvariant(s: Store, op: Op, t: Store)
    requires StoreInvariant(s) && Legal(s, op) && Stepped(s, op, t)
    ensures StoreInvariant(t)
  {
    match op
    case InsertRevision(id, artifactId, contentHash, source) =>
      if id !in s.revisions { InsertedKeepsInvariant(s, t, id, artifactId, contentHash, source); }
    case ApproveRevision(id, recordId) =>
      if Approving(s, id, recordId).Ok? { ApprovingKeepsInvariant(s, id, recordId); }
    case RejectRevision(id, recordId) =>
      if Rejecting(s, id, recordId).Ok? { RejectingKeepsInvariant(s, id, recordId); }
    case InsertDependency(_, _) =>
  }

  /** In every reachable state the log determines every status, numbers run 1..n per artifact and
      supersedes links descend. */
  lemma {:induction false} HistoryKeepsInvariant(states: seq<Store>, ops: seq<Op>)
    requires History(states, ops)
    ensures StoreInvariant(states[|ops|])
    decreases |ops|
  {
    if ops != [] {
      var n := |ops| - 1;
      HistoryKeepsInvariant(states[..|ops|], ops[..n]);
      StepKeepsInvariant(states[n], ops[n], states[|ops|]);
    }
  }
}
