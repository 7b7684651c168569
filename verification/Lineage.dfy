/** Revisions, their dependencies and the append-only approval log
    (ai_drama_runtime/store.py).  Columns no guard reads are left out. */
module Lineage {
  import opened Wrappers

  datatype ApprovalStatus = Pending | Approved | Rejected | Superseded

  datatype Revision = Revision(
    artifactId: string,
    number: int,
    contentHash: string,
    approval: ApprovalStatus,
    supersedes: Option<string>)

  datatype Action = Approve | Reject

  datatype ApprovalRecord = ApprovalRecord(recordId: string, revisionId: string, artifactId: string, action: Action)

  /** A row of revision_dependencies; an empty record id names no approval. */
  datatype Dependency = Dependency(parent: string, parentHash: string, recordId: string)

  type Revisions = map<string, Revision>

  datatype Store = Store(
    revisions: Revisions,
    approvals: seq<ApprovalRecord>,
    dependencies: map<string, seq<Dependency>>)

  datatype StoreError = DuplicateId | UnknownRevision

  predicate HasRecord(log: seq<ApprovalRecord>, recordId: string) {
    exists i :: 0 <= i < |log| && log[i].recordId == recordId
  }

  // ---------- revision numbers ----------

  /** COALESCE(MAX(number), 0) over the artifact's revisions among the given ids. */
  ghost function MaxNumber(revisions: Revisions, artifactId: string, ids: set<string>): (n: int)
    requires ids <= revisions.Keys
    ensures forall r :: r in ids && revisions[r].artifactId == artifactId ==> revisions[r].number <= n
    ensures n == 0 || exists r :: r in ids && revisions[r].artifactId == artifactId && revisions[r].number == n
    ensures n >= 0
    decreases ids
  {
    if ids == {} then 0
    else
      var r :| r in ids;
      var rest := MaxNumber(revisions, artifactId, ids - {r});
      if revisions[r].artifactId == artifactId && revisions[r].number > rest then revisions[r].number else rest
  }

  // ---------- steps ----------

  /** insert_revision: number and default predecessor come from the artifact's newest revision;
      a manual edit names its predecessor itself. */
  ghost predicate Inserted(a: Store, b: Store, id: string, artifactId: string, contentHash: string, source: Option<string>)
    requires id !in a.revisions
  {
    var n := MaxNumber(a.revisions, artifactId, a.revisions.Keys);
    && id in b.revisions
    && b == a.(revisions := a.revisions[id := b.revisions[id]])
    && b.revisions[id].artifactId == artifactId && b.revisions[id].contentHash == contentHash
    && b.revisions[id].number == n + 1 && b.revisions[id].approval == Pending
    && (source.Some? ==> b.revisions[id].supersedes == source)
    && (source.None? ==>
          match b.revisions[id].supersedes
          case None => n == 0
          case Some(p) => p in a.revisions && a.revisions[p].artifactId == artifactId && a.revisions[p].number == n)
  }

  /** approve_in_transaction. */
  function Approving(s: Store, id: string, recordId: string): Result<Store, StoreError> {
    if id !in s.revisions then Err(UnknownRevision)
    else if HasRecord(s.approvals, recordId) then Err(DuplicateId)
    else
      var artifactId := s.revisions[id].artifactId;
      Ok(s.(
        revisions := map r | r in s.revisions ::
          if r == id then s.revisions[r].(approval := Approved)
          else if s.revisions[r].artifactId == artifactId && s.revisions[r].approval == Approved
          then s.revisions[r].(approval := Superseded)
          else s.revisions[r],
        approvals := s.approvals + [ApprovalRecord(recordId, id, artifactId, Approve)]))
  }

  /** record_rejection. */
  function Rejecting(s: Store, id: string, recordId: string): Result<Store, StoreError> {
    if id !in s.revisions then Err(UnknownRevision)
    else if HasRecord(s.approvals, recordId) then Err(DuplicateId)
    else
      Ok(s.(
        revisions := s.revisions[id := s.revisions[id].(approval := Rejected)],
        approvals := s.approvals + [ApprovalRecord(recordId, id, s.revisions[id].artifactId, Reject)]))
  }

  // ---------- the approval log determines the status column ----------

  /** The index of the revision's own latest record, or -1. */
  function LatestOwn(log: seq<ApprovalRecord>, id: string): (i: int)
    ensures -1 <= i < |log|
    ensures i >= 0 ==> log[i].revisionId == id
    ensures forall j :: i < j < |log| ==> log[j].revisionId != id
  {
    if log == [] then -1
    else if log[|log| - 1].revisionId == id then |log| - 1
    else LatestOwn(log[..|log| - 1], id)
  }

  predicate ApprovedAfter(log: seq<ApprovalRecord>, i: int, artifactId: string)
    requires -1 <= i
  {
    exists j :: i < j < |log| && log[j].artifactId == artifactId && log[j].action == Approve
  }

  /** Pending without a record, rejected after an own rejection, approved after an own approval
      that no later approval in the artifact follows, superseded otherwise. */
  function StatusFromLog(log: seq<ApprovalRecord>, id: string, artifactId: string): ApprovalStatus {
    var i := LatestOwn(log, id);
    if i < 0 then Pending
    else if log[i].action == Reject then Rejected
    else if ApprovedAfter(log, i, artifactId) then Superseded
    else Approved
  }

  ghost predicate LogTyped(s: Store) {
    forall i :: 0 <= i < |s.approvals| ==>
      && s.approvals[i].revisionId in s.revisions
      && s.approvals[i].artifactId == s.revisions[s.approvals[i].revisionId].artifactId
  }

  ghost predicate StatusesMatchLog(s: Store) {
    forall r :: r in s.revisions ==>
      s.revisions[r].approval == StatusFromLog(s.approvals, r, s.revisions[r].artifactId)
  }

  /** Per artifact the numbers are 1..n, each used once. */
  ghost predicate NumbersContiguous(revisions: Revisions) {
    && (forall r :: r in revisions ==> revisions[r].number >= 1)
    && (forall r, q :: r in revisions && q in revisions && r != q && revisions[r].artifactId == revisions[q].artifactId
          ==> revisions[r].number != revisions[q].number)
    && forall r, k :: r in revisions && 1 <= k < revisions[r].number
          ==> HasNumber(revisions, revisions[r].artifactId, k)
  }

  ghost predicate HasNumber(revisions: Revisions, artifactId: string, k: int) {
    exists q :: q in revisions && revisions[q].artifactId == artifactId && revisions[q].number == k
  }

  ghost predicate SupersedesDescends(revisions: Revisions) {
    forall r :: r in revisions && revisions[r].supersedes.Some? ==>
      var p := revisions[r].supersedes.value;
      p in revisions && revisions[p].artifactId == revisions[r].artifactId && revisions[p].number < revisions[r].number
  }

  ghost predicate StoreInvariant(s: Store) {
    LogTyped(s) && StatusesMatchLog(s) && NumbersContiguous(s.revisions) && SupersedesDescends(s.revisions)
  }

  /** What one more record does to the status the log assigns. */
  lemma StatusAppended(log: seq<ApprovalRecord>, rec: ApprovalRecord, id: string, artifactId: string)
    ensures StatusFromLog(log + [rec], id, artifactId) ==
              if rec.revisionId == id then (if rec.action == Reject then Rejected else Approved)
              else if rec.action == Approve && rec.artifactId == artifactId && StatusFromLog(log, id, artifactId) == Approved
              then Superseded
              else StatusFromLog(log, id, artifactId)
  {
  }

  /** A record appended together with the status change it stands for keeps the invariant. */
  lemma RecordingKeepsInvariant(s: Store, t: Store, rec: ApprovalRecord)
    requires StoreInvariant(s) && SameShape(s.revisions, t.revisions)
    requires t.approvals == s.approvals + [rec]
    requires rec.revisionId in s.revisions && rec.artifactId == s.revisions[rec.revisionId].artifactId
    requires forall r :: r in s.revisions ==> t.revisions[r].approval == AfterRecord(s.revisions[r], r, rec)
    ensures StoreInvariant(t)
  {
    forall r | r in t.revisions
      ensures t.revisions[r].approval == StatusFromLog(t.approvals, r, t.revisions[r].artifactId)
    {
      StatusAppended(s.approvals, rec, r, s.revisions[r].artifactId);
    }
    SameShapeKeepsNumbers(s.revisions, t.revisions);
  }

  function AfterRecord(revision: Revision, id: string, rec: ApprovalRecord): ApprovalStatus {
    if rec.revisionId == id then (if rec.action == Reject then Rejected else Approved)
    else if rec.action == Approve && rec.artifactId == revision.artifactId && revision.approval == Approved then Superseded
    else revision.approval
  }

  /** The row updates of an approval are those its record stands for. */
  lemma ApprovingShape(s: Store, id: string, recordId: string)
    requires Approving(s, id, recordId).Ok?
    ensures var t, rec := Approving(s, id, recordId).value, ApprovalRecord(recordId, id, s.revisions[id].artifactId, Approve);
            && SameShape(s.revisions, t.revisions) && t.approvals == s.approvals + [rec]
            && forall r :: r in s.revisions ==> t.revisions[r].approval == AfterRecord(s.revisions[r], r, rec)
  {
  }

  lemma ApprovingKeepsInvariant(s: Store, id: string, recordId: string)
    requires StoreInvariant(s) && Approving(s, id, recordId).Ok?
    ensures StoreInvariant(Approving(s, id, recordId).value)
  {
    ApprovingShape(s, id, recordId);
    RecordingKeepsInvariant(s, Approving(s, id, recordId).value,
                            ApprovalRecord(recordId, id, s.revisions[id].artifactId, Approve));
  }

  lemma RejectingKeepsInvariant(s: Store, id: string, recordId: string)
    requires StoreInvariant(s) && Rejecting(s, id, recordId).Ok?
    ensures StoreInvariant(Rejecting(s, id, recordId).value)
  {
    RecordingKeepsInvariant(s, Rejecting(s, id, recordId).value,
                            ApprovalRecord(recordId, id, s.revisions[id].artifactId, Reject));
  }

  ghost predicate SameShape(a: Revisions, b: Revisions) {
    a.Keys == b.Keys && forall r :: r in a ==> b[r] == a[r].(approval := b[r].approval)
  }

  lemma HasNumberIn(a: Revisions, b: Revisions, artifactId: string, k: int)
    requires HasNumber(a, artifactId, k)
    requires forall q :: q in a ==> q in b && b[q].artifactId == a[q].artifactId && b[q].number == a[q].number
    ensures HasNumber(b, artifactId, k)
  {
  }

  lemma SameShapeKeepsNumbers(a: Revisions, b: Revisions)
    requires SameShape(a, b) && NumbersContiguous(a) && SupersedesDescends(a)
    ensures NumbersContiguous(b) && SupersedesDescends(b)
  {
    forall r, k | r in b && 1 <= k < b[r].number ensures HasNumber(b, b[r].artifactId, k) {
      HasNumberIn(a, b, a[r].artifactId, k);
    }
  }

  lemma InsertedKeepsInvariant(s: Store, t: Store, id: string, artifactId: string, contentHash: string, source: Option<string>)
    requires StoreInvariant(s) && id !in s.revisions && Inserted(s, t, id, artifactId, contentHash, source)
    requires source.Some? ==> source.value in s.revisions && s.revisions[source.value].artifactId == artifactId
    ensures StoreInvariant(t)
  {
    assert LatestOwn(s.approvals, id) < 0;
    InsertedKeepsNumbers(s, t, id, artifactId, contentHash, source);
  }

  lemma NumbersBelowMax(revisions: Revisions, artifactId: string, k: int)
    requires NumbersContiguous(revisions) && 1 <= k <= MaxNumber(revisions, artifactId, revisions.Keys)
    ensures HasNumber(revisions, artifactId, k)
  {
  }

  lemma InsertedKeepsNumbers(s: Store, t: Store, id: string, artifactId: string, contentHash: string, source: Option<string>)
    requires NumbersContiguous(s.revisions) && SupersedesDescends(s.revisions)
    requires id !in s.revisions && Inserted(s, t, id, artifactId, contentHash, source)
    requires source.Some? ==> source.value in s.revisions && s.revisions[source.value].artifactId == artifactId
    ensures NumbersContiguous(t.revisions) && SupersedesDescends(t.revisions)
  {
    var a, b := s.revisions, t.revisions;
    var n := MaxNumber(a, artifactId, a.Keys);
    assert b == a[id := b[id]] && b[id].number == n + 1;
    forall r, k | r in b && 1 <= k < b[r].number ensures HasNumber(b, b[r].artifactId, k) {
      InsertedHasBelow(a, b[id], id, r, k);
    }
    InsertedDescends(a, b, id, artifactId, n);
  }

  lemma InsertedHasBelow(a: Revisions, row: Revision, id: string, r: string, k: int)
    requires NumbersContiguous(a) && id !in a && row.number == MaxNumber(a, row.artifactId, a.Keys) + 1
    requires r in a[id := row] && 1 <= k < a[id := row][r].number
    ensures HasNumber(a[id := row], a[id := row][r].artifactId, k)
  {
    if r == id {
      NumbersBelowMax(a, row.artifactId, k);
    } else {
      assert HasNumber(a, a[r].artifactId, k);
    }
    HasNumberIn(a, a[id := row], a[id := row][r].artifactId, k);
  }

  lemma InsertedDescends(a: Revisions, b: Revisions, id: string, artifactId: string, n: int)
    requires SupersedesDescends(a) && id !in a && id in b && b == a[id := b[id]]
    requires b[id].artifactId == artifactId && b[id].number == n + 1
    requires forall r :: r in a && a[r].artifactId == artifactId ==> a[r].number <= n
    requires b[id].supersedes.Some? ==>
               b[id].supersedes.value in a && a[b[id].supersedes.value].artifactId == artifactId
    ensures SupersedesDescends(b)
  {
  }

  /** So an artifact never has two approved revisions: the later approval would have superseded the other. */
  lemma OneApprovedPerArtifact(s: Store, p: string, q: string)
    requires StoreInvariant(s)
    requires p in s.revisions && q in s.revisions && s.revisions[p].artifactId == s.revisions[q].artifactId
    requires s.revisions[p].approval == Approved && s.revisions[q].approval == Approved
    ensures p == q
  {
    var artifactId := s.revisions[p].artifactId;
    var i, j := LatestOwn(s.approvals, p), LatestOwn(s.approvals, q);
    assert !ApprovedAfter(s.approvals, i, artifactId) && !ApprovedAfter(s.approvals, j, artifactId);
    assert s.approvals[i].artifactId == artifactId && s.approvals[j].artifactId == artifactId;
    assert i == j;
  }

  // ---------- the two decisions, column by column ----------

  ghost predicate RecordIdUsed(s: Store, recordId: string) {
    exists i :: 0 <= i < |s.approvals| && s.approvals[i].recordId == recordId
  }

  /** Every row keeps all columns but its approval status, which becomes what `status` says. */
  ghost predicate OnlyStatuses(s: Store, t: Store, status: map<string, ApprovalStatus>) {
    && t.revisions.Keys == s.revisions.Keys == status.Keys && t.dependencies == s.dependencies
    && forall q :: q in s.revisions ==>
         t.revisions[q] == Revision(s.revisions[q].artifactId, s.revisions[q].number, s.revisions[q].contentHash, status[q],
                                    s.revisions[q].supersedes)
  }

  /** An approval needs a stored revision and an unused record id.  It approves that revision, supersedes the
      other approved revisions of the artifact and appends one record. */
  lemma ApprovingByTables(s: Store, id: string, recordId: string)
    ensures var r := Approving(s, id, recordId);
            if id !in s.revisions then r == Err(UnknownRevision)
            else if RecordIdUsed(s, recordId) then r == Err(DuplicateId)
            else
              var artifact := s.revisions[id].artifactId;
              && r.Ok? && r.value.approvals == s.approvals + [ApprovalRecord(recordId, id, artifact, Approve)]
              && OnlyStatuses(s, r.value, map q | q in s.revisions ::
                   if q == id then Approved
                   else if s.revisions[q].artifactId == artifact && s.revisions[q].approval == Approved then Superseded
                   else s.revisions[q].approval)
  {
  }

  /** A rejection needs the same and changes the status of that revision only. */
  lemma RejectingByTables(s: Store, id: string, recordId: string)
    ensures var r := Rejecting(s, id, recordId);
            if id !in s.revisions then r == Err(UnknownRevision)
            else if RecordIdUsed(s, recordId) then r == Err(DuplicateId)
            else
              && r.Ok? && r.value.approvals == s.approvals + [ApprovalRecord(recordId, id, s.revisions[id].artifactId, Reject)]
              && OnlyStatuses(s, r.value, map q | q in s.revisions :: if q == id then Rejected else s.revisions[q].approval)
  {
  }
}
