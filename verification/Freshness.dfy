/** The recursive freshness check over the dependency graph, which may contain cycles
    (ai_drama_runtime/validators.py), proved to decide soundness of everything reachable,
    and what an approval does to it. */
module Freshness {
  import opened Lineage

  datatype FreshnessStatus = Fresh | SourceStale | DependencyMissing | DependencyCycle

  function DependenciesOf(s: Store, id: string): seq<Dependency> {
    if id in s.dependencies then s.dependencies[id] else []
  }

  /** The revision that current_approved returns for its artifact. */
  predicate IsCurrentApproved(s: Store, id: string) {
    && id in s.revisions && s.revisions[id].approval == Approved
    && forall r :: r in s.revisions ==>
         s.revisions[r].artifactId == s.revisions[id].artifactId && s.revisions[r].approval == Approved
         ==> s.revisions[r].number <= s.revisions[id].number
  }

  // ---------- the check ----------

  /** What one dependency row says before the recursion looks further. */
  function EdgeStatus(s: Store, d: Dependency): FreshnessStatus {
    if d.parent !in s.revisions then DependencyMissing
    else if s.revisions[d.parent].contentHash != d.parentHash then SourceStale
    else if !IsCurrentApproved(s, d.parent) then SourceStale
    else if d.recordId != "" && !HasRecord(s.approvals, d.recordId) then DependencyMissing
    else Fresh
  }

  /** The measure: revisions that are not on the path yet. */
  function Check(s: Store, id: string, seen: set<string>): FreshnessStatus
    decreases s.revisions.Keys - seen, 0
  {
    if id in seen then DependencyCycle
    else if id !in s.revisions then DependencyMissing
    else
      assert id in s.revisions.Keys - seen && id !in s.revisions.Keys - (seen + {id});
      CheckAll(s, DependenciesOf(s, id), seen + {id})
  }

  function CheckAll(s: Store, ds: seq<Dependency>, seen: set<string>): FreshnessStatus
    decreases s.revisions.Keys - seen, |ds|
  {
    if ds == [] then Fresh
    else if EdgeStatus(s, ds[0]) != Fresh then EdgeStatus(s, ds[0])
    else
      var parent := Check(s, ds[0].parent, seen);
      if parent != Fresh then parent else CheckAll(s, ds[1..], seen)
  }

  function RevisionFreshness(s: Store, id: string): FreshnessStatus {
    Check(s, id, {})
  }

  /** The same recursion with its loop over the dependency rows. */
  method FreshnessStatusOf(s: Store, id: string, seen: set<string>) returns (status: FreshnessStatus)
    ensures status == Check(s, id, seen)
    decreases s.revisions.Keys - seen
  {
    if id in seen {
      return DependencyCycle;
    }
    if id !in s.revisions {
      return DependencyMissing;
    }
    var path := seen + {id};
    assert id in s.revisions.Keys - seen && id !in s.revisions.Keys - path;
    var ds := DependenciesOf(s, id);
    for i := 0 to |ds|
      invariant CheckAll(s, ds, path) == CheckAll(s, ds[i..], path)
    {
      var d := ds[i];
      assert ds[i..][0] == d && ds[i..][1..] == ds[i + 1..];
      if EdgeStatus(s, d) != Fresh {
        return EdgeStatus(s, d);
      }
      var parent := FreshnessStatusOf(s, d.parent, path);
      if parent != Fresh {
        return parent;
      }
    }
    return Fresh;
  }

  // ---------- what it should decide ----------

  /** A row of revision_dependencies with the given child. */
  ghost predicate RowOf(s: Store, child: string, d: Dependency) {
    child in s.dependencies && exists i :: 0 <= i < |s.dependencies[child]| && s.dependencies[child][i] == d
  }

  ghost predicate Edge(s: Store, child: string, parent: string) {
    exists d :: RowOf(s, child, d) && d.parent == parent
  }

  /** The stored parent has the hash the row was written for, is approved, and no approved revision of its
      artifact has a larger number. */
  ghost predicate ParentHolds(s: Store, d: Dependency) {
    && d.parent in s.revisions
    && s.revisions[d.parent].contentHash == d.parentHash && s.revisions[d.parent].approval == Approved
    && forall r :: r in s.revisions ==>
         s.revisions[r].artifactId == s.revisions[d.parent].artifactId && s.revisions[r].number > s.revisions[d.parent].number
         ==> s.revisions[r].approval != Approved
  }

  ghost predicate RecordStored(s: Store, recordId: string) {
    exists i :: 0 <= i < |s.approvals| && s.approvals[i].recordId == recordId
  }

  /** The parent holds, and so does the approval the row names, if it names one. */
  ghost predicate RowSound(s: Store, d: Dependency) {
    ParentHolds(s, d) && (d.recordId == "" || RecordStored(s, d.recordId))
  }

  /** The parent is not stored, or it holds and the approval the row names is not stored. */
  ghost predicate RowMissing(s: Store, d: Dependency) {
    d.parent !in s.revisions || (ParentHolds(s, d) && d.recordId != "" && !RecordStored(s, d.recordId))
  }

  /** The parent is stored and does not hold. */
  ghost predicate RowStale(s: Store, d: Dependency) {
    d.parent in s.revisions && !ParentHolds(s, d)
  }

  /** What the check says of one row, from the tables. */
  lemma EdgeStatusByTables(s: Store, d: Dependency)
    ensures EdgeStatus(s, d) == Fresh <==> RowSound(s, d)
    ensures EdgeStatus(s, d) == DependencyMissing <==> RowMissing(s, d)
    ensures EdgeStatus(s, d) == SourceStale <==> RowStale(s, d)
  {
  }

  lemma RowsOf(s: Store, child: string, d: Dependency)
    ensures RowOf(s, child, d) <==> d in DependenciesOf(s, child)
  {
  }

  lemma EdgeRow(s: Store, child: string, parent: string)
    ensures Edge(s, child, parent) <==> exists d :: d in DependenciesOf(s, child) && d.parent == parent
  {
    forall d ensures RowOf(s, child, d) <==> d in DependenciesOf(s, child) {
      RowsOf(s, child, d);
    }
  }

  ghost predicate Path(s: Store, p: seq<string>) {
    p != [] && forall i :: 0 <= i < |p| - 1 ==> Edge(s, p[i], p[i + 1])
  }

  ghost predicate PathFrom(s: Store, p: seq<string>, id: string) {
    Path(s, p) && p[0] == id
  }

  ghost predicate NodeSound(s: Store, id: string) {
    id in s.revisions && forall d :: RowOf(s, id, d) ==> RowSound(s, d)
  }

  lemma NodeSoundIff(s: Store, id: string)
    ensures NodeSound(s, id) <==> id in s.revisions && forall d :: d in DependenciesOf(s, id) ==> EdgeStatus(s, d) == Fresh
  {
    forall d ensures RowOf(s, id, d) ==> RowSound(s, d) <==> d in DependenciesOf(s, id) ==> EdgeStatus(s, d) == Fresh {
      RowsOf(s, id, d);
      EdgeStatusByTables(s, d);
    }
  }

  predicate Simple(p: seq<string>) {
    forall i, j :: 0 <= i < j < |p| ==> p[i] != p[j]
  }

  /** Everything reachable exists and has sound dependency rows, and no path meets a revision
      twice, so no cycle is reachable.  No path touches `seen`. */
  ghost predicate SoundAvoiding(s: Store, id: string, seen: set<string>) {
    forall p :: PathFrom(s, p, id) ==>
      NodeSound(s, p[|p| - 1]) && Simple(p) && forall i :: 0 <= i < |p| ==> p[i] !in seen
  }

  lemma {:induction false} CheckAllFresh(s: Store, ds: seq<Dependency>, seen: set<string>)
    ensures CheckAll(s, ds, seen) == Fresh
      <==> forall d :: d in ds ==> EdgeStatus(s, d) == Fresh && Check(s, d.parent, seen) == Fresh
    decreases |ds|
  {
    if ds != [] {
      CheckAllFresh(s, ds[1..], seen);
      assert forall d :: d in ds <==> d == ds[0] || d in ds[1..];
    }
  }

  lemma PathTail(s: Store, p: seq<string>)
    requires Path(s, p) && |p| > 1
    ensures PathFrom(s, p[1..], p[1]) && Edge(s, p[0], p[1])
  {
  }

  lemma PathExtend(s: Store, id: string, p: seq<string>)
    requires Path(s, p) && Edge(s, id, p[0])
    ensures PathFrom(s, [id] + p, id)
  {
  }

  lemma {:induction false} FreshPathsAreSound(s: Store, id: string, seen: set<string>, p: seq<string>)
    requires Check(s, id, seen) == Fresh && PathFrom(s, p, id)
    ensures NodeSound(s, p[|p| - 1]) && Simple(p)
    ensures forall i :: 0 <= i < |p| ==> p[i] !in seen
    decreases |p|
  {
    CheckAllFresh(s, DependenciesOf(s, id), seen + {id});
    NodeSoundIff(s, id);
    if |p| > 1 {
      PathTail(s, p);
      EdgeRow(s, id, p[1]);
      var d :| d in DependenciesOf(s, id) && d.parent == p[1];
      FreshPathsAreSound(s, p[1], seen + {id}, p[1..]);
      assert p == [id] + p[1..];
      forall i | 1 <= i < |p| ensures p[i] !in seen + {id} {
        assert p[i] == p[1..][i - 1];
      }
      forall i, j | 0 <= i < j < |p| ensures p[i] != p[j] {
        if i > 0 { assert p[i] == p[1..][i - 1] && p[j] == p[1..][j - 1]; }
      }
    }
  }

  lemma SoundTail(s: Store, id: string, seen: set<string>, parent: string, p: seq<string>)
    requires SoundAvoiding(s, id, seen) && Edge(s, id, parent) && PathFrom(s, p, parent)
    ensures NodeSound(s, p[|p| - 1]) && Simple(p)
    ensures forall i :: 0 <= i < |p| ==> p[i] !in seen + {id}
  {
    var q := [id] + p;
    PathExtend(s, id, p);
    assert q[|q| - 1] == p[|p| - 1] && Simple(q);
    forall i | 0 <= i < |p| ensures p[i] !in seen + {id} {
      assert q[i + 1] == p[i] && q[0] == id;
    }
    forall i, j | 0 <= i < j < |p| ensures p[i] != p[j] {
      assert q[i + 1] != q[j + 1];
    }
  }

  lemma SoundParent(s: Store, id: string, seen: set<string>, d: Dependency)
    requires SoundAvoiding(s, id, seen) && d in DependenciesOf(s, id)
    ensures SoundAvoiding(s, d.parent, seen + {id})
  {
    EdgeRow(s, id, d.parent);
    forall p | PathFrom(s, p, d.parent)
      ensures NodeSound(s, p[|p| - 1]) && Simple(p) && forall i :: 0 <= i < |p| ==> p[i] !in seen + {id}
    {
      SoundTail(s, id, seen, d.parent, p);
    }
  }

  lemma {:induction false} SoundIsFresh(s: Store, id: string, seen: set<string>)
    requires SoundAvoiding(s, id, seen)
    ensures Check(s, id, seen) == Fresh
    decreases s.revisions.Keys - seen
  {
    assert PathFrom(s, [id], id);
    assert [id][|[id]| - 1] == id;
    assert id !in seen && NodeSound(s, id);
    NodeSoundIff(s, id);
    assert id in s.revisions.Keys - seen && id !in s.revisions.Keys - (seen + {id});
    forall d | d in DependenciesOf(s, id) ensures Check(s, d.parent, seen + {id}) == Fresh {
      SoundParent(s, id, seen, d);
      SoundIsFresh(s, d.parent, seen + {id});
    }
    CheckAllFresh(s, DependenciesOf(s, id), seen + {id});
  }

  /** The check decides soundness of the whole reachable graph, cyclic or not. */
  lemma FreshnessDecidesSoundness(s: Store, id: string)
    ensures RevisionFreshness(s, id) == Fresh <==> SoundAvoiding(s, id, {})
  {
    if RevisionFreshness(s, id) == Fresh {
      forall p | PathFrom(s, p, id)
        ensures NodeSound(s, p[|p| - 1]) && Simple(p)
      {
        FreshPathsAreSound(s, id, {}, p);
      }
    }
    if SoundAvoiding(s, id, {}) {
      SoundIsFresh(s, id, {});
    }
  }

  /** What a status other than Fresh points at: a path whose end shows the fault. */
  ghost predicate Shows(s: Store, p: seq<string>, seen: set<string>, status: FreshnessStatus)
    requires p != []
  {
    var last := p[|p| - 1];
    match status
    case Fresh => false
    case DependencyCycle => last in seen || !Simple(p)
    case DependencyMissing => last !in s.revisions || exists d :: RowOf(s, last, d) && RowMissing(s, d)
    case SourceStale => exists d :: RowOf(s, last, d) && RowStale(s, d)
  }

  lemma {:induction false} FaultyEdge(s: Store, ds: seq<Dependency>, seen: set<string>) returns (d: Dependency)
    requires CheckAll(s, ds, seen) != Fresh
    ensures d in ds
    ensures EdgeStatus(s, d) == CheckAll(s, ds, seen)
         || (EdgeStatus(s, d) == Fresh && Check(s, d.parent, seen) == CheckAll(s, ds, seen))
    decreases |ds|
  {
    if EdgeStatus(s, ds[0]) != Fresh || Check(s, ds[0].parent, seen) != Fresh {
      d := ds[0];
    } else {
      d := FaultyEdge(s, ds[1..], seen);
    }
  }

  /** Each failing status is justified by a reachable fault of its own kind. */
  lemma {:induction false} FaultIsReachable(s: Store, id: string, seen: set<string>) returns (p: seq<string>)
    requires Check(s, id, seen) != Fresh
    ensures PathFrom(s, p, id) && Shows(s, p, seen, Check(s, id, seen))
    decreases s.revisions.Keys - seen
  {
    p := [id];
    if id !in seen && id in s.revisions {
      var path := seen + {id};
      assert id in s.revisions.Keys - seen && id !in s.revisions.Keys - path;
      var d := FaultyEdge(s, DependenciesOf(s, id), path);
      RowsOf(s, id, d);
      EdgeStatusByTables(s, d);
      EdgeRow(s, id, d.parent);
      if EdgeStatus(s, d) == Fresh {
        var q := FaultIsReachable(s, d.parent, path);
        PathExtend(s, id, q);
        p := [id] + q;
        assert p[|p| - 1] == q[|q| - 1];
        if Simple(p) {
          forall i, j | 0 <= i < j < |q| ensures q[i] != q[j] { assert p[i + 1] != p[j + 1]; }
          assert p[0] != p[|p| - 1];
        }
      }
    }
  }

  /** Everything the check looks at in row d is in order, the parent's own check included. */
  ghost predicate RowPasses(s: Store, d: Dependency, path: set<string>) {
    RowSound(s, d) && Check(s, d.parent, path) == Fresh
  }

  lemma {:induction false} RowsPassed(s: Store, ds: seq<Dependency>, i: nat, seen: set<string>)
    requires i <= |ds| && forall j :: 0 <= j < i ==> RowPasses(s, ds[j], seen)
    ensures CheckAll(s, ds, seen) == CheckAll(s, ds[i..], seen)
    decreases |ds|
  {
    if i > 0 {
      assert RowPasses(s, ds[0], seen);
      EdgeStatusByTables(s, ds[0]);
      RowsPassed(s, ds[1..], i - 1, seen);
      assert ds[1..][i - 1..] == ds[i..];
    }
  }

  /** The first dependency row that is not in order decides which status is reported: its own fault, or else
      the status of its parent. */
  lemma FirstBadRowDecides(s: Store, id: string, seen: set<string>, i: nat)
    requires id !in seen && id in s.revisions && id in s.dependencies && i < |s.dependencies[id]|
    requires forall j :: 0 <= j < i ==> RowPasses(s, s.dependencies[id][j], seen + {id})
    requires !RowPasses(s, s.dependencies[id][i], seen + {id})
    ensures var d := s.dependencies[id][i];
            Check(s, id, seen) == if RowMissing(s, d) then DependencyMissing
                                  else if RowStale(s, d) then SourceStale
                                  else Check(s, d.parent, seen + {id})
  {
    var ds := s.dependencies[id];
    RowsPassed(s, ds, i, seen + {id});
    assert ds[i..][0] == ds[i];
    EdgeStatusByTables(s, ds[i]);
  }

  // ---------- approvals ----------

  /** Approving another revision of a parent's artifact: whatever depends on that parent, at any
      distance, is no longer fresh. */
  lemma ApprovalStalesDependents(s: Store, id: string, recordId: string, parent: string, p: seq<string>)
    requires Approving(s, id, recordId).Ok?
    requires parent in s.revisions && parent != id && s.revisions[parent].artifactId == s.revisions[id].artifactId
    requires Path(s, p) && |p| > 1 && p[|p| - 1] == parent
    ensures RevisionFreshness(Approving(s, id, recordId).value, p[0]) != Fresh
  {
    NotCurrentStalesDependents(s, Approving(s, id, recordId).value, parent, p);
  }

  /** Rejecting a parent does the same. */
  lemma RejectionStalesDependents(s: Store, id: string, recordId: string, p: seq<string>)
    requires Rejecting(s, id, recordId).Ok?
    requires Path(s, p) && |p| > 1 && p[|p| - 1] == id
    ensures RevisionFreshness(Rejecting(s, id, recordId).value, p[0]) != Fresh
  {
    NotCurrentStalesDependents(s, Rejecting(s, id, recordId).value, id, p);
  }

  lemma NotCurrentStalesDependents(s: Store, t: Store, parent: string, p: seq<string>)
    requires t.dependencies == s.dependencies && !IsCurrentApproved(t, parent)
    requires Path(s, p) && |p| > 1 && p[|p| - 1] == parent
    ensures RevisionFreshness(t, p[0]) != Fresh
  {
    var front := p[..|p| - 1];
    forall i | 0 <= i < |front| - 1 ensures Edge(t, front[i], front[i + 1]) {
      assert Edge(s, p[i], p[i + 1]);
    }
    assert PathFrom(t, front, p[0]);
    var child := front[|front| - 1];
    assert child == p[|p| - 2] && Edge(s, p[|p| - 2], p[|p| - 1]);
    var d :| RowOf(s, child, d) && d.parent == parent;
    assert RowOf(t, child, d) && !RowSound(t, d);
    if RevisionFreshness(t, p[0]) == Fresh {
      FreshPathsAreSound(t, p[0], {}, front);
    }
  }

  /** The row leads into another artifact and names another record. */
  predicate Elsewhere(s: Store, d: Dependency, artifactId: string, recordId: string) {
    d.recordId != recordId && (d.parent in s.revisions ==> s.revisions[d.parent].artifactId != artifactId)
  }

  /** No path from the revision has an edge into the artifact or one that names the record. */
  ghost predicate Untouched(s: Store, id: string, artifactId: string, recordId: string) {
    forall p, d :: PathFrom(s, p, id) && RowOf(s, p[|p| - 1], d) ==> Elsewhere(s, d, artifactId, recordId)
  }

  lemma UntouchedTail(s: Store, id: string, artifactId: string, recordId: string, p: seq<string>, e: Dependency)
    requires Untouched(s, id, artifactId, recordId) && p != [] && PathFrom(s, p, p[0]) && Edge(s, id, p[0])
    requires RowOf(s, p[|p| - 1], e)
    ensures Elsewhere(s, e, artifactId, recordId)
  {
    var q := [id] + p;
    PathExtend(s, id, p);
    assert PathFrom(s, q, id) && q[|q| - 1] == p[|p| - 1];
  }

  lemma UntouchedParent(s: Store, id: string, artifactId: string, recordId: string, d: Dependency)
    requires Untouched(s, id, artifactId, recordId) && RowOf(s, id, d)
    ensures Untouched(s, d.parent, artifactId, recordId)
  {
    assert Edge(s, id, d.parent);
    forall p, e | PathFrom(s, p, d.parent) && RowOf(s, p[|p| - 1], e) ensures Elsewhere(s, e, artifactId, recordId) {
      UntouchedTail(s, id, artifactId, recordId, p, e);
    }
  }

  lemma ApprovalKeepsEdge(s: Store, id: string, recordId: string, d: Dependency)
    requires Approving(s, id, recordId).Ok? && d.recordId != recordId
    requires d.parent in s.revisions ==> s.revisions[d.parent].artifactId != s.revisions[id].artifactId
    ensures EdgeStatus(Approving(s, id, recordId).value, d) == EdgeStatus(s, d)
  {
    var t := Approving(s, id, recordId).value;
    if d.parent in s.revisions {
      forall r | r in s.revisions && s.revisions[r].artifactId == s.revisions[d.parent].artifactId
        ensures t.revisions[r] == s.revisions[r]
      {
      }
    }
    assert t.approvals[..|s.approvals|] == s.approvals;
    if HasRecord(s.approvals, d.recordId) {
      var i :| 0 <= i < |s.approvals| && s.approvals[i].recordId == d.recordId;
      assert t.approvals[i].recordId == d.recordId;
    }
  }

  /** The exact status of a revision with no path into the approved artifact does not change. */
  lemma {:induction false} ApprovalKeepsUnrelated(s: Store, id: string, recordId: string, other: string, seen: set<string>)
    requires Approving(s, id, recordId).Ok?
    requires Untouched(s, other, s.revisions[id].artifactId, recordId)
    ensures Check(Approving(s, id, recordId).value, other, seen) == Check(s, other, seen)
    decreases s.revisions.Keys - seen, 1, 0
  {
    var t := Approving(s, id, recordId).value;
    assert t.revisions.Keys == s.revisions.Keys;
    if other !in seen && other in s.revisions {
      assert other in s.revisions.Keys - seen && other !in s.revisions.Keys - (seen + {other});
      assert PathFrom(s, [other], other);
      assert [other][|[other]| - 1] == other;
      ApprovalKeepsUnrelatedRows(s, id, recordId, other, DependenciesOf(s, other), seen + {other});
    }
  }

  lemma {:induction false} ApprovalKeepsUnrelatedRows(s: Store, id: string, recordId: string, other: string,
                                                      ds: seq<Dependency>, seen: set<string>)
    requires Approving(s, id, recordId).Ok?
    requires Untouched(s, other, s.revisions[id].artifactId, recordId)
    requires PathFrom(s, [other], other) && [other][|[other]| - 1] == other
    requires forall d :: d in ds ==> d in DependenciesOf(s, other)
    ensures CheckAll(Approving(s, id, recordId).value, ds, seen) == CheckAll(s, ds, seen)
    decreases s.revisions.Keys - seen, 2, |ds|
  {
    if ds != [] {
      assert ds[0] in DependenciesOf(s, other);
      RowsOf(s, other, ds[0]);
      assert Elsewhere(s, ds[0], s.revisions[id].artifactId, recordId);
      ApprovalKeepsEdge(s, id, recordId, ds[0]);
      UntouchedParent(s, other, s.revisions[id].artifactId, recordId, ds[0]);
      ApprovalKeepsUnrelated(s, id, recordId, ds[0].parent, seen);
      ApprovalKeepsUnrelatedRows(s, id, recordId, other, ds[1..], seen);
    }
  }
}
