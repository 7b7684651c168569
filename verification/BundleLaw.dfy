/** The bundle operations case by case: which error is reported when, and which rows are stored, with every
    stored name and version written out (ai_drama_runtime/services.py, ai_drama_runtime/store.py). */
module BundleLaw {
  import opened Wrappers
  import opened JsonText
  import opened CanonicalJson
  import opened Bundle
  import BundleExport

  // ---------- reading back ----------

  /** The stored object exists and its bytes hash to its id. */
  predicate Trusted(env: Env, objects: Objects, id: string) {
    id in objects && env.sha(objects[id]) == id
  }

  /** The canonical content is a trusted text that decodes and renders to `text`. */
  ghost predicate RendersTo(env: Env, s: State, id: string, text: string) {
    && id in s.revisions && Trusted(env, s.objects, s.revisions[id].contentObject)
    && exists stored :: s.objects[s.revisions[id].contentObject] == Utf8(stored) && ParseText(stored).Done?
                        && env.render(ParseText(stored).value) == Some(text)
  }

  lemma RenderingByTables(env: Env, s: State, id: string, text: string)
    requires id in s.revisions
    ensures Rendering(env, s.objects, s.revisions[id]) == Some(text) <==> RendersTo(env, s, id, text)
  {
    if RendersTo(env, s, id, text) {
      var stored :| s.objects[s.revisions[id].contentObject] == Utf8(stored) && ParseText(stored).Done?
                    && env.render(ParseText(stored).value) == Some(text);
    }
    if Rendering(env, s.objects, s.revisions[id]) == Some(text) {
      assert s.objects[s.revisions[id].contentObject] == Utf8(s.objects[s.revisions[id].contentObject].text);
    }
  }

  /** Writing stores new bytes under their hash and leaves a file that is there alone. */
  lemma WrittenByTables(env: Env, objects: Objects, c: Content)
    ensures Written(env, objects, c) == if env.sha(c) in objects then objects else objects[env.sha(c) := c]
    ensures Read(env, objects, env.sha(c)) == if Trusted(env, objects, env.sha(c)) then Some(c) else None
  {
  }

  // ---------- the rows ----------

  function RenderedRow(env: Env, text: string): Output {
    Output(env.sha(Utf8(text)), env.sha(Utf8(text)), "text/markdown", "storyboard-canonical-markdown-renderer", "1.0.0")
  }

  function ManifestRow(env: Env, text: string): Output {
    Output(env.sha(Utf8(text)), env.sha(Utf8(text)), "application/json", "bundle-manifest-builder", "1")
  }

  /** The manifest stored for a rendering of a revision. */
  function StoredManifest(env: Env, s: State, id: string, text: string): string
    requires id in s.revisions
  {
    Dumps(Manifest(env, id, s.revisions[id].contentHash, env.sha(Utf8(text))))
  }

  /** The two rows of a complete bundle. */
  function BundleRows(env: Env, s: State, id: string, text: string): map<string, Output>
    requires id in s.revisions
  {
    map["rendered_markdown" := RenderedRow(env, text), "bundle_manifest" := ManifestRow(env, StoredManifest(env, s, id, text))]
  }

  /** Which branch a materialisation takes; what it stores; and that it always answers like the response over
      the state it leaves. */
  lemma MaterializeByTables(env: Env, s: State, id: string)
    ensures var (after, r) := Materialize(env, s, id);
            if id !in s.revisions then after == s && r == Err(NotFound)
            else if !s.revisions[id].canonical then after == s && r == Err(ProfileUnsupported)
            else if s.revisions[id].outputs.Keys == {"rendered_markdown", "bundle_manifest"} then
              after == s && r == Respond(env, s, id, true)
            else if s.revisions[id].outputs != map[] then after == s && r == Err(OutputConflict)
            else
              match Rendering(env, s.objects, s.revisions[id])
              case None => after == s && r == Err(ContentUnreadable)
              case Some(text) =>
                && after.revisions == s.revisions[id := s.revisions[id].(outputs := BundleRows(env, s, id, text))]
                && after.approved == s.approved
                && after.objects == Written(env, Written(env, s.objects, Utf8(text)), Utf8(StoredManifest(env, s, id, text)))
                && r == Respond(env, after, id, false)
  {
    if id in s.revisions {
      assert s.revisions[id].outputs.Keys == {} <==> s.revisions[id].outputs == map[];
    }
  }

  // ---------- the check ----------

  /** An output row whose object is not trusted, or whose two hashes differ. */
  ghost predicate RowDamaged(env: Env, s: State, o: Output) {
    !Trusted(env, s.objects, o.objectId) || o.objectId != o.contentHash
  }

  /** The complete bundle, byte for byte. */
  ghost predicate Complete(env: Env, s: State, id: string, text: string) {
    && id in s.revisions && s.revisions[id].outputs == BundleRows(env, s, id, text)
    && env.sha(Utf8(text)) in s.objects && s.objects[env.sha(Utf8(text))] == Utf8(text)
    && env.sha(Utf8(StoredManifest(env, s, id, text))) in s.objects
    && s.objects[env.sha(Utf8(StoredManifest(env, s, id, text)))] == Utf8(StoredManifest(env, s, id, text))
  }

  /** Which error the check reports, in its order, and when it passes. */
  lemma CheckByTables(env: Env, s: State, id: string)
    ensures var r := Check(env, s, id);
            if id !in s.revisions then r == Err(NotFound)
            else if !s.revisions[id].canonical then r == Err(ProfileUnsupported)
            else if s.revisions[id].outputs == map[] then r == Err(NotMaterialized)
            else if s.revisions[id].outputs.Keys != {"rendered_markdown", "bundle_manifest"} then r == Err(CombinationInvalid)
            else if RowDamaged(env, s, s.revisions[id].outputs["rendered_markdown"])
                    || RowDamaged(env, s, s.revisions[id].outputs["bundle_manifest"]) then r == Err(OutputHashMismatch)
            else
              match Rendering(env, s.objects, s.revisions[id])
              case None => r == Err(ContentUnreadable)
              case Some(text) =>
                if Complete(env, s, id, text)
                then r == Ok(env.sha(Utf8(Dumps(BusinessPreimage(s.revisions[id].contentHash, env.sha(Utf8(text)))))))
                else r == Err(IntegrityFailed)
  {
    if id in s.revisions {
      assert s.revisions[id].outputs.Keys == {} <==> s.revisions[id].outputs == map[];
      CheckPassesIff(env, s, id);
    }
  }

  // ---------- approval and the other rows ----------

  /** Approval is blocked by the other guards first; the check's outcome is passed on under three codes. */
  lemma ApproveByTables(env: Env, s: State, id: string, guardsPass: bool)
    ensures var r := Approve(env, s, id, guardsPass);
            if id !in s.revisions then r == Err(NotFound)
            else if !guardsPass then r == Err(ApprovalBlocked)
            else if !s.revisions[id].canonical || Check(env, s, id).Ok? then r == Ok(s.(approved := s.approved + {id}))
            else if Check(env, s, id) == Err(NotMaterialized) || Check(env, s, id) == Err(ContentUnreadable)
            then r == Err(Check(env, s, id).error)
            else r == Err(IntegrityFailed)
  {
  }

  /** The logical types of the phase-3 rows. */
  function Phase3Types(): set<string> {
    {"shot_prompt_positive_prompts", "shot_prompt_negative_prompts", "shot_prompt_asset_requirements",
     "shot_prompt_render_provenance", "shot_prompt_review_markdown", "shot_prompt_validation_report", "bundle_manifest"}
  }

  /** One row of each type, all of the revision. */
  ghost predicate OneRowEach(id: string, rows: seq<Row>) {
    && (forall i, j :: 0 <= i < |rows| && 0 <= j < |rows| && rows[i].logicalType == rows[j].logicalType ==> i == j)
    && (forall i :: 0 <= i < |rows| ==> rows[i].revisionId == id && rows[i].logicalType in Phase3Types())
    && forall t :: t in Phase3Types() ==> exists i :: 0 <= i < |rows| && rows[i].logicalType == t
  }

  lemma Phase3Listed()
    ensures forall t :: t in PHASE3 <==> t in Phase3Types()
  {
    forall t | t in Phase3Types() ensures t in PHASE3 {
      assert PHASE3[0] in PHASE3 && PHASE3[1] in PHASE3 && PHASE3[2] in PHASE3 && PHASE3[3] in PHASE3;
      assert PHASE3[4] in PHASE3 && PHASE3[5] in PHASE3 && PHASE3[6] in PHASE3;
    }
  }

  lemma RowsCompleteByTables(id: string, rows: seq<Row>)
    ensures RowsComplete(id, rows) <==> OneRowEach(id, rows)
  {
    Phase3Listed();
    if RowsComplete(id, rows) {
      forall t | t in Phase3Types() ensures exists i :: 0 <= i < |rows| && rows[i].logicalType == t {
        var k :| 0 <= k < |PHASE3| && PHASE3[k] == t;
        assert HasRow(rows, PHASE3[k]);
      }
    }
    if OneRowEach(id, rows) {
      forall k | 0 <= k < |PHASE3| ensures HasRow(rows, PHASE3[k]) {
        assert PHASE3[k] in PHASE3;
      }
    }
  }

  lemma {:induction false} OutputForRow(rows: seq<Row>, i: nat)
    requires i < |rows| && forall j :: 0 <= j < i ==> rows[j].logicalType != rows[i].logicalType
    ensures HasRow(rows, rows[i].logicalType) && OutputFor(rows, rows[i].logicalType) == rows[i].output
  {
    if i > 0 {
      assert rows[1..][i - 1] == rows[i];
      OutputForRow(rows[1..], i - 1);
    }
  }

  lemma {:induction false} StoredOutputs(rev: Revision, rows: seq<Row>, types: seq<string>, t: string)
    requires AllHaveRows(rows, types)
    ensures WithRows(rev, rows, types) == rev.(outputs := WithRows(rev, rows, types).outputs)
    ensures t in WithRows(rev, rows, types).outputs <==> t in rev.outputs || t in types
    ensures t in types && HasRow(rows, t) ==> WithRows(rev, rows, types).outputs[t] == OutputFor(rows, t)
    ensures t in rev.outputs && t !in types ==> WithRows(rev, rows, types).outputs[t] == rev.outputs[t]
    decreases |types|
  {
    if types != [] {
      StoredOutputs(rev, rows, types[..|types| - 1], t);
      assert types == types[..|types| - 1] + [types[|types| - 1]];
    }
  }

  /** The revision with every row stored under its type; the other outputs and columns are as they were. */
  ghost predicate Phase3Stored(rev: Revision, after: Revision, rows: seq<Row>) {
    && after.contentObject == rev.contentObject && after.contentHash == rev.contentHash && after.canonical == rev.canonical
    && (forall t :: t in after.outputs <==> t in rev.outputs || t in Phase3Types())
    && (forall t :: t in rev.outputs && t !in Phase3Types() ==> after.outputs[t] == rev.outputs[t])
    && forall i :: 0 <= i < |rows| ==> rows[i].logicalType in after.outputs && after.outputs[rows[i].logicalType] == rows[i].output
  }

  lemma Phase3Stores(rev: Revision, id: string, rows: seq<Row>)
    requires RowsComplete(id, rows)
    ensures Phase3Stored(rev, WithRows(rev, rows, PHASE3), rows)
  {
    var after := WithRows(rev, rows, PHASE3);
    Phase3Listed();
    StoredOutputs(rev, rows, PHASE3, "");
    forall t ensures t in after.outputs <==> t in rev.outputs || t in Phase3Types() {
      StoredOutputs(rev, rows, PHASE3, t);
    }
    forall t | t in rev.outputs && t !in Phase3Types() ensures after.outputs[t] == rev.outputs[t] {
      StoredOutputs(rev, rows, PHASE3, t);
    }
    forall i | 0 <= i < |rows|
      ensures rows[i].logicalType in after.outputs && after.outputs[rows[i].logicalType] == rows[i].output
    {
      OutputForRow(rows, i);
      StoredOutputs(rev, rows, PHASE3, rows[i].logicalType);
    }
  }

  /** An incomplete set of rows or a type that is already stored is refused; otherwise every row is stored. */
  lemma Phase3ByTables(s: State, id: string, rows: seq<Row>)
    ensures var r := InsertPhase3(s, id, rows);
            if id !in s.revisions then r == Err(NotFound)
            else if !OneRowEach(id, rows) then r == Err(RowsInvalid)
            else if exists t :: t in Phase3Types() && t in s.revisions[id].outputs then r == Err(IntegrityError)
            else
              && r.Ok? && id in r.value.revisions && r.value == s.(revisions := s.revisions[id := r.value.revisions[id]])
              && Phase3Stored(s.revisions[id], r.value.revisions[id], rows)
  {
    if id in s.revisions {
      RowsCompleteByTables(id, rows);
      CollidesByTables(s.revisions[id]);
      if RowsComplete(id, rows) { Phase3Stores(s.revisions[id], id, rows); }
    }
  }

  lemma CollidesByTables(rev: Revision)
    ensures Collides(rev, PHASE3) <==> exists t :: t in Phase3Types() && t in rev.outputs
  {
    Phase3Listed();
    if Collides(rev, PHASE3) {
      var k :| 0 <= k < |PHASE3| && PHASE3[k] in rev.outputs;
      assert PHASE3[k] in PHASE3;
    }
    if t :| t in Phase3Types() && t in rev.outputs {
      var k :| 0 <= k < |PHASE3| && PHASE3[k] == t;
    }
  }

  // ---------- the export ----------

  /** A revision names the object as its content or in one of its output rows. */
  ghost predicate Named(s: State, o: string) {
    exists id :: id in s.revisions && (s.revisions[id].contentObject == o || HasOutput(s.revisions[id], o))
  }

  ghost predicate HasOutput(rev: Revision, o: string) {
    exists t :: t in rev.outputs && rev.outputs[t].objectId == o
  }

  /** A new revision starts without outputs; a written object is stored under its hash; a collection removes
      exactly the listed objects that no revision names. */
  lemma WritersByTables(env: Env, s: State, id: string, contentObject: string, contentHash: string, canonical: bool,
                        content: Content, garbage: set<string>)
    ensures Step(env, s, AddRevision(id, contentObject, contentHash, canonical)) ==
              if id in s.revisions then s
              else State(s.revisions[id := Revision(contentObject, contentHash, canonical, map[])], s.objects, s.approved)
    ensures var after := Step(env, s, WriteObject(content));
            && after == s.(objects := after.objects) && env.sha(content) in after.objects
            && (env.sha(content) !in s.objects ==> after.objects == s.objects[env.sha(content) := content])
            && (env.sha(content) in s.objects ==> after.objects == s.objects)
    ensures var after := Step(env, s, CollectObjects(garbage));
            && after == s.(objects := after.objects)
            && (forall o :: o in after.objects <==> o in s.objects && (o !in garbage || Named(s, o)))
            && (forall o :: o in after.objects ==> after.objects[o] == s.objects[o])
  {
    forall o ensures Named(s, o) <==> Referenced(s, o) {
      NamedIff(s, o);
    }
  }

  lemma NamedIff(s: State, o: string)
    ensures Named(s, o) <==> Referenced(s, o)
  {
    forall id | id in s.revisions
      ensures o in ObjectsOf(s.revisions[id]) <==> s.revisions[id].contentObject == o || HasOutput(s.revisions[id], o)
    {
    }
  }

  /** The columns of an export record, the digest of the printed provenance among them, and the name of the
      staging directory. */
  lemma ExportByTables(env: Env, q: BundleExport.Request, rev: Revision)
    ensures BundleExport.RecordOf(env, q, rev) ==
              BundleExport.ExportRecord(q.id, rev.contentHash, q.destination,
                                        env.sha(Utf8(PrintValue(false, Canon(BundleExport.Provenance(q, rev))))),
                                        q.kind, q.freshness, q.diagnosticOnly, q.bundleHash)
    ensures BundleExport.Staging(q) == BundleExport.Path(q.destination.parent, "." + q.destination.name + "." + q.token + ".staging")
  {
  }
}
