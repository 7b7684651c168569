/** The store object behind the bundle operations (ai_drama_runtime/services.py,
    ai_drama_runtime/store.py). */
module BundleStore {
  import opened Wrappers
  import opened JsonText
  import opened Bundle

  class RuntimeService {
    const env: Env
    var revisions: map<string, Revision>
    var objects: Objects
    var approved: set<string>

    constructor (env: Env)
      ensures Contents() == State(map[], map[], {}) && this.env == env
    {
      this.env := env;
      revisions, objects, approved := map[], map[], {};
    }

    function Contents(): State
      reads this
    {
      State(revisions, objects, approved)
    }

    method CheckStoryboardBundleIntegrity(id: string) returns (r: Result<string, BundleError>)
      ensures r == Check(env, Contents(), id)
    {
      if id !in revisions {
        return Err(NotFound);
      }
      var rev := revisions[id];
      if !rev.canonical {
        return Err(ProfileUnsupported);
      }
      if rev.outputs.Keys == {} {
        return Err(NotMaterialized);
      }
      if rev.outputs.Keys != {RENDERED, MANIFEST} {
        return Err(CombinationInvalid);
      }
      var todo := rev.outputs.Keys;
      while todo != {}
        invariant todo <= rev.outputs.Keys
        invariant forall t :: t in rev.outputs && t !in todo ==> Intact(env, objects, rev.outputs[t])
        decreases todo
      {
        var t :| t in todo;
        var output := rev.outputs[t];
        var bytes := Read(env, objects, output.objectId);
        if bytes.None? || output.objectId != output.contentHash {
          return Err(OutputHashMismatch);
        }
        todo := todo - {t};
      }
      var text := Rendering(env, objects, rev);
      if text.None? {
        return Err(ContentUnreadable);
      }
      var rendered, manifest := rev.outputs[RENDERED], rev.outputs[MANIFEST];
      var expected := RenderedOutput(env, text.value);
      if rendered.mediaType != expected.mediaType || rendered.generator != expected.generator
         || rendered.version != expected.version || objects[rendered.objectId] != Utf8(text.value) {
        return Err(IntegrityFailed);
      }
      if manifest.mediaType != "application/json" || manifest.generator != BUILDER || manifest.version != "1" {
        return Err(IntegrityFailed);
      }
      if !CheckManifest(env, objects[manifest.objectId], Manifest(env, id, rev.contentHash, rendered.contentHash)) {
        return Err(IntegrityFailed);
      }
      return Ok(BundleHash(env, rev.contentHash, rendered.contentHash));
    }

    method WriteBytesObject(c: Content) returns (objectId: string)
      modifies this`objects
      ensures objects == Written(env, old(objects), c) && objectId == env.sha(c)
    {
      objectId := env.sha(c);
      if objectId !in objects {
        objects := objects[objectId := c];
      }
    }

    method MaterializeStoryboardBundle(id: string) returns (r: Result<Materialized, BundleError>)
      modifies this`objects, this`revisions
      ensures (Contents(), r) == Materialize(env, old(Contents()), id)
    {
      if id !in revisions {
        return Err(NotFound);
      }
      var rev := revisions[id];
      if !rev.canonical {
        return Err(ProfileUnsupported);
      }
      if rev.outputs.Keys == {RENDERED, MANIFEST} {
        r := MaterializedBundleResponse(id, true);
        return;
      }
      if rev.outputs.Keys != {} {
        return Err(OutputConflict);
      }
      var text := Rendering(env, objects, rev);
      if text.None? {
        return Err(ContentUnreadable);
      }
      var renderedId := WriteBytesObject(Utf8(text.value));
      var manifest := Utf8(ManifestText(env, id, rev.contentHash, text.value));
      var manifestId := WriteBytesObject(manifest);
      var rows := map[RENDERED := RenderedOutput(env, text.value).(objectId := renderedId)];
      rows := rows[MANIFEST := Output(manifestId, env.sha(manifest), "application/json", BUILDER, "1")];
      revisions := revisions[id := rev.(outputs := rows)];
      r := MaterializedBundleResponse(id, false);
    }

    method MaterializedBundleResponse(id: string, already: bool) returns (r: Result<Materialized, BundleError>)
      requires id in revisions && revisions[id].outputs.Keys == {RENDERED, MANIFEST}
      ensures r == Respond(env, Contents(), id, already)
    {
      var stored := Read(env, objects, revisions[id].outputs[MANIFEST].objectId);
      if stored.None? || stored.value.Binary? {
        return Err(ResponseUnreadable);
      }
      var manifest := env.loads(stored.value.text);
      if manifest.None? {
        return Err(ResponseUnreadable);
      }
      var integrity := CheckStoryboardBundleIntegrity(id);
      if integrity.Err? {
        return Err(integrity.error);
      }
      if !manifest.value.Obj? {
        return Err(ResponseUnreadable);
      }
      var hash := Lookup(manifest.value.fields, "bundle_manifest_hash");
      return if hash.None? then Err(ResponseUnreadable) else Ok(Materialized(already, hash.value));
    }

    /** The seven rows go in one by one; a collision rolls back those already inserted. */
    method InsertPhase3RevisionOutputs(id: string, rows: seq<Row>) returns (r: Result<(), BundleError>)
      modifies this`revisions
      ensures match InsertPhase3(old(Contents()), id, rows)
              case Ok(t) => Contents() == t && r.Ok?
              case Err(e) => Contents() == old(Contents()) && r == Err(e)
    {
      if id !in revisions {
        return Err(NotFound);
      }
      if !RowsComplete(id, rows) {
        return Err(RowsInvalid);
      }
      Phase3Distinct();
      r := InsertRevisionOutputs(id, PHASE3, rows);
    }

    /** One transaction: the row of each listed type, in order. */
    method InsertRevisionOutputs(id: string, types: seq<string>, rows: seq<Row>) returns (r: Result<(), BundleError>)
      requires id in revisions && Distinct(types) && AllHaveRows(rows, types)
      modifies this`revisions
      ensures r == if Collides(old(revisions)[id], types) then Err(IntegrityError) else Ok(())
      ensures revisions == if r.Err? then old(revisions) else old(revisions)[id := WithRows(old(revisions)[id], rows, types)]
    {
      var saved := revisions;
      for n := 0 to |types|
        invariant AllHaveRows(rows, types[..n])
        invariant revisions == saved[id := WithRows(saved[id], rows, types[..n])]
        invariant !Collides(saved[id], types[..n])
      {
        var logicalType := types[n];
        OneMoreRow(saved[id], rows, types, n);
        if logicalType in revisions[id].outputs {
          revisions := saved;
          return Err(IntegrityError);
        }
        var rev := revisions[id];
        revisions := revisions[id := rev.(outputs := rev.outputs[logicalType := OutputFor(rows, logicalType)])];
      }
      assert types[..|types|] == types;
      return Ok(());
    }
  }

  predicate Distinct(types: seq<string>) {
    forall j, k :: 0 <= j < k < |types| ==> types[j] != types[k]
  }

  lemma {:induction false} RowsPresent(rev: Revision, rows: seq<Row>, types: seq<string>, t: string)
    requires AllHaveRows(rows, types)
    ensures t in WithRows(rev, rows, types).outputs <==> t in rev.outputs || t in types
    decreases |types|
  {
    if types != [] {
      RowsPresent(rev, rows, types[..|types| - 1], t);
      assert types == types[..|types| - 1] + [types[|types| - 1]];
    }
  }

  lemma OneMoreRow(rev: Revision, rows: seq<Row>, types: seq<string>, n: nat)
    requires n < |types| && Distinct(types) && AllHaveRows(rows, types)
    ensures AllHaveRows(rows, types[..n]) && AllHaveRows(rows, types[..n + 1])
    ensures types[n] in WithRows(rev, rows, types[..n]).outputs <==> types[n] in rev.outputs
    ensures types[n] in rev.outputs ==> Collides(rev, types)
    ensures Collides(rev, types[..n + 1]) <==> Collides(rev, types[..n]) || types[n] in rev.outputs
    ensures var before := WithRows(rev, rows, types[..n]);
            WithRows(rev, rows, types[..n + 1]) == before.(outputs := before.outputs[types[n] := OutputFor(rows, types[n])])
  {
    RowsPresent(rev, rows, types[..n], types[n]);
    assert types[..n + 1][..n] == types[..n];
    CollidesSplit(rev, types[..n + 1]);
  }

  lemma CollidesSplit(rev: Revision, types: seq<string>)
    requires types != []
    ensures Collides(rev, types) <==> Collides(rev, types[..|types| - 1]) || types[|types| - 1] in rev.outputs
  {
  }

  lemma Phase3Distinct()
    ensures Distinct(PHASE3)
  {
  }

}
