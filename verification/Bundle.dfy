/** Storyboard bundles: the rendered Markdown and the manifest stored beside a canonical
    revision, the integrity check, and the steps that can touch them
    (ai_drama_runtime/services.py, ai_drama_runtime/store.py). */
module Bundle {
  import opened Wrappers
  import opened Hashing
  import opened JsonText
  import opened JsonRoundTrip
  import opened CanonicalJson

  /** The bytes of a stored object: the UTF-8 form of a text, or bytes that are not UTF-8. */
  datatype Content = Utf8(text: string) | Binary(bytes: Bytes)

  ghost predicate NoCollision(f: Content -> string) {
    forall a, b :: f(a) == f(b) ==> a == b
  }

  type ObjectHash = f: Content -> string | NoCollision(f) witness (TaggedNoCollision(); Tagged)

  function Tagged(c: Content): string {
    match c
    case Utf8(text) => "t" + text
    case Binary(bytes) => "b" + Latin1(bytes)
  }

  lemma TaggedNoCollision()
    ensures NoCollision(Tagged)
  {
    forall a, b | Tagged(a) == Tagged(b) ensures a == b {
      assert Tagged(a)[0] == Tagged(b)[0] && Tagged(a)[1..] == Tagged(b)[1..];
      match a
      case Utf8(text) => assert Tagged(b)[1..] == text;
      case Binary(bytes) => Latin1Injective(bytes, b.bytes);
    }
  }

  /** Plain json.loads: it agrees with the strict decoder wherever that one succeeds. */
  ghost predicate ReadsJson(f: string -> Option<Json>) {
    forall t :: ParseText(t).Done? ==> f(t) == Some(ParseText(t).value)
  }

  type JsonLoads = f: string -> Option<Json> | ReadsJson(f)
    witness (t: string) => if ParseText(t).Done? then Some(ParseText(t).value) else None

  /** The hash, the Markdown renderer (None when it raises) and json.loads. */
  datatype Env = Env(sha: ObjectHash, render: Json -> Option<string>, loads: JsonLoads)

  datatype Output = Output(objectId: string, contentHash: string, mediaType: string, generator: string, version: string)

  /** A revision with the rows of revision_outputs that reference it, by logical type.
      canonical: a storyboard with the canonical content profile. */
  datatype Revision = Revision(contentObject: string, contentHash: string, canonical: bool, outputs: map<string, Output>)

  type Objects = map<string, Content>

  /** approved: the revisions approve_revision has approved so far. */
  datatype State = State(revisions: map<string, Revision>, objects: Objects, approved: set<string>)

  datatype BundleError =
    | NotFound | ProfileUnsupported | NotMaterialized | CombinationInvalid | OutputHashMismatch
    | ContentUnreadable | IntegrityFailed | OutputConflict | ResponseUnreadable
    | ApprovalBlocked | RowsInvalid | IntegrityError

  const RENDERED := "rendered_markdown"
  const MANIFEST := "bundle_manifest"
  const RENDERER := "storyboard-canonical-markdown-renderer"
  const RENDERER_VERSION := "1.0.0"
  const BUILDER := "bundle-manifest-builder"

  // ---------- objects ----------

  function Read(env: Env, objects: Objects, id: string): Option<Content> {
    if id in objects && env.sha(objects[id]) == id then Some(objects[id]) else None
  }

  /** write_bytes_object: an existing path is left alone. */
  function Written(env: Env, objects: Objects, c: Content): Objects {
    if env.sha(c) in objects then objects else objects[env.sha(c) := c]
  }

  predicate Holds(env: Env, objects: Objects, c: Content) {
    env.sha(c) in objects && objects[env.sha(c)] == c
  }

  // ---------- what the builders produce ----------

  function RenderedOutput(env: Env, text: string): Output {
    Output(env.sha(Utf8(text)), env.sha(Utf8(text)), "text/markdown", RENDERER, RENDERER_VERSION)
  }

  function ManifestOutput(env: Env, text: string): Output {
    Output(env.sha(Utf8(text)), env.sha(Utf8(text)), "application/json", BUILDER, "1")
  }

  function ManifestEntry(renderedHash: string): Json {
    Obj([Field("logical_type", Str(RENDERED)), Field("content_hash", Str(renderedHash)),
         Field("media_type", Str("text/markdown")), Field("generator", Str(RENDERER)),
         Field("generator_version", Str(RENDERER_VERSION))])
  }

  function BusinessPreimage(contentHash: string, renderedHash: string): Json {
    Obj([Field("schema_version", Str("bundle-manifest-v1")), Field("artifact_type", Str("storyboard")),
         Field("canonical_content_hash", Str(contentHash)), Field("outputs", Arr([ManifestEntry(renderedHash)]))])
  }

  function BundleHash(env: Env, contentHash: string, renderedHash: string): string {
    env.sha(Utf8(Dumps(BusinessPreimage(contentHash, renderedHash))))
  }

  function Manifest(env: Env, id: string, contentHash: string, renderedHash: string): Json {
    Obj([Field("schema_version", Str("bundle-manifest-v1")), Field("revision_id", Str(id)),
         Field("artifact_type", Str("storyboard")), Field("canonical_content_hash", Str(contentHash)),
         Field("outputs", Arr([ManifestEntry(renderedHash)])),
         Field("bundle_manifest_hash", Str(BundleHash(env, contentHash, renderedHash)))])
  }

  /** The manifest's text for a revision whose rendered Markdown is `text`. */
  function ManifestText(env: Env, id: string, contentHash: string, text: string): string {
    Dumps(Manifest(env, id, contentHash, env.sha(Utf8(text))))
  }

  /** Read the canonical content back, parse it strictly and render it. */
  function Rendering(env: Env, objects: Objects, rev: Revision): Option<string> {
    match Read(env, objects, rev.contentObject)
    case Some(Utf8(t)) => if ParseText(t).Done? then env.render(ParseText(t).value) else None
    case _ => None
  }

  // ---------- the integrity check ----------

  predicate Intact(env: Env, objects: Objects, o: Output) {
    Read(env, objects, o.objectId).Some? && o.objectId == o.contentHash
  }

  predicate SameProducer(o: Output, p: Output) {
    o.mediaType == p.mediaType && o.generator == p.generator && o.version == p.version
  }

  /** The decoded manifest is compared with Python's == and then byte for byte; a built manifest holds no
      boolean and no number, so the first comparison is equality of JSON values (PythonEqualOnText). */
  function CheckManifest(env: Env, stored: Content, expected: Json): bool {
    match stored
    case Binary(_) => false
    case Utf8(t) =>
      match env.loads(t)
      case None => false
      case Some(v) => PythonEqual(v, expected) && t == Dumps(expected)
  }

  function Check(env: Env, s: State, id: string): Result<string, BundleError> {
    if id !in s.revisions then Err(NotFound)
    else
      var rev := s.revisions[id];
      if !rev.canonical then Err(ProfileUnsupported)
      else if rev.outputs.Keys == {} then Err(NotMaterialized)
      else if rev.outputs.Keys != {RENDERED, MANIFEST} then Err(CombinationInvalid)
      else
        var rendered, manifest := rev.outputs[RENDERED], rev.outputs[MANIFEST];
        if !Intact(env, s.objects, rendered) || !Intact(env, s.objects, manifest) then Err(OutputHashMismatch)
        else
          match Rendering(env, s.objects, rev)
          case None => Err(ContentUnreadable)
          case Some(text) =>
            if !SameProducer(rendered, RenderedOutput(env, text)) || s.objects[rendered.objectId] != Utf8(text)
            then Err(IntegrityFailed)
            else if !SameProducer(manifest, ManifestOutput(env, "")) then Err(IntegrityFailed)
            else if !CheckManifest(env, s.objects[manifest.objectId], Manifest(env, id, rev.contentHash, rendered.contentHash))
            then Err(IntegrityFailed)
            else Ok(BundleHash(env, rev.contentHash, rendered.contentHash))
  }

  /** The stored outputs are exactly what renderer and manifest builder produce, byte for byte. */
  predicate Bundled(env: Env, s: State, id: string) {
    && id in s.revisions && s.revisions[id].canonical
    && var rev := s.revisions[id];
       match Rendering(env, s.objects, rev)
       case None => false
       case Some(text) =>
         var manifest := ManifestText(env, id, rev.contentHash, text);
         && rev.outputs == map[RENDERED := RenderedOutput(env, text), MANIFEST := ManifestOutput(env, manifest)]
         && Holds(env, s.objects, Utf8(text)) && Holds(env, s.objects, Utf8(manifest))
  }

  function BundleHashOf(env: Env, s: State, id: string): string
    requires id in s.revisions && RENDERED in s.revisions[id].outputs
  {
    BundleHash(env, s.revisions[id].contentHash, s.revisions[id].outputs[RENDERED].contentHash)
  }

  lemma ManifestWellFormed(env: Env, id: string, contentHash: string, renderedHash: string)
    ensures WellFormed(Manifest(env, id, contentHash, renderedHash))
  {
    var m := Manifest(env, id, contentHash, renderedHash);
    assert WellFormed(ManifestEntry(renderedHash));
    assert forall i, j :: 0 <= i < j < 6 ==> m.fields[i].key != m.fields[j].key;
    assert WellFormed(Arr([ManifestEntry(renderedHash)]));
  }

  lemma ManifestOnlyText(env: Env, id: string, contentHash: string, renderedHash: string)
    ensures OnlyText(Manifest(env, id, contentHash, renderedHash))
  {
    assert OnlyText(ManifestEntry(renderedHash));
    assert OnlyText(Arr([ManifestEntry(renderedHash)]));
  }

  /** The decoder reads a manifest back, so comparing bytes implies comparing contents. */
  lemma ManifestReadsBack(env: Env, id: string, contentHash: string, renderedHash: string)
    ensures var m := Manifest(env, id, contentHash, renderedHash);
            env.loads(Dumps(m)).Some? && SameValue(env.loads(Dumps(m)).value, m)
  {
    var m := Manifest(env, id, contentHash, renderedHash);
    ManifestWellFormed(env, id, contentHash, renderedHash);
    CanonIdempotent(m);
    TextRoundTrip(false, Canon(m));
    CanonDecidesSameValue(Canon(m), m);
  }

  lemma CheckManifestDecides(env: Env, stored: Content, id: string, contentHash: string, renderedHash: string)
    ensures CheckManifest(env, stored, Manifest(env, id, contentHash, renderedHash))
       <==> stored == Utf8(Dumps(Manifest(env, id, contentHash, renderedHash)))
  {
    var m := Manifest(env, id, contentHash, renderedHash);
    ManifestReadsBack(env, id, contentHash, renderedHash);
    ManifestOnlyText(env, id, contentHash, renderedHash);
    PythonEqualOnText(env.loads(Dumps(m)).value, m);
  }

  lemma OutputIs(env: Env, objects: Objects, o: Output, p: Output, text: string)
    requires p.objectId == p.contentHash == env.sha(Utf8(text))
    ensures Intact(env, objects, o) && SameProducer(o, p) && objects[o.objectId] == Utf8(text)
       <==> o == p && Holds(env, objects, Utf8(text))
  {
  }

  /** The check passes if and only if the bundle is exactly as built, and reports its hash. */
  lemma CheckPassesIff(env: Env, s: State, id: string)
    ensures Check(env, s, id).Ok? <==> Bundled(env, s, id)
    ensures Bundled(env, s, id) ==>
              Check(env, s, id) == Ok(BundleHashOf(env, s, id))
  {
    if id in s.revisions && s.revisions[id].canonical && s.revisions[id].outputs.Keys == {RENDERED, MANIFEST} {
      var rev := s.revisions[id];
      var rendered, manifest := rev.outputs[RENDERED], rev.outputs[MANIFEST];
      assert rev.outputs == map[RENDERED := rendered, MANIFEST := manifest];
      var text := Rendering(env, s.objects, rev);
      if text.Some? {
        OutputIs(env, s.objects, rendered, RenderedOutput(env, text.value), text.value);
        var expected := ManifestText(env, id, rev.contentHash, text.value);
        OutputIs(env, s.objects, manifest, ManifestOutput(env, expected), expected);
        if Intact(env, s.objects, manifest) {
          CheckManifestDecides(env, s.objects[manifest.objectId], id, rev.contentHash, env.sha(Utf8(text.value)));
        }
      }
    }
  }

  // ---------- materialising ----------

  datatype Materialized = Materialized(already: bool, bundleHash: Json)

  /** What both branches return: the manifest is read back, the check runs, the hash is looked up. */
  function Respond(env: Env, s: State, id: string, already: bool): Result<Materialized, BundleError>
    requires id in s.revisions && s.revisions[id].outputs.Keys == {RENDERED, MANIFEST}
  {
    match Read(env, s.objects, s.revisions[id].outputs[MANIFEST].objectId)
    case Some(Utf8(t)) =>
      (match env.loads(t)
       case None => Err(ResponseUnreadable)
       case Some(v) =>
         match Check(env, s, id)
         case Err(e) => Err(e)
         case Ok(_) =>
           match v
           case Obj(fields) =>
             (match Lookup(fields, "bundle_manifest_hash")
              case Some(h) => Ok(Materialized(already, h))
              case None => Err(ResponseUnreadable))
           case _ => Err(ResponseUnreadable))
    case _ => Err(ResponseUnreadable)
  }

  /** The rows and objects a first materialisation adds. */
  function WithBundle(env: Env, s: State, id: string, text: string): State
    requires id in s.revisions
  {
    var rev := s.revisions[id];
    var manifest := ManifestText(env, id, rev.contentHash, text);
    s.(revisions := s.revisions[id := rev.(outputs :=
         map[RENDERED := RenderedOutput(env, text), MANIFEST := ManifestOutput(env, manifest)])],
       objects := Written(env, Written(env, s.objects, Utf8(text)), Utf8(manifest)))
  }

  /** The rows are committed before the response is built, so an error there leaves them in place. */
  function Materialize(env: Env, s: State, id: string): (State, Result<Materialized, BundleError>) {
    if id !in s.revisions then (s, Err(NotFound))
    else
      var rev := s.revisions[id];
      if !rev.canonical then (s, Err(ProfileUnsupported))
      else if rev.outputs.Keys == {RENDERED, MANIFEST} then (s, Respond(env, s, id, true))
      else if rev.outputs.Keys != {} then (s, Err(OutputConflict))
      else
        match Rendering(env, s.objects, rev)
        case None => (s, Err(ContentUnreadable))
        case Some(text) =>
          var after := WithBundle(env, s, id, text);
          (after, Respond(env, after, id, false))
  }

  /** No damaged file sits where the object would be written. */
  predicate Undamaged(env: Env, objects: Objects, c: Content) {
    env.sha(c) in objects ==> env.sha(objects[env.sha(c)]) == env.sha(c)
  }

  lemma WrittenHolds(env: Env, objects: Objects, c: Content)
    ensures Holds(env, Written(env, objects, c), c) <==> Undamaged(env, objects, c)
    ensures forall o :: o in objects ==> o in Written(env, objects, c) && Written(env, objects, c)[o] == objects[o]
  {
  }

  lemma RenderingPersists(env: Env, objects: Objects, later: Objects, rev: Revision)
    requires forall o :: o in objects ==> o in later && later[o] == objects[o]
    requires Rendering(env, objects, rev).Some?
    ensures Rendering(env, later, rev) == Rendering(env, objects, rev)
  {
  }

  /** An unmaterialised revision gets its bundle: afterwards it passes the check, unless a damaged
      file already sat at one of the two object ids. */
  lemma WithBundleIsBundled(env: Env, s: State, id: string, text: string)
    requires id in s.revisions && s.revisions[id].canonical && Rendering(env, s.objects, s.revisions[id]) == Some(text)
    ensures Bundled(env, WithBundle(env, s, id, text), id)
       <==> Undamaged(env, s.objects, Utf8(text))
            && Undamaged(env, s.objects, Utf8(ManifestText(env, id, s.revisions[id].contentHash, text)))
  {
    var manifest := ManifestText(env, id, s.revisions[id].contentHash, text);
    var first := Written(env, s.objects, Utf8(text));
    WrittenHolds(env, s.objects, Utf8(text));
    WrittenHolds(env, first, Utf8(manifest));
    var after := WithBundle(env, s, id, text);
    RenderingPersists(env, s.objects, after.objects, s.revisions[id]);
    assert Rendering(env, after.objects, after.revisions[id]) == Rendering(env, after.objects, s.revisions[id]);
    assert Holds(env, after.objects, Utf8(text)) <==> Holds(env, first, Utf8(text));
  }

  /** A stored manifest that reads back has the bundle hash under its key. */
  lemma ManifestHash(env: Env, m: Json, key: string, hash: string)
    requires WellFormed(m) && m.Obj? && Field(key, Str(hash)) in m.fields
    requires env.loads(Dumps(m)).Some? && SameValue(env.loads(Dumps(m)).value, m)
    ensures var v := env.loads(Dumps(m)).value; v.Obj? && Lookup(v.fields, key) == Some(Str(hash))
  {
    LookupFinds(m.fields, Field(key, Str(hash)));
    var v := env.loads(Dumps(m)).value;
    assert v.Obj?;
    LookupSame(v.fields, m.fields, key);
  }

  /** The response succeeds exactly when the check passes, and reports the hash the check reports. */
  lemma RespondIff(env: Env, s: State, id: string, already: bool)
    requires id in s.revisions && s.revisions[id].outputs.Keys == {RENDERED, MANIFEST}
    ensures Respond(env, s, id, already).Ok? ==> Bundled(env, s, id)
    ensures Bundled(env, s, id) ==>
              Respond(env, s, id, already) == Ok(Materialized(already, Str(BundleHashOf(env, s, id))))
  {
    CheckPassesIff(env, s, id);
    if Bundled(env, s, id) { BundledResponds(env, s, id, already); }
  }

  lemma BundledResponds(env: Env, s: State, id: string, already: bool)
    requires Bundled(env, s, id) && Check(env, s, id).Ok?
    ensures Respond(env, s, id, already) == Ok(Materialized(already, Str(BundleHashOf(env, s, id))))
  {
    var rev := s.revisions[id];
    var m := Manifest(env, id, rev.contentHash, rev.outputs[RENDERED].contentHash);
    ManifestReadsBack(env, id, rev.contentHash, rev.outputs[RENDERED].contentHash);
    ManifestWellFormed(env, id, rev.contentHash, rev.outputs[RENDERED].contentHash);
    assert m.fields[5] in m.fields;
    ManifestHash(env, m, "bundle_manifest_hash", BundleHashOf(env, s, id));
    var text := Rendering(env, s.objects, rev).value;
    assert Read(env, s.objects, rev.outputs[MANIFEST].objectId) == Some(Utf8(ManifestText(env, id, rev.contentHash, text)));
  }

  /** A materialisation that succeeds leaves the revision passing the check, and says so. */
  lemma MaterializedPasses(env: Env, s: State, id: string)
    requires Materialize(env, s, id).1.Ok?
    ensures Bundled(env, Materialize(env, s, id).0, id)
    ensures Check(env, Materialize(env, s, id).0, id).Ok?
    ensures Materialize(env, s, id).1.value.bundleHash == Str(Check(env, Materialize(env, s, id).0, id).value)
  {
    var (after, r) := Materialize(env, s, id);
    RespondIff(env, after, id, r.value.already);
    CheckPassesIff(env, after, id);
  }

  /** A first materialisation succeeds if and only if the content renders and neither object id is
      occupied by a damaged file. */
  lemma FirstMaterializationSucceedsIff(env: Env, s: State, id: string)
    requires id in s.revisions && s.revisions[id].canonical && s.revisions[id].outputs == map[]
    ensures Materialize(env, s, id).1.Ok?
       <==> match Rendering(env, s.objects, s.revisions[id])
            case None => false
            case Some(text) =>
              && Undamaged(env, s.objects, Utf8(text))
              && Undamaged(env, s.objects, Utf8(ManifestText(env, id, s.revisions[id].contentHash, text)))
  {
    match Rendering(env, s.objects, s.revisions[id])
    case None =>
    case Some(text) =>
      WithBundleIsBundled(env, s, id, text);
      RespondIff(env, WithBundle(env, s, id, text), id, false);
  }

  /** Materialising again adds nothing and reports the same bundle hash. */
  lemma RematerializeAddsNothing(env: Env, s: State, id: string)
    requires Materialize(env, s, id).1.Ok?
    ensures var (after, r) := Materialize(env, s, id);
            Materialize(env, after, id) == (after, Ok(Materialized(true, r.value.bundleHash)))
  {
    var (after, r) := Materialize(env, s, id);
    MaterializedPasses(env, s, id);
    RespondIff(env, after, id, true);
    CheckPassesIff(env, after, id);
  }

  // ---------- the other writers of revision_outputs ----------

  datatype Row = Row(revisionId: string, logicalType: string, output: Output)

  const PHASE3: seq<string> := [
    "shot_prompt_positive_prompts", "shot_prompt_negative_prompts", "shot_prompt_asset_requirements",
    "shot_prompt_render_provenance", "shot_prompt_review_markdown", "shot_prompt_validation_report", MANIFEST]

  /** One row per required logical type, all of the one revision. */
  predicate RowsComplete(id: string, rows: seq<Row>) {
    && (forall i, j :: 0 <= i < j < |rows| ==> rows[i].logicalType != rows[j].logicalType)
    && (forall i :: 0 <= i < |rows| ==> rows[i].logicalType in PHASE3 && rows[i].revisionId == id)
    && AllHaveRows(rows, PHASE3)
  }

  predicate AllHaveRows(rows: seq<Row>, types: seq<string>) {
    forall k :: 0 <= k < |types| ==> HasRow(rows, types[k])
  }

  predicate HasRow(rows: seq<Row>, logicalType: string) {
    exists i :: 0 <= i < |rows| && rows[i].logicalType == logicalType
  }

  function OutputFor(rows: seq<Row>, logicalType: string): Output
    requires HasRow(rows, logicalType)
  {
    if rows[0].logicalType == logicalType then rows[0].output
    else
      assert HasRow(rows[1..], logicalType) by {
        var i :| 0 <= i < |rows| && rows[i].logicalType == logicalType;
        assert rows[1..][i - 1] == rows[i];
      }
      OutputFor(rows[1..], logicalType)
  }

  /** The revision with the rows of the given types inserted in order. */
  function WithRows(rev: Revision, rows: seq<Row>, types: seq<string>): Revision
    requires AllHaveRows(rows, types)
    decreases |types|
  {
    if types == [] then rev
    else
      var last := types[|types| - 1];
      var before := WithRows(rev, rows, types[..|types| - 1]);
      before.(outputs := before.outputs[last := OutputFor(rows, last)])
  }

  predicate Collides(rev: Revision, types: seq<string>) {
    exists k :: 0 <= k < |types| && types[k] in rev.outputs
  }

  /** All rows or none: a type that is already there rolls the insert back. */
  function InsertPhase3(s: State, id: string, rows: seq<Row>): Result<State, BundleError> {
    if id !in s.revisions then Err(NotFound)
    else if !RowsComplete(id, rows) then Err(RowsInvalid)
    else if Collides(s.revisions[id], PHASE3) then Err(IntegrityError)
    else
      Ok(s.(revisions := s.revisions[id := WithRows(s.revisions[id], rows, PHASE3)]))
  }

  /** approve_revision: the bundle check is the last guard; guardsPass stands for the others. */
  function Approve(env: Env, s: State, id: string, guardsPass: bool): Result<State, BundleError> {
    if id !in s.revisions then Err(NotFound)
    else if !guardsPass then Err(ApprovalBlocked)
    else
      match if s.revisions[id].canonical then Check(env, s, id) else Ok("")
      case Err(NotMaterialized) => Err(NotMaterialized)
      case Err(ContentUnreadable) => Err(ContentUnreadable)
      case Err(_) => Err(IntegrityFailed)
      case Ok(_) => Ok(s.(approved := s.approved + {id}))
  }

  datatype Op =
    | AddRevision(id: string, contentObject: string, contentHash: string, canonical: bool)
    | WriteObject(content: Content)
    | MaterializeBundle(id: string)
    | InsertFormalOutputs(id: string, rows: seq<Row>)
    | ApproveRevision(id: string, guardsPass: bool)
    | CollectObjects(garbage: set<string>)

  /** The objects a revision and its output rows name. */
  function ObjectsOf(rev: Revision): set<string> {
    {rev.contentObject} + set t | t in rev.outputs :: rev.outputs[t].objectId
  }

  predicate Referenced(s: State, o: string) {
    exists id :: id in s.revisions && o in ObjectsOf(s.revisions[id])
  }

  /** Object collection deletes only unreferenced objects (GarbageCollection.DataRoot.Apply). */
  function Collected(s: State, garbage: set<string>): State {
    s.(objects := map o | o in s.objects && (o !in garbage || Referenced(s, o)) :: s.objects[o])
  }

  function Step(env: Env, s: State, op: Op): State {
    match op
    case AddRevision(id, contentObject, contentHash, canonical) =>
      if id in s.revisions then s
      else s.(revisions := s.revisions[id := Revision(contentObject, contentHash, canonical, map[])])
    case WriteObject(content) => s.(objects := Written(env, s.objects, content))
    case MaterializeBundle(id) => Materialize(env, s, id).0
    case InsertFormalOutputs(id, rows) => (match InsertPhase3(s, id, rows) case Ok(t) => t case Err(_) => s)
    case ApproveRevision(id, guardsPass) => (match Approve(env, s, id, guardsPass) case Ok(t) => t case Err(_) => s)
    case CollectObjects(garbage) => Collected(s, garbage)
  }

  function Run(env: Env, s: State, ops: seq<Op>): State {
    if ops == [] then s else Step(env, Run(env, s, ops[..|ops| - 1]), ops[|ops| - 1])
  }

  /** What every step leaves of a revision whose bundle is complete. */
  predicate Keeps(s: State, t: State, id: string) {
    && id in s.revisions && id in t.revisions && t.revisions[id] == s.revisions[id]
    && forall o :: o in ObjectsOf(s.revisions[id]) && o in s.objects ==> o in t.objects && t.objects[o] == s.objects[o]
  }

  lemma BundledPersists(env: Env, s: State, t: State, id: string)
    requires Bundled(env, s, id) && Keeps(s, t, id)
    ensures Bundled(env, t, id)
  {
    BundleObjects(s.revisions[id]);
  }

  lemma BundleObjects(rev: Revision)
    requires rev.outputs.Keys == {RENDERED, MANIFEST}
    ensures ObjectsOf(rev) == {rev.contentObject, rev.outputs[RENDERED].objectId, rev.outputs[MANIFEST].objectId}
  {
    assert RENDERED in rev.outputs && MANIFEST in rev.outputs;
  }

  /** The phase-3 rows end with a manifest, so on a revision that has one the insert is refused. */
  lemma Phase3IsRefused(s: State, id: string, rows: seq<Row>)
    requires id in s.revisions && MANIFEST in s.revisions[id].outputs
    ensures InsertPhase3(s, id, rows).Err?
  {
    assert PHASE3[6] in s.revisions[id].outputs;
  }

  lemma WithBundleKeeps(env: Env, s: State, other: string, id: string, text: string)
    requires id in s.revisions && other in s.revisions && other != id
    ensures Keeps(s, WithBundle(env, s, other, text), id)
  {
  }

  /** A materialisation leaves the state alone or adds one bundle. */
  lemma MaterializeShape(env: Env, s: State, other: string)
    ensures var t := Materialize(env, s, other).0;
            || t == s
            || (&& other in s.revisions && s.revisions[other].outputs.Keys == {}
                && exists text :: t == WithBundle(env, s, other, text))
  {
  }

  lemma MaterializeKeeps(env: Env, s: State, other: string, id: string)
    requires id in s.revisions && MANIFEST in s.revisions[id].outputs
    ensures Keeps(s, Materialize(env, s, other).0, id)
  {
    MaterializeShape(env, s, other);
    var t := Materialize(env, s, other).0;
    if t != s {
      var text :| t == WithBundle(env, s, other, text);
      WithBundleKeeps(env, s, other, id, text);
    }
  }

  lemma CollectionKeeps(s: State, garbage: set<string>, id: string)
    requires id in s.revisions
    ensures Keeps(s, Collected(s, garbage), id)
  {
    forall o | o in ObjectsOf(s.revisions[id]) ensures Referenced(s, o) {
    }
  }

  /** No writer and no collection touches a revision that has its manifest row, or an object it names. */
  lemma StepKeeps(env: Env, s: State, op: Op, id: string)
    requires id in s.revisions && MANIFEST in s.revisions[id].outputs
    ensures Keeps(s, Step(env, s, op), id)
  {
    match op
    case MaterializeBundle(other) => MaterializeKeeps(env, s, other, id);
    case InsertFormalOutputs(other, rows) => if other == id { Phase3IsRefused(s, id, rows); }
    case CollectObjects(garbage) => CollectionKeeps(s, garbage, id);
    case _ =>
  }

  lemma {:induction false} RunKeeps(env: Env, s: State, ops: seq<Op>, id: string)
    requires id in s.revisions && MANIFEST in s.revisions[id].outputs
    ensures Keeps(s, Run(env, s, ops), id)
    decreases |ops|
  {
    if ops != [] {
      var front := ops[..|ops| - 1];
      RunKeeps(env, s, front, id);
      StepKeeps(env, Run(env, s, front), ops[|ops| - 1], id);
    }
  }

  /** A first materialisation whose content renders commits its rows, and from then on, in every later state,
      materialising the revision changes nothing; it succeeds if and only if no damaged file sat at one of
      the two object ids.  So a failed one never recovers while the damaged file stays. */
  lemma LaterMaterializationsIff(env: Env, s: State, id: string, ops: seq<Op>)
    requires id in s.revisions && s.revisions[id].canonical && s.revisions[id].outputs == map[]
    requires Rendering(env, s.objects, s.revisions[id]).Some?
    ensures var text := Rendering(env, s.objects, s.revisions[id]).value;
            var later := Run(env, Materialize(env, s, id).0, ops);
            && Materialize(env, s, id).0 == WithBundle(env, s, id, text)
            && Materialize(env, later, id).0 == later
            && (Materialize(env, later, id).1.Ok? <==>
                  && Undamaged(env, s.objects, Utf8(text))
                  && Undamaged(env, s.objects, Utf8(ManifestText(env, id, s.revisions[id].contentHash, text))))
  {
    var text := Rendering(env, s.objects, s.revisions[id]).value;
    var after := WithBundle(env, s, id, text);
    var later := Run(env, after, ops);
    WithBundleIsBundled(env, s, id, text);
    RunKeeps(env, after, ops, id);
    RespondIff(env, later, id, true);
    BundledSame(env, s, after, later, id, text);
  }

  /** The rows of a fresh bundle are intact later exactly when they were intact at first. */
  lemma BundledSame(env: Env, s: State, after: State, later: State, id: string, text: string)
    requires id in s.revisions && Rendering(env, s.objects, s.revisions[id]) == Some(text)
    requires after == WithBundle(env, s, id, text) && Keeps(after, later, id)
    ensures Bundled(env, later, id) <==> Bundled(env, after, id)
  {
    var rev, manifest := after.revisions[id], ManifestText(env, id, s.revisions[id].contentHash, text);
    BundleObjects(rev);
    WrittenHolds(env, s.objects, Utf8(text));
    WrittenHolds(env, Written(env, s.objects, Utf8(text)), Utf8(manifest));
    RenderingPersists(env, s.objects, after.objects, s.revisions[id]);
    assert Rendering(env, after.objects, rev) == Some(text) && Rendering(env, later.objects, rev) == Some(text);
    assert Holds(env, later.objects, Utf8(text)) <==> Holds(env, after.objects, Utf8(text));
    assert Holds(env, later.objects, Utf8(manifest)) <==> Holds(env, after.objects, Utf8(manifest));
  }

  /** The failing case occurs for every storyboard that renders to another text: a damaged file sits at the
      id the rendered Markdown hashes to, the call raises, and its two rows stay. */
  lemma DamagedFileStrands(env: Env, stored: string, text: string) returns (s: State)
    requires ParseText(stored).Done? && env.render(ParseText(stored).value) == Some(text) && text != stored
    ensures "r" in s.revisions && s.revisions["r"].canonical && s.revisions["r"].outputs == map[]
    ensures Read(env, s.objects, s.revisions["r"].contentObject) == Some(Utf8(stored))
    ensures var (after, r) := Materialize(env, s, "r");
            r.Err? && "r" in after.revisions && after.revisions["r"].outputs.Keys == {RENDERED, MANIFEST}
  {
    var content := Utf8(stored);
    var id := env.sha(Utf8(text));
    assert env.sha(Utf8(text)) != env.sha(content) && env.sha(Utf8(text)) != env.sha(Binary([]));
    s := State(map["r" := Revision(env.sha(content), "h", true, map[])], map[env.sha(content) := content, id := Binary([])], {});
    assert Rendering(env, s.objects, s.revisions["r"]) == Some(text);
    FirstMaterializationSucceedsIff(env, s, "r");
    assert !Undamaged(env, s.objects, Utf8(text));
  }

  lemma StepKeepsBundle(env: Env, s: State, op: Op, id: string)
    requires Bundled(env, s, id)
    ensures Bundled(env, Step(env, s, op), id)
  {
    StepKeeps(env, s, op, id);
    BundledPersists(env, s, Step(env, s, op), id);
  }

  /** Every approved canonical revision has its bundle. */
  ghost predicate ApprovedBundled(env: Env, s: State) {
    forall id :: id in s.approved && id in s.revisions && s.revisions[id].canonical ==> Bundled(env, s, id)
  }

  ghost predicate ApprovedExist(s: State) {
    s.approved <= s.revisions.Keys
  }

  lemma StepKeepsApproved(env: Env, s: State, op: Op)
    requires ApprovedBundled(env, s) && ApprovedExist(s)
    ensures ApprovedBundled(env, Step(env, s, op)) && ApprovedExist(Step(env, s, op))
  {
    var t := Step(env, s, op);
    StepKeepsRows(env, s, op);
    forall id | id in t.approved && id in t.revisions && t.revisions[id].canonical ensures Bundled(env, t, id) {
      if id in s.approved {
        StepKeepsBundle(env, s, op, id);
      } else {
        CheckPassesIff(env, s, id);
        StepKeepsBundle(env, s, op, id);
      }
    }
  }

  /** No step removes a revision or changes its profile; only an approval extends the approved set. */
  lemma StepKeepsRows(env: Env, s: State, op: Op)
    requires ApprovedExist(s)
    ensures var t := Step(env, s, op);
            && (forall id :: id in s.revisions ==> id in t.revisions && t.revisions[id].canonical == s.revisions[id].canonical)
            && s.approved <= t.approved && ApprovedExist(t)
            && forall id :: id in t.approved - s.approved ==>
                 id in s.revisions && (s.revisions[id].canonical ==> Check(env, s, id).Ok?)
  {
    StepKeepsProfiles(env, s, op);
    StepApproves(env, s, op);
  }

  lemma StepKeepsProfiles(env: Env, s: State, op: Op)
    ensures var t := Step(env, s, op);
            forall id :: id in s.revisions ==> id in t.revisions && t.revisions[id].canonical == s.revisions[id].canonical
  {
    if op.InsertFormalOutputs? && InsertPhase3(s, op.id, op.rows).Ok? {
      WithRowsKeepsProfile(s.revisions[op.id], op.rows, PHASE3);
    }
  }

  lemma StepApproves(env: Env, s: State, op: Op)
    ensures var t := Step(env, s, op);
            s.approved <= t.approved && forall id :: id in t.approved - s.approved ==>
              id in s.revisions && (s.revisions[id].canonical ==> Check(env, s, id).Ok?)
  {
  }

  lemma {:induction false} WithRowsKeepsProfile(rev: Revision, rows: seq<Row>, types: seq<string>)
    requires AllHaveRows(rows, types)
    ensures WithRows(rev, rows, types) == rev.(outputs := WithRows(rev, rows, types).outputs)
    decreases |types|
  {
    if types != [] { WithRowsKeepsProfile(rev, rows, types[..|types| - 1]); }
  }

  /** Once approve_revision has approved a canonical storyboard, its bundle passes the check in every
      later state. */
  lemma {:induction false} ApprovedBundlesKeepPassing(env: Env, ops: seq<Op>, id: string)
    ensures var s := Run(env, State(map[], map[], {}), ops);
            && ApprovedBundled(env, s) && ApprovedExist(s)
            && (id in s.approved && s.revisions[id].canonical ==> Check(env, s, id).Ok?)
    decreases |ops|
  {
    if ops != [] {
      var front := ops[..|ops| - 1];
      ApprovedBundlesKeepPassing(env, front, id);
      StepKeepsApproved(env, Run(env, State(map[], map[], {}), front), ops[|ops| - 1]);
    }
    CheckPassesIff(env, Run(env, State(map[], map[], {}), ops), id);
  }
}
