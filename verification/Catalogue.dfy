/** The supplier model catalogue (ai_drama_web/store.py): models, their revisions, what refers
    to them, the calls that change them, and the invariant every call keeps. */
module Catalogue {
  import opened Wrappers

  datatype Capability = Text | Image | Video

  datatype Source = BuiltIn | Overlay

  datatype Model = Model(
    supplierId: string, current: string, source: Source, enabled: bool, revision: int, archived: bool)

  /** definition stands for definition_object_id and definition_hash, both digests of the same text. */
  datatype Definition = Definition(name: string, display: string, capability: Capability, definition: string)

  datatype ModelRevision = ModelRevision(modelId: string, number: int, definition: Definition)

  datatype Binding = Binding(text: Option<string>, image: Option<string>, video: Option<string>, revision: int)

  datatype Snapshot = Snapshot(modelId: string, revisionId: string)

  datatype Request = Request(requestHash: string, modelId: string)

  /** suppliers holds each supplier's model_catalog_revision. */
  datatype Db = Db(
    suppliers: map<string, int>,
    models: map<string, Model>,
    revisions: map<string, ModelRevision>,
    bindings: map<string, Binding>,
    overrides: map<(string, string), string>,
    snapshots: map<string, Snapshot>,
    testRuns: map<string, string>,
    requests: map<(string, string), Request>)

  datatype CatalogueError =
    | NotFound | RevisionConflict | NameConflict | IdentityConflict | ModelReferenced
    | InvalidDeclaration | IntegrityError | BindingRejected

  // ---------- queries ----------

  datatype Name = Name(supplierId: string, capability: Capability, name: string)

  /** The name an enabled model occupies. */
  function NameOf(db: Db, m: string): Option<Name> {
    if m in db.models && db.models[m].enabled && db.models[m].current in db.revisions then
      var d := db.revisions[db.models[m].current].definition;
      Some(Name(db.models[m].supplierId, d.capability, d.name))
    else None
  }

  /** find_active_model_name: an enabled model of the supplier, other than the excluded one. */
  predicate NameTaken(db: Db, name: Name, except: Option<string>) {
    exists m :: m in db.models && NameOf(db, m) == Some(name) && except != Some(m)
  }

  predicate BindingNames(b: Binding, m: string) {
    b.text == Some(m) || b.image == Some(m) || b.video == Some(m)
  }

  function BindingCount(db: Db, m: string): nat {
    |set p | p in db.bindings && BindingNames(db.bindings[p], m)| + |set o | o in db.overrides && db.overrides[o] == m|
  }

  function SnapshotCount(db: Db, m: string): nat {
    |set s | s in db.snapshots && db.snapshots[s].modelId == m|
  }

  /** A foreign key that would stop the model or one of its revisions from being deleted. */
  predicate ForeignKeyHolds(db: Db, m: string) {
    || (exists t :: t in db.testRuns && db.testRuns[t] == m)
    || (exists s :: s in db.snapshots && db.snapshots[s].revisionId in db.revisions
                    && db.revisions[db.snapshots[s].revisionId].modelId == m)
  }

  predicate Expects(db: Db, m: string, catalog: int, revision: int)
    requires m in db.models
  {
    && db.models[m].revision == revision
    && db.models[m].supplierId in db.suppliers && db.suppliers[db.models[m].supplierId] == catalog
  }

  // ---------- row updates ----------

  function Bump(db: Db, supplierId: string): Db {
    if supplierId in db.suppliers then db.(suppliers := db.suppliers[supplierId := db.suppliers[supplierId] + 1]) else db
  }

  function AddModel(db: Db, id: string, supplierId: string, source: Source, revisionId: string, d: Definition): Db {
    db.(models := db.models[id := Model(supplierId, revisionId, source, true, 1, false)],
        revisions := db.revisions[revisionId := ModelRevision(id, 1, d)])
  }

  function AddRevision(db: Db, id: string, revisionId: string, d: Definition, enabled: bool): Db
    requires id in db.models
  {
    var next := db.models[id].revision + 1;
    db.(models := db.models[id := db.models[id].(current := revisionId, revision := next, enabled := enabled)],
        revisions := db.revisions[revisionId := ModelRevision(id, next, d)])
  }

  function Touch(db: Db, id: string, enabled: bool, archived: bool): Db
    requires id in db.models
  {
    db.(models := db.models[id := db.models[id].(enabled := enabled, archived := archived, revision := db.models[id].revision + 1)])
  }

  function DropModel(db: Db, id: string): Db {
    db.(models := db.models - {id},
        revisions := map r | r in db.revisions && db.revisions[r].modelId != id :: db.revisions[r],
        requests := map q | q in db.requests && db.requests[q].modelId != id :: db.requests[q])
  }

  // ---------- calls ----------

  function Create(db: Db, supplierId: string, id: string, source: Source, d: Definition, catalog: int, revisionId: string)
    : Result<Db, CatalogueError>
  {
    if supplierId !in db.suppliers then Err(NotFound)
    else if db.suppliers[supplierId] != catalog then Err(RevisionConflict)
    else if NameTaken(db, Name(supplierId, d.capability, d.name), None) then Err(NameConflict)
    else if id in db.models || revisionId in db.revisions then Err(IntegrityError)
    else Ok(Bump(AddModel(db, id, supplierId, source, revisionId, d), supplierId))
  }

  /** A replayed key returns the model it created; db is then unchanged. */
  function CreateIdempotent(db: Db, supplierId: string, id: string, source: Source, d: Definition, catalog: int,
                            revisionId: string, key: string, requestHash: string): Result<Db, CatalogueError>
  {
    if (supplierId, key) in db.requests then
      if db.requests[(supplierId, key)].requestHash != requestHash then Err(RevisionConflict) else Ok(db)
    else
      match Create(db, supplierId, id, source, d, catalog, revisionId)
      case Err(e) => Err(e)
      case Ok(after) => Ok(after.(requests := after.requests[(supplierId, key) := Request(requestHash, id)]))
  }

  function Revise(db: Db, id: string, d: Definition, catalog: int, revision: int, acknowledged: int, revisionId: string)
    : Result<Db, CatalogueError>
  {
    if id !in db.models then Err(NotFound)
    else if !Expects(db, id, catalog, revision) then Err(RevisionConflict)
    else if BindingCount(db, id) != acknowledged then Err(RevisionConflict)
    else if db.models[id].enabled && NameTaken(db, Name(db.models[id].supplierId, d.capability, d.name), Some(id))
    then Err(NameConflict)
    else if revisionId in db.revisions then Err(IntegrityError)
    else Ok(Bump(AddRevision(db, id, revisionId, d, db.models[id].enabled), db.models[id].supplierId))
  }

  /** Another enabled model of the supplier has the name of the model's current revision. */
  predicate CurrentNameTaken(db: Db, id: string)
    requires id in db.models && db.models[id].current in db.revisions
  {
    var d := db.revisions[db.models[id].current].definition;
    NameTaken(db, Name(db.models[id].supplierId, d.capability, d.name), Some(id))
  }

  /** Only enabling looks at the current revision; a missing one raises. */
  function SetEnabled(db: Db, id: string, enabled: bool, catalog: int, revision: int): Result<Db, CatalogueError> {
    if id !in db.models || (enabled && db.models[id].current !in db.revisions) then Err(NotFound)
    else if enabled && CurrentNameTaken(db, id) then Err(NameConflict)
    else if !Expects(db, id, catalog, revision) then Err(RevisionConflict)
    else Ok(Bump(Touch(db, id, enabled, db.models[id].archived), db.models[id].supplierId))
  }

  function Delete(db: Db, id: string, catalog: int, revision: int): Result<Db, CatalogueError> {
    if id !in db.models then Err(NotFound)
    else if BindingCount(db, id) + SnapshotCount(db, id) != 0 then Err(ModelReferenced)
    else if !Expects(db, id, catalog, revision) then Err(RevisionConflict)
    else if ForeignKeyHolds(db, id) then Err(IntegrityError)
    else Ok(Bump(DropModel(db, id), db.models[id].supplierId))
  }

  /** Archived already: no change.  In a snapshot: archive.  Otherwise: delete. */
  function Remove(db: Db, id: string, catalog: int, revision: int): Result<Db, CatalogueError> {
    if id !in db.models then Err(NotFound)
    else if !Expects(db, id, catalog, revision) then Err(RevisionConflict)
    else if db.models[id].archived then Ok(db)
    else if BindingCount(db, id) != 0 then Err(ModelReferenced)
    else if SnapshotCount(db, id) != 0 then Ok(Bump(Touch(db, id, false, true), db.models[id].supplierId))
    else if ForeignKeyHolds(db, id) then Err(IntegrityError)
    else Ok(Bump(DropModel(db, id), db.models[id].supplierId))
  }

  function Archive(db: Db, id: string, catalog: int, revision: int): Result<Db, CatalogueError> {
    if id !in db.models then Err(NotFound)
    else if !Expects(db, id, catalog, revision) then Err(RevisionConflict)
    else if db.models[id].archived then Ok(db)
    else if BindingCount(db, id) != 0 then Err(ModelReferenced)
    else Ok(Bump(Touch(db, id, false, true), db.models[id].supplierId))
  }

  predicate HasCapability(db: Db, id: string, capability: Capability) {
    && id in db.models && db.models[id].current in db.revisions
    && db.revisions[db.models[id].current].definition.capability == capability
  }

  predicate BindingsAccepted(db: Db, defaults: Binding, overrides: map<string, string>, capabilities: map<string, Capability>) {
    && (defaults.text.Some? ==> HasCapability(db, defaults.text.value, Text))
    && (defaults.image.Some? ==> HasCapability(db, defaults.image.value, Image))
    && (defaults.video.Some? ==> HasCapability(db, defaults.video.value, Video))
    && forall o :: o in overrides ==> o in capabilities && HasCapability(db, overrides[o], capabilities[o])
  }

  /** DELETE the project's overrides, then insert the new ones. */
  function NewOverrides(current: map<(string, string), string>, project: string, overrides: map<string, string>)
    : map<(string, string), string>
  {
    (map o | o in current && o.0 != project :: current[o]) + (map o | o in overrides :: (project, o) := overrides[o])
  }

  /** Replace a project's defaults and overrides; each operation key has one capability. */
  function Rebind(db: Db, project: string, defaults: Binding, overrides: map<string, string>,
                  capabilities: map<string, Capability>, expected: int): Result<Db, CatalogueError>
  {
    if !BindingsAccepted(db, defaults, overrides, capabilities) then Err(BindingRejected)
    else if expected != (if project in db.bindings then db.bindings[project].revision else 0) then Err(RevisionConflict)
    else
      Ok(db.(bindings := db.bindings[project := defaults.(revision := expected + 1)],
             overrides := NewOverrides(db.overrides, project, overrides)))
  }

  /** INSERT OR IGNORE of a validated execution snapshot. */
  function AddSnapshot(db: Db, hash: string, id: string, revisionId: string): Result<Db, CatalogueError> {
    if id !in db.models || revisionId !in db.revisions || db.revisions[revisionId].modelId != id then Err(BindingRejected)
    else if hash in db.snapshots then Ok(db)
    else Ok(db.(snapshots := db.snapshots[hash := Snapshot(id, revisionId)]))
  }

  function AddTestRun(db: Db, testRun: string, id: string): Result<Db, CatalogueError> {
    if id !in db.models || testRun in db.testRuns then Err(IntegrityError)
    else Ok(db.(testRuns := db.testRuns[testRun := id]))
  }

  // ---------- the invariant ----------

  ghost predicate RowsLinked(db: Db) {
    && (forall m :: m in db.models ==>
          && db.models[m].supplierId in db.suppliers
          && db.models[m].current in db.revisions && db.revisions[db.models[m].current].modelId == m)
    && forall r :: r in db.revisions ==>
         && db.revisions[r].modelId in db.models
         && 1 <= db.revisions[r].number <= db.models[db.revisions[r].modelId].revision
  }

  ghost predicate NumbersUnique(db: Db) {
    forall r, q :: r in db.revisions && q in db.revisions && r != q && db.revisions[r].modelId == db.revisions[q].modelId
      ==> db.revisions[r].number != db.revisions[q].number
  }

  /** No two enabled models of a supplier share capability and provider name. */
  ghost predicate NamesUnique(db: Db) {
    forall m, n :: m in db.models && n in db.models && NameOf(db, m).Some? && NameOf(db, m) == NameOf(db, n) ==> m == n
  }

  /** Nothing names a deleted model or revision. */
  ghost predicate ReferencesLive(db: Db) {
    && (forall p, m :: p in db.bindings && BindingNames(db.bindings[p], m) ==> m in db.models)
    && (forall o :: o in db.overrides ==> db.overrides[o] in db.models)
    && (forall s :: s in db.snapshots ==>
          && db.snapshots[s].modelId in db.models && db.snapshots[s].revisionId in db.revisions
          && db.revisions[db.snapshots[s].revisionId].modelId == db.snapshots[s].modelId)
    && (forall t :: t in db.testRuns ==> db.testRuns[t] in db.models)
    && (forall q :: q in db.requests ==> db.requests[q].modelId in db.models)
  }

  ghost predicate CatalogueInvariant(db: Db) {
    RowsLinked(db) && NumbersUnique(db) && NamesUnique(db) && ReferencesLive(db)
  }

  /** Names stay unique when at most `id` takes one, and nobody else held it. */
  lemma OneNewName(db: Db, after: Db, id: string)
    requires NamesUnique(db)
    requires forall m :: m in after.models && m != id ==> m in db.models && NameOf(after, m) == NameOf(db, m)
    requires NameOf(after, id).Some? ==> !NameTaken(db, NameOf(after, id).value, Some(id))
    ensures NamesUnique(after)
  {
  }

  lemma BumpKeepsInvariant(db: Db, supplierId: string)
    requires CatalogueInvariant(db)
    ensures CatalogueInvariant(Bump(db, supplierId))
  {
    assert forall m :: NameOf(Bump(db, supplierId), m) == NameOf(db, m);
  }

  /** References stay live when models and revisions only grow. */
  lemma GrowthKeepsReferences(db: Db, after: Db)
    requires ReferencesLive(db)
    requires after.bindings == db.bindings && after.overrides == db.overrides && after.snapshots == db.snapshots
    requires after.testRuns == db.testRuns && after.requests == db.requests
    requires db.models.Keys <= after.models.Keys
    requires forall r :: r in db.revisions ==> r in after.revisions && after.revisions[r].modelId == db.revisions[r].modelId
    ensures ReferencesLive(after)
  {
  }

  lemma AddModelKeepsRows(db: Db, id: string, supplierId: string, source: Source, revisionId: string, d: Definition)
    requires RowsLinked(db) && supplierId in db.suppliers && id !in db.models && revisionId !in db.revisions
    ensures RowsLinked(AddModel(db, id, supplierId, source, revisionId, d))
  {
  }

  lemma AddModelKeepsNumbers(db: Db, id: string, supplierId: string, source: Source, revisionId: string, d: Definition)
    requires RowsLinked(db) && NumbersUnique(db) && id !in db.models
    ensures NumbersUnique(AddModel(db, id, supplierId, source, revisionId, d))
  {
  }

  lemma AddModelKeepsNames(db: Db, id: string, supplierId: string, source: Source, revisionId: string, d: Definition)
    requires RowsLinked(db) && NamesUnique(db) && id !in db.models && revisionId !in db.revisions
    requires !NameTaken(db, Name(supplierId, d.capability, d.name), Some(id))
    ensures NamesUnique(AddModel(db, id, supplierId, source, revisionId, d))
  {
  }

  lemma AddModelKeepsReferences(db: Db, id: string, supplierId: string, source: Source, revisionId: string, d: Definition)
    requires ReferencesLive(db) && revisionId !in db.revisions
    ensures ReferencesLive(AddModel(db, id, supplierId, source, revisionId, d))
  {
  }

  lemma AddModelKeepsInvariant(db: Db, id: string, supplierId: string, source: Source, revisionId: string, d: Definition)
    requires CatalogueInvariant(db) && supplierId in db.suppliers
    requires id !in db.models && revisionId !in db.revisions
    requires !NameTaken(db, Name(supplierId, d.capability, d.name), Some(id))
    ensures CatalogueInvariant(AddModel(db, id, supplierId, source, revisionId, d))
  {
    AddModelKeepsRows(db, id, supplierId, source, revisionId, d);
    AddModelKeepsNumbers(db, id, supplierId, source, revisionId, d);
    AddModelKeepsNames(db, id, supplierId, source, revisionId, d);
    AddModelKeepsReferences(db, id, supplierId, source, revisionId, d);
  }

  lemma AddRevisionKeepsRows(db: Db, id: string, revisionId: string, d: Definition, enabled: bool)
    requires RowsLinked(db) && NumbersUnique(db) && id in db.models && revisionId !in db.revisions
    ensures RowsLinked(AddRevision(db, id, revisionId, d, enabled))
    ensures NumbersUnique(AddRevision(db, id, revisionId, d, enabled))
  {
  }

  lemma AddRevisionKeepsNames(db: Db, id: string, revisionId: string, d: Definition, enabled: bool)
    requires RowsLinked(db) && NamesUnique(db) && id in db.models && revisionId !in db.revisions
    requires enabled ==> !NameTaken(db, Name(db.models[id].supplierId, d.capability, d.name), Some(id))
    ensures NamesUnique(AddRevision(db, id, revisionId, d, enabled))
  {
  }

  lemma AddRevisionKeepsReferences(db: Db, id: string, revisionId: string, d: Definition, enabled: bool)
    requires ReferencesLive(db) && id in db.models && revisionId !in db.revisions
    ensures ReferencesLive(AddRevision(db, id, revisionId, d, enabled))
  {
  }

  lemma AddRevisionKeepsInvariant(db: Db, id: string, revisionId: string, d: Definition, enabled: bool)
    requires CatalogueInvariant(db) && id in db.models && revisionId !in db.revisions
    requires enabled ==> !NameTaken(db, Name(db.models[id].supplierId, d.capability, d.name), Some(id))
    ensures CatalogueInvariant(AddRevision(db, id, revisionId, d, enabled))
  {
    AddRevisionKeepsRows(db, id, revisionId, d, enabled);
    AddRevisionKeepsNames(db, id, revisionId, d, enabled);
    AddRevisionKeepsReferences(db, id, revisionId, d, enabled);
  }

  lemma TouchKeepsInvariant(db: Db, id: string, enabled: bool, archived: bool)
    requires CatalogueInvariant(db) && id in db.models
    requires var d := db.revisions[db.models[id].current].definition;
             enabled && !db.models[id].enabled ==> !NameTaken(db, Name(db.models[id].supplierId, d.capability, d.name), Some(id))
    ensures CatalogueInvariant(Touch(db, id, enabled, archived))
  {
    var after := Touch(db, id, enabled, archived);
    GrowthKeepsReferences(db, after);
    OneNewName(db, after, id);
  }

  lemma Unreferenced(db: Db, id: string)
    ensures BindingCount(db, id) == 0 ==>
              && (forall p :: p in db.bindings ==> !BindingNames(db.bindings[p], id))
              && forall o :: o in db.overrides ==> db.overrides[o] != id
    ensures SnapshotCount(db, id) == 0 ==> forall s :: s in db.snapshots ==> db.snapshots[s].modelId != id
  {
    var ps := set p | p in db.bindings && BindingNames(db.bindings[p], id);
    var os := set o | o in db.overrides && db.overrides[o] == id;
    var ss := set s | s in db.snapshots && db.snapshots[s].modelId == id;
    assert forall p :: p in db.bindings && BindingNames(db.bindings[p], id) ==> p in ps;
    assert forall o :: o in db.overrides && db.overrides[o] == id ==> o in os;
    assert forall s :: s in db.snapshots && db.snapshots[s].modelId == id ==> s in ss;
  }

  lemma DropModelKeepsReferences(db: Db, id: string)
    requires ReferencesLive(db) && id in db.models
    requires BindingCount(db, id) == 0 && SnapshotCount(db, id) == 0 && !ForeignKeyHolds(db, id)
    ensures ReferencesLive(DropModel(db, id))
  {
    Unreferenced(db, id);
  }

  lemma DropModelKeepsRows(db: Db, id: string)
    requires RowsLinked(db)
    ensures RowsLinked(DropModel(db, id))
  {
    var after := DropModel(db, id);
    forall m | m in after.models
      ensures after.models[m].current in after.revisions && after.revisions[after.models[m].current].modelId == m
    {
      assert m in db.models && m != id;
    }
  }

  lemma DropModelKeepsNumbers(db: Db, id: string)
    requires NumbersUnique(db)
    ensures NumbersUnique(DropModel(db, id))
  {
  }

  lemma DropModelKeepsNames(db: Db, id: string)
    requires RowsLinked(db) && NamesUnique(db)
    ensures NamesUnique(DropModel(db, id))
  {
    OneNewName(db, DropModel(db, id), id);
  }

  lemma DropModelKeepsInvariant(db: Db, id: string)
    requires CatalogueInvariant(db) && id in db.models
    requires BindingCount(db, id) == 0 && SnapshotCount(db, id) == 0 && !ForeignKeyHolds(db, id)
    ensures CatalogueInvariant(DropModel(db, id))
  {
    DropModelKeepsRows(db, id);
    DropModelKeepsNumbers(db, id);
    DropModelKeepsNames(db, id);
    DropModelKeepsReferences(db, id);
  }

  // ---------- every call ----------

  datatype Op =
    | CreateModel(supplierId: string, id: string, source: Source, d: Definition, catalog: int, revisionId: string)
    | CreateModelOnce(supplierId: string, id: string, source: Source, d: Definition, catalog: int, revisionId: string,
                      key: string, requestHash: string)
    | ReviseModel(id: string, d: Definition, catalog: int, revision: int, acknowledged: int, revisionId: string)
    | SetModelEnabled(id: string, enabled: bool, catalog: int, revision: int)
    | DeleteModel(id: string, catalog: int, revision: int)
    | RemoveModel(id: string, catalog: int, revision: int)
    | ArchiveModel(id: string, catalog: int, revision: int)
    | RebindProject(project: string, defaults: Binding, overrides: map<string, string>,
                    capabilities: map<string, Capability>, expected: int)
    | RecordSnapshot(hash: string, id: string, revisionId: string)
    | RecordTestRun(testRun: string, id: string)

  function Effect(db: Db, op: Op): Result<Db, CatalogueError> {
    match op
    case CreateModel(supplierId, id, source, d, catalog, revisionId) => Create(db, supplierId, id, source, d, catalog, revisionId)
    case CreateModelOnce(supplierId, id, source, d, catalog, revisionId, key, requestHash) =>
      CreateIdempotent(db, supplierId, id, source, d, catalog, revisionId, key, requestHash)
    case ReviseModel(id, d, catalog, revision, acknowledged, revisionId) =>
      Revise(db, id, d, catalog, revision, acknowledged, revisionId)
    case SetModelEnabled(id, enabled, catalog, revision) => SetEnabled(db, id, enabled, catalog, revision)
    case DeleteModel(id, catalog, revision) => Delete(db, id, catalog, revision)
    case RemoveModel(id, catalog, revision) => Remove(db, id, catalog, revision)
    case ArchiveModel(id, catalog, revision) => Archive(db, id, catalog, revision)
    case RebindProject(project, defaults, overrides, capabilities, expected) =>
      Rebind(db, project, defaults, overrides, capabilities, expected)
    case RecordSnapshot(hash, id, revisionId) => AddSnapshot(db, hash, id, revisionId)
    case RecordTestRun(testRun, id) => AddTestRun(db, testRun, id)
  }

  lemma CreateKeepsInvariant(db: Db, supplierId: string, id: string, source: Source, d: Definition, catalog: int, revisionId: string)
    requires CatalogueInvariant(db) && Create(db, supplierId, id, source, d, catalog, revisionId).Ok?
    ensures CatalogueInvariant(Create(db, supplierId, id, source, d, catalog, revisionId).value)
    ensures id in Create(db, supplierId, id, source, d, catalog, revisionId).value.models
  {
    AddModelKeepsInvariant(db, id, supplierId, source, revisionId, d);
    BumpKeepsInvariant(AddModel(db, id, supplierId, source, revisionId, d), supplierId);
  }

  /** Tables the catalogue rows do not depend on. */
  lemma OtherTablesKeepInvariant(db: Db, after: Db)
    requires CatalogueInvariant(db) && ReferencesLive(after)
    requires after.suppliers == db.suppliers && after.models == db.models && after.revisions == db.revisions
    ensures CatalogueInvariant(after)
  {
    assert forall m :: NameOf(after, m) == NameOf(db, m);
  }

  lemma AllNewOverridesLive(db: Db, project: string, overrides: map<string, string>)
    requires forall q :: q in db.overrides ==> db.overrides[q] in db.models
    requires forall q :: q in overrides ==> overrides[q] in db.models
    ensures forall o :: o in NewOverrides(db.overrides, project, overrides) ==> NewOverrides(db.overrides, project, overrides)[o] in db.models
  {
  }

  lemma AcceptedAreLive(db: Db, defaults: Binding, overrides: map<string, string>, capabilities: map<string, Capability>)
    requires BindingsAccepted(db, defaults, overrides, capabilities)
    ensures forall q :: q in overrides ==> overrides[q] in db.models
    ensures forall m :: BindingNames(defaults, m) ==> m in db.models
  {
  }

  lemma RebindKeepsInvariant(db: Db, project: string, defaults: Binding, overrides: map<string, string>,
                             capabilities: map<string, Capability>, expected: int)
    requires CatalogueInvariant(db) && Rebind(db, project, defaults, overrides, capabilities, expected).Ok?
    ensures CatalogueInvariant(Rebind(db, project, defaults, overrides, capabilities, expected).value)
  {
    var after := Rebind(db, project, defaults, overrides, capabilities, expected).value;
    AcceptedAreLive(db, defaults, overrides, capabilities);
    AllNewOverridesLive(db, project, overrides);
    BindingReplaced(db, after, project, defaults.(revision := expected + 1));
    OtherTablesKeepInvariant(db, after);
  }

  lemma BindingReplaced(db: Db, after: Db, project: string, b: Binding)
    requires ReferencesLive(db) && after.models == db.models && after.revisions == db.revisions
    requires after.snapshots == db.snapshots && after.testRuns == db.testRuns && after.requests == db.requests
    requires after.bindings == db.bindings[project := b]
    requires forall m :: BindingNames(b, m) ==> m in db.models
    requires forall o :: o in after.overrides ==> after.overrides[o] in db.models
    ensures ReferencesLive(after)
  {
  }

  /** The common end of every call that changes one model. */
  lemma TouchBumpKeepsInvariant(db: Db, id: string, enabled: bool, archived: bool)
    requires CatalogueInvariant(db) && id in db.models
    requires var d := db.revisions[db.models[id].current].definition;
             enabled && !db.models[id].enabled ==>
               !NameTaken(db, Name(db.models[id].supplierId, d.capability, d.name), Some(id))
    ensures CatalogueInvariant(Bump(Touch(db, id, enabled, archived), db.models[id].supplierId))
  {
    TouchKeepsInvariant(db, id, enabled, archived);
    BumpKeepsInvariant(Touch(db, id, enabled, archived), db.models[id].supplierId);
  }

  lemma DropBumpKeepsInvariant(db: Db, id: string)
    requires CatalogueInvariant(db) && id in db.models
    requires BindingCount(db, id) == 0 && SnapshotCount(db, id) == 0 && !ForeignKeyHolds(db, id)
    ensures CatalogueInvariant(Bump(DropModel(db, id), db.models[id].supplierId))
  {
    DropModelKeepsInvariant(db, id);
    BumpKeepsInvariant(DropModel(db, id), db.models[id].supplierId);
  }

  lemma CreateOnceKeepsInvariant(db: Db, op: Op)
    requires CatalogueInvariant(db) && op.CreateModelOnce? && Effect(db, op).Ok?
    ensures CatalogueInvariant(Effect(db, op).value)
  {
    if (op.supplierId, op.key) !in db.requests {
      var created := Create(db, op.supplierId, op.id, op.source, op.d, op.catalog, op.revisionId);
      CreateKeepsInvariant(db, op.supplierId, op.id, op.source, op.d, op.catalog, op.revisionId);
      OtherTablesKeepInvariant(created.value, Effect(db, op).value);
    }
  }

  lemma ReviseKeepsInvariant(db: Db, op: Op)
    requires CatalogueInvariant(db) && op.ReviseModel? && Effect(db, op).Ok?
    ensures CatalogueInvariant(Effect(db, op).value)
  {
    AddRevisionKeepsInvariant(db, op.id, op.revisionId, op.d, db.models[op.id].enabled);
    BumpKeepsInvariant(AddRevision(db, op.id, op.revisionId, op.d, db.models[op.id].enabled), db.models[op.id].supplierId);
  }

  lemma RemovalKeepsInvariant(db: Db, op: Op)
    requires CatalogueInvariant(db) && (op.DeleteModel? || op.RemoveModel? || op.ArchiveModel?) && Effect(db, op).Ok?
    ensures CatalogueInvariant(Effect(db, op).value)
  {
    if !op.DeleteModel? { TouchBumpKeepsInvariant(db, op.id, false, true); }
    if BindingCount(db, op.id) == 0 && SnapshotCount(db, op.id) == 0 && !ForeignKeyHolds(db, op.id) {
      DropBumpKeepsInvariant(db, op.id);
    }
  }

  lemma AddSnapshotKeepsReferences(db: Db, hash: string, id: string, revisionId: string)
    requires ReferencesLive(db) && AddSnapshot(db, hash, id, revisionId).Ok?
    ensures ReferencesLive(AddSnapshot(db, hash, id, revisionId).value)
  {
  }

  lemma AddSnapshotKeepsInvariant(db: Db, hash: string, id: string, revisionId: string)
    requires CatalogueInvariant(db) && AddSnapshot(db, hash, id, revisionId).Ok?
    ensures CatalogueInvariant(AddSnapshot(db, hash, id, revisionId).value)
  {
    AddSnapshotKeepsReferences(db, hash, id, revisionId);
    OtherTablesKeepInvariant(db, AddSnapshot(db, hash, id, revisionId).value);
  }

  lemma AddTestRunKeepsInvariant(db: Db, testRun: string, id: string)
    requires CatalogueInvariant(db) && AddTestRun(db, testRun, id).Ok?
    ensures CatalogueInvariant(AddTestRun(db, testRun, id).value)
  {
    OtherTablesKeepInvariant(db, AddTestRun(db, testRun, id).value);
  }

  lemma EffectKeepsInvariant(db: Db, op: Op)
    requires CatalogueInvariant(db) && Effect(db, op).Ok?
    ensures CatalogueInvariant(Effect(db, op).value)
  {
    match op
    case CreateModel(supplierId, id, source, d, catalog, revisionId) =>
      CreateKeepsInvariant(db, supplierId, id, source, d, catalog, revisionId);
    case CreateModelOnce(_, _, _, _, _, _, _, _) => CreateOnceKeepsInvariant(db, op);
    case ReviseModel(_, _, _, _, _, _) => ReviseKeepsInvariant(db, op);
    case SetModelEnabled(id, enabled, _, _) => TouchBumpKeepsInvariant(db, id, enabled, db.models[id].archived);
    case RebindProject(project, defaults, overrides, capabilities, expected) =>
      RebindKeepsInvariant(db, project, defaults, overrides, capabilities, expected);
    case RecordSnapshot(hash, id, revisionId) => AddSnapshotKeepsInvariant(db, hash, id, revisionId);
    case RecordTestRun(testRun, id) => AddTestRunKeepsInvariant(db, testRun, id);
    case _ => RemovalKeepsInvariant(db, op);
  }

  /** The supplier whose catalogue a call works on. */
  function SupplierOf(db: Db, op: Op): string {
    match op
    case CreateModel(supplierId, _, _, _, _, _) => supplierId
    case CreateModelOnce(supplierId, _, _, _, _, _, _, _) => supplierId
    case RebindProject(_, _, _, _, _) => ""
    case _ => if op.id in db.models then db.models[op.id].supplierId else ""
  }

  predicate Bumped(db: Db, after: Db, supplierId: string) {
    && after.models != db.models && supplierId in db.suppliers
    && after.suppliers == db.suppliers[supplierId := db.suppliers[supplierId] + 1]
  }

  lemma RowChangeBumps(db: Db, changed: Db, id: string, supplierId: string)
    requires supplierId in db.suppliers && changed.suppliers == db.suppliers
    requires (id in db.models) != (id in changed.models)
          || (id in db.models && changed.models[id].revision != db.models[id].revision)
    ensures Bumped(db, Bump(changed, supplierId), supplierId)
  {
  }

  /** No model and no catalogue revision changed, or one model did and its supplier's revision rose by one. */
  ghost predicate BumpedWithChange(db: Db, after: Db, supplierId: string) {
    || (after.models == db.models && after.suppliers == db.suppliers && after.revisions == db.revisions)
    || Bumped(db, after, supplierId)
  }

  lemma CreationBumps(db: Db, op: Op)
    requires (op.CreateModel? || op.CreateModelOnce?) && Effect(db, op).Ok?
    ensures BumpedWithChange(db, Effect(db, op).value, SupplierOf(db, op))
  {
  }

  lemma UpdateBumps(db: Db, op: Op)
    requires RowsLinked(db) && (op.ReviseModel? || op.SetModelEnabled?) && Effect(db, op).Ok?
    ensures BumpedWithChange(db, Effect(db, op).value, SupplierOf(db, op))
  {
    if op.ReviseModel? {
      RowChangeBumps(db, AddRevision(db, op.id, op.revisionId, op.d, db.models[op.id].enabled), op.id, SupplierOf(db, op));
    } else {
      RowChangeBumps(db, Touch(db, op.id, op.enabled, db.models[op.id].archived), op.id, SupplierOf(db, op));
    }
  }

  lemma RemovalBumps(db: Db, op: Op)
    requires RowsLinked(db) && (op.DeleteModel? || op.RemoveModel? || op.ArchiveModel?) && Effect(db, op).Ok?
    ensures BumpedWithChange(db, Effect(db, op).value, SupplierOf(db, op))
  {
    RowChangeBumps(db, DropModel(db, op.id), op.id, SupplierOf(db, op));
    RowChangeBumps(db, Touch(db, op.id, false, true), op.id, SupplierOf(db, op));
  }

  /** Each changing call raises exactly one catalogue revision by exactly one. */
  lemma ChangeBumpsOnce(db: Db, op: Op)
    requires RowsLinked(db) && Effect(db, op).Ok?
    ensures BumpedWithChange(db, Effect(db, op).value, SupplierOf(db, op))
  {
    if op.CreateModel? || op.CreateModelOnce? { CreationBumps(db, op); }
    else if op.ReviseModel? || op.SetModelEnabled? { UpdateBumps(db, op); }
    else if op.DeleteModel? || op.RemoveModel? || op.ArchiveModel? { RemovalBumps(db, op); }
  }
}
