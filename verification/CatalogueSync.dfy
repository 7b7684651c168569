/** Synchronising a supplier's built-in models with its manifest
    (ai_drama_web/store.py, _sync_manifest_models_locked). */
module CatalogueSync {
  import opened Wrappers
  import opened Catalogue

  /** A declaration with its resolved model id; no definition stands for an unknown capability. */
  datatype Declaration = Declaration(id: string, definition: Option<Definition>, freshRevisionId: string)

  predicate Invalid(d: Declaration) {
    d.definition.None? || d.definition.value.name == ""
  }

  predicate Matches(db: Db, id: string, d: Definition) {
    id in db.models && db.models[id].current in db.revisions && db.revisions[db.models[id].current].definition == d
  }

  /** One round of the declaration loop, and whether it changed a row. */
  function SyncOne(db: Db, supplierId: string, d: Declaration): Result<(Db, bool), CatalogueError> {
    if Invalid(d) then Err(InvalidDeclaration)
    else
      var def := d.definition.value;
      if NameTaken(db, Name(supplierId, def.capability, def.name), Some(d.id)) then Err(NameConflict)
      else if d.id !in db.models then
        if supplierId !in db.suppliers || d.freshRevisionId in db.revisions then Err(IntegrityError)
        else Ok((AddModel(db, d.id, supplierId, BuiltIn, d.freshRevisionId, def), true))
      else if db.models[d.id].source != BuiltIn then Err(IdentityConflict)
      else if Matches(db, d.id, def) && db.models[d.id].enabled then Ok((db, false))
      else if d.freshRevisionId in db.revisions then Err(IntegrityError)
      else Ok((AddRevision(db, d.id, d.freshRevisionId, def, true), true))
  }

  function SyncAll(db: Db, supplierId: string, ds: seq<Declaration>): Result<(Db, bool), CatalogueError> {
    if ds == [] then Ok((db, false))
    else
      match SyncAll(db, supplierId, ds[..|ds| - 1])
      case Err(e) => Err(e)
      case Ok((mid, changed)) =>
        match SyncOne(mid, supplierId, ds[|ds| - 1])
        case Err(e) => Err(e)
        case Ok((after, more)) => Ok((after, changed || more))
  }

  predicate Declared(ds: seq<Declaration>, id: string) {
    exists i :: 0 <= i < |ds| && ds[i].id == id
  }

  /** A listed (not archived) built-in model that the manifest no longer declares. */
  predicate Stale(model: Model, supplierId: string, declared: bool) {
    model.supplierId == supplierId && !model.archived && model.source == BuiltIn && !declared && model.enabled
  }

  function RetiredRow(model: Model, supplierId: string, declared: bool): Model {
    if Stale(model, supplierId, declared) then model.(enabled := false, revision := model.revision + 1) else model
  }

  predicate Retiring(db: Db, supplierId: string, ds: seq<Declaration>, m: string) {
    m in db.models && Stale(db.models[m], supplierId, Declared(ds, m))
  }

  function Retired(db: Db, supplierId: string, ds: seq<Declaration>): Db {
    db.(models := map m | m in db.models :: RetiredRow(db.models[m], supplierId, Declared(ds, m)))
  }

  predicate AnyRetiring(db: Db, supplierId: string, ds: seq<Declaration>) {
    exists m :: m in db.models && Retiring(db, supplierId, ds, m)
  }

  function Sync(db: Db, supplierId: string, ds: seq<Declaration>): Result<Db, CatalogueError> {
    match SyncAll(db, supplierId, ds)
    case Err(e) => Err(e)
    case Ok((mid, changed)) =>
      var after := Retired(mid, supplierId, ds);
      Ok(if changed || AnyRetiring(mid, supplierId, ds) then Bump(after, supplierId) else after)
  }

  // ---------- what the declaration loop leaves ----------

  predicate DistinctIds(ds: seq<Declaration>) {
    forall i, j :: 0 <= i < j < |ds| ==> ds[i].id != ds[j].id
  }

  /** No declared id names a model of another supplier. */
  predicate Owned(db: Db, supplierId: string, ds: seq<Declaration>) {
    forall i :: 0 <= i < |ds| && ds[i].id in db.models ==> db.models[ds[i].id].supplierId == supplierId
  }

  /** What one round may touch: the declared model, a fresh revision row, nothing else. */
  ghost predicate TouchesOnly(db: Db, after: Db, id: string) {
    && after == db.(models := after.models, revisions := after.revisions)
    && after.models.Keys == db.models.Keys + {id}
    && (forall m :: m in db.models && m != id ==> after.models[m] == db.models[m])
    && (id in db.models ==>
          && after.models[id].supplierId == db.models[id].supplierId && after.models[id].source == db.models[id].source
          && after.models[id].archived == db.models[id].archived)
    && (forall r :: r in db.revisions ==> r in after.revisions && after.revisions[r] == db.revisions[r])
  }

  ghost predicate InForce(db: Db, d: Declaration) {
    && d.definition.Some? && Matches(db, d.id, d.definition.value)
    && db.models[d.id].enabled && db.models[d.id].source == BuiltIn
  }

  lemma AddModelTouches(db: Db, id: string, supplierId: string, revisionId: string, d: Definition)
    requires id !in db.models && revisionId !in db.revisions
    ensures var after := AddModel(db, id, supplierId, BuiltIn, revisionId, d);
            && TouchesOnly(db, after, id) && Matches(after, id, d) && after.models[id].supplierId == supplierId
            && after.models[id].enabled && after.models[id].source == BuiltIn
  {
  }

  lemma AddRevisionTouches(db: Db, id: string, revisionId: string, d: Definition)
    requires id in db.models && revisionId !in db.revisions
    ensures var after := AddRevision(db, id, revisionId, d, true);
            && TouchesOnly(db, after, id) && Matches(after, id, d)
            && after.models[id].enabled && after.models[id].source == db.models[id].source
  {
  }

  lemma SyncOneResult(db: Db, supplierId: string, d: Declaration)
    requires SyncOne(db, supplierId, d).Ok?
    ensures var (after, changed) := SyncOne(db, supplierId, d).value;
            && InForce(after, d) && TouchesOnly(db, after, d.id)
            && (d.id !in db.models ==> after.models[d.id].supplierId == supplierId)
            && (!changed ==> after == db)
    ensures d.id in db.models ==> db.models[d.id].source == BuiltIn
  {
    if d.id !in db.models {
      AddModelTouches(db, d.id, supplierId, d.freshRevisionId, d.definition.value);
    } else if SyncOne(db, supplierId, d).value.1 {
      AddRevisionTouches(db, d.id, d.freshRevisionId, d.definition.value);
    } else {
      assert db.models.Keys + {d.id} == db.models.Keys;
    }
  }

  lemma SyncOneKeepsInvariant(db: Db, supplierId: string, d: Declaration)
    requires CatalogueInvariant(db) && SyncOne(db, supplierId, d).Ok?
    requires d.id in db.models ==> db.models[d.id].supplierId == supplierId
    ensures CatalogueInvariant(SyncOne(db, supplierId, d).value.0)
  {
    var def := d.definition.value;
    if d.id !in db.models {
      AddModelKeepsInvariant(db, d.id, supplierId, BuiltIn, d.freshRevisionId, def);
    } else if !(Matches(db, d.id, def) && db.models[d.id].enabled) {
      AddRevisionKeepsInvariant(db, d.id, d.freshRevisionId, def, true);
    }
  }

  /** What the whole loop may touch and must leave in force. */
  ghost predicate LoopOutcome(db: Db, after: Db, supplierId: string, ds: seq<Declaration>) {
    && after == db.(models := after.models, revisions := after.revisions)
    && (forall m :: m in after.models <==> m in db.models || Declared(ds, m))
    && (forall m :: m in db.models && !Declared(ds, m) ==> after.models[m] == db.models[m])
    && (forall m :: m in db.models ==>
          && after.models[m].supplierId == db.models[m].supplierId && after.models[m].source == db.models[m].source
          && after.models[m].archived == db.models[m].archived)
    && (forall m :: m in db.models && Declared(ds, m) ==> db.models[m].source == BuiltIn)
    && (forall m :: m in after.models && m !in db.models ==> after.models[m].supplierId == supplierId)
    && (forall m :: Declared(ds, m) ==> after.models[m].enabled && after.models[m].source == BuiltIn)
    && (forall r :: r in db.revisions ==> r in after.revisions && after.revisions[r] == db.revisions[r])
  }

  lemma DeclaredSplit(ds: seq<Declaration>, m: string)
    requires ds != []
    ensures Declared(ds, m) <==> Declared(ds[..|ds| - 1], m) || ds[|ds| - 1].id == m
  {
  }

  lemma LoopOutcomeExtends(db: Db, mid: Db, after: Db, supplierId: string, ds: seq<Declaration>)
    requires ds != [] && LoopOutcome(db, mid, supplierId, ds[..|ds| - 1])
    requires var d := ds[|ds| - 1];
             && InForce(after, d) && TouchesOnly(mid, after, d.id)
             && (d.id !in mid.models ==> after.models[d.id].supplierId == supplierId)
             && (d.id in mid.models ==> mid.models[d.id].source == BuiltIn)
    ensures LoopOutcome(db, after, supplierId, ds)
  {
    forall m ensures Declared(ds, m) <==> Declared(ds[..|ds| - 1], m) || ds[|ds| - 1].id == m {
      DeclaredSplit(ds, m);
    }
  }

  lemma {:induction false} SyncAllOutcome(db: Db, supplierId: string, ds: seq<Declaration>)
    requires SyncAll(db, supplierId, ds).Ok?
    ensures LoopOutcome(db, SyncAll(db, supplierId, ds).value.0, supplierId, ds)
    ensures !SyncAll(db, supplierId, ds).value.1 ==> SyncAll(db, supplierId, ds).value.0 == db
    decreases |ds|
  {
    if ds != [] {
      var front := ds[..|ds| - 1];
      SyncAllOutcome(db, supplierId, front);
      var mid := SyncAll(db, supplierId, front).value.0;
      SyncOneResult(mid, supplierId, ds[|ds| - 1]);
      LoopOutcomeExtends(db, mid, SyncAll(db, supplierId, ds).value.0, supplierId, ds);
    }
  }

  lemma {:induction false} SyncAllKeepsInvariant(db: Db, supplierId: string, ds: seq<Declaration>)
    requires CatalogueInvariant(db) && Owned(db, supplierId, ds) && SyncAll(db, supplierId, ds).Ok?
    ensures CatalogueInvariant(SyncAll(db, supplierId, ds).value.0)
    decreases |ds|
  {
    if ds != [] {
      var front, d := ds[..|ds| - 1], ds[|ds| - 1];
      SyncAllKeepsInvariant(db, supplierId, front);
      SyncAllOutcome(db, supplierId, front);
      SyncOneKeepsInvariant(SyncAll(db, supplierId, front).value.0, supplierId, d);
    }
  }

  /** With distinct ids every declared definition is in force at the end of the loop. */
  lemma {:induction false} SyncAllInForce(db: Db, supplierId: string, ds: seq<Declaration>, i: nat)
    requires SyncAll(db, supplierId, ds).Ok? && DistinctIds(ds) && i < |ds|
    ensures InForce(SyncAll(db, supplierId, ds).value.0, ds[i])
    decreases |ds|
  {
    var front, d := ds[..|ds| - 1], ds[|ds| - 1];
    var mid := SyncAll(db, supplierId, front).value.0;
    SyncOneResult(mid, supplierId, d);
    if i < |ds| - 1 {
      SyncAllInForce(db, supplierId, front, i);
      assert front[i] == ds[i] && ds[i].id != d.id;
    }
  }

  // ---------- retiring ----------

  lemma RetiredKeepsRows(db: Db, supplierId: string, ds: seq<Declaration>)
    requires RowsLinked(db)
    ensures RowsLinked(Retired(db, supplierId, ds))
  {
  }

  lemma RetiredKeepsNames(db: Db, supplierId: string, ds: seq<Declaration>)
    requires NamesUnique(db)
    ensures NamesUnique(Retired(db, supplierId, ds))
  {
  }

  lemma RetiredKeepsReferences(db: Db, supplierId: string, ds: seq<Declaration>)
    requires ReferencesLive(db)
    ensures ReferencesLive(Retired(db, supplierId, ds))
  {
  }

  lemma RetiredKeepsInvariant(db: Db, supplierId: string, ds: seq<Declaration>)
    requires CatalogueInvariant(db)
    ensures CatalogueInvariant(Retired(db, supplierId, ds))
  {
    RetiredKeepsRows(db, supplierId, ds);
    RetiredKeepsNames(db, supplierId, ds);
    RetiredKeepsReferences(db, supplierId, ds);
  }

  /** A successful sync is the loop's state with the undeclared models retired, bumped or not. */
  lemma SyncParts(db: Db, supplierId: string, ds: seq<Declaration>)
    requires Sync(db, supplierId, ds).Ok?
    ensures SyncAll(db, supplierId, ds).Ok?
    ensures var retired := Retired(SyncAll(db, supplierId, ds).value.0, supplierId, ds);
            Sync(db, supplierId, ds).value == retired || Sync(db, supplierId, ds).value == Bump(retired, supplierId)
  {
  }

  // ---------- main results ----------

  /** Sync keeps the catalogue invariant when no declared id belongs to another supplier. */
  lemma SyncKeepsInvariant(db: Db, supplierId: string, ds: seq<Declaration>)
    requires CatalogueInvariant(db) && Owned(db, supplierId, ds) && Sync(db, supplierId, ds).Ok?
    ensures CatalogueInvariant(Sync(db, supplierId, ds).value)
  {
    SyncParts(db, supplierId, ds);
    SyncAllKeepsInvariant(db, supplierId, ds);
    RetiredKeepsInvariant(SyncAll(db, supplierId, ds).value.0, supplierId, ds);
    BumpKeepsInvariant(Retired(SyncAll(db, supplierId, ds).value.0, supplierId, ds), supplierId);
  }

  /** The enabled built-in models of the supplier are exactly the declared ids. */
  ghost predicate ExactCatalogue(db: Db, supplierId: string, ds: seq<Declaration>) {
    forall m :: EnabledBuiltIn(db, supplierId, m) <==> Declared(ds, m)
  }

  predicate EnabledBuiltIn(db: Db, supplierId: string, m: string) {
    m in db.models && db.models[m].supplierId == supplierId && db.models[m].source == BuiltIn && db.models[m].enabled
  }

  /** An archived built-in that was enabled again and is not declared: the retiring loop does not list it. */
  predicate HiddenEnabled(db: Db, supplierId: string, ds: seq<Declaration>, m: string) {
    EnabledBuiltIn(db, supplierId, m) && db.models[m].archived && !Declared(ds, m)
  }

  predicate NoneHidden(db: Db, supplierId: string, ds: seq<Declaration>) {
    forall m :: m in db.models ==> !HiddenEnabled(db, supplierId, ds, m)
  }

  /** A declared model is enabled, built in, and the supplier's unless another supplier had it already. */
  ghost predicate DeclaredModel(db: Db, after: Db, supplierId: string, m: string) {
    && m in after.models && after.models[m].enabled && after.models[m].source == BuiltIn
    && (after.models[m].supplierId == supplierId <==> m !in db.models || db.models[m].supplierId == supplierId)
  }

  /** An undeclared model is left alone unless it is retired. */
  ghost predicate UndeclaredModel(db: Db, after: Db, supplierId: string, ds: seq<Declaration>, m: string) {
    && (m in after.models <==> m in db.models)
    && (m in db.models ==>
          after.models[m] == if Retiring(db, supplierId, ds, m)
                             then db.models[m].(enabled := false, revision := db.models[m].revision + 1)
                             else db.models[m])
  }

  lemma LoopModels(db: Db, mid: Db, supplierId: string, ds: seq<Declaration>, m: string)
    requires LoopOutcome(db, mid, supplierId, ds)
    ensures Declared(ds, m) ==> DeclaredModel(db, Retired(mid, supplierId, ds), supplierId, m)
    ensures !Declared(ds, m) ==> UndeclaredModel(db, Retired(mid, supplierId, ds), supplierId, ds, m)
  {
  }

  lemma SyncModels(db: Db, supplierId: string, ds: seq<Declaration>, m: string)
    requires Sync(db, supplierId, ds).Ok?
    ensures Declared(ds, m) ==> DeclaredModel(db, Sync(db, supplierId, ds).value, supplierId, m)
    ensures !Declared(ds, m) ==> UndeclaredModel(db, Sync(db, supplierId, ds).value, supplierId, ds, m)
  {
    SyncParts(db, supplierId, ds);
    SyncAllOutcome(db, supplierId, ds);
    LoopModels(db, SyncAll(db, supplierId, ds).value.0, supplierId, ds, m);
  }

  /** A successful sync leaves exactly the declared ids enabled if and only if no declared id belonged to
      another supplier and no archived built-in outside the manifest was enabled. */
  lemma SyncIsExactIff(db: Db, supplierId: string, ds: seq<Declaration>)
    requires Sync(db, supplierId, ds).Ok?
    ensures ExactCatalogue(Sync(db, supplierId, ds).value, supplierId, ds)
       <==> Owned(db, supplierId, ds) && NoneHidden(db, supplierId, ds)
  {
    var after := Sync(db, supplierId, ds).value;
    if Owned(db, supplierId, ds) && NoneHidden(db, supplierId, ds) {
      forall m ensures EnabledBuiltIn(after, supplierId, m) <==> Declared(ds, m) {
        SyncModels(db, supplierId, ds, m);
        if m in db.models && !Declared(ds, m) { assert !HiddenEnabled(db, supplierId, ds, m); }
        if Declared(ds, m) {
          var i :| 0 <= i < |ds| && ds[i].id == m;
        }
      }
    }
    if ExactCatalogue(after, supplierId, ds) {
      forall i | 0 <= i < |ds| && ds[i].id in db.models ensures db.models[ds[i].id].supplierId == supplierId {
        assert Declared(ds, ds[i].id);
        assert EnabledBuiltIn(after, supplierId, ds[i].id);
        SyncModels(db, supplierId, ds, ds[i].id);
      }
      forall m | m in db.models ensures !HiddenEnabled(db, supplierId, ds, m) {
        SyncModels(db, supplierId, ds, m);
        assert EnabledBuiltIn(after, supplierId, m) <==> Declared(ds, m);
      }
    }
  }

  /** With distinct ids every declared definition is the current one of its model. */
  lemma SyncInstallsDefinitions(db: Db, supplierId: string, ds: seq<Declaration>, i: nat)
    requires Sync(db, supplierId, ds).Ok? && DistinctIds(ds) && i < |ds|
    ensures InForce(Sync(db, supplierId, ds).value, ds[i])
  {
    SyncAllInForce(db, supplierId, ds, i);
    assert Declared(ds, ds[i].id);
  }

  /** Overlays, old revision rows and every table but models and revisions stay as they were. */
  lemma SyncFrame(db: Db, supplierId: string, ds: seq<Declaration>)
    requires Sync(db, supplierId, ds).Ok?
    ensures var after := Sync(db, supplierId, ds).value;
            && after == db.(models := after.models, revisions := after.revisions, suppliers := after.suppliers)
            && (forall r :: r in db.revisions ==> r in after.revisions && after.revisions[r] == db.revisions[r])
            && (forall m :: m in db.models && db.models[m].source == Overlay ==>
                  m in after.models && after.models[m] == db.models[m])
  {
    SyncParts(db, supplierId, ds);
    SyncAllOutcome(db, supplierId, ds);
    forall m | m in db.models && db.models[m].source == Overlay ensures UndeclaredModel(db, Sync(db, supplierId, ds).value, supplierId, ds, m) {
      SyncModels(db, supplierId, ds, m);
    }
  }

  lemma LoopKeepsSuppliers(db: Db, supplierId: string, ds: seq<Declaration>)
    requires SyncAll(db, supplierId, ds).Ok?
    ensures var (mid, changed) := SyncAll(db, supplierId, ds).value; mid.suppliers == db.suppliers && (!changed ==> mid == db)
  {
    SyncAllOutcome(db, supplierId, ds);
  }

  /** The catalogue revision rises by one when anything changed, and otherwise the state is the same. */
  lemma SyncBumpsAtMostOnce(db: Db, supplierId: string, ds: seq<Declaration>)
    requires Sync(db, supplierId, ds).Ok? && supplierId in db.suppliers
    ensures var after := Sync(db, supplierId, ds).value;
            after == db || after.suppliers == db.suppliers[supplierId := db.suppliers[supplierId] + 1]
  {
    LoopKeepsSuppliers(db, supplierId, ds);
    var (mid, changed) := SyncAll(db, supplierId, ds).value;
    if !changed && !AnyRetiring(mid, supplierId, ds) {
      StableSync(db, supplierId, ds);
    }
  }

  /** The supplier whose model a declaration updates: the owner of its id, if there is one. */
  function OwnerOf(db: Db, supplierId: string, d: Declaration): string {
    if d.id in db.models then db.models[d.id].supplierId else supplierId
  }

  predicate DeclaresName(db: Db, supplierId: string, d: Declaration, name: Option<Name>) {
    d.definition.Some? && name == Some(Name(OwnerOf(db, supplierId, d), d.definition.value.capability, d.definition.value.name))
  }

  /** No two declarations give one owner the same name, and none gives a name that an undeclared model holds. */
  predicate NamesApart(db: Db, supplierId: string, ds: seq<Declaration>) {
    && (forall i, j :: 0 <= i < j < |ds| && ds[i].definition.Some? && ds[j].definition.Some? ==>
          var d, e := ds[i].definition.value, ds[j].definition.value;
          OwnerOf(db, supplierId, ds[i]) == OwnerOf(db, supplierId, ds[j]) && d.capability == e.capability ==> d.name != e.name)
    && forall i, m :: 0 <= i < |ds| && m in db.models && !Declared(ds, m) ==> !DeclaresName(db, supplierId, ds[i], NameOf(db, m))
  }

  /** Everything in the catalogue invariant but the names. */
  ghost predicate LinksHold(db: Db) {
    RowsLinked(db) && NumbersUnique(db) && ReferencesLive(db)
  }

  lemma SyncOneKeepsLinks(db: Db, supplierId: string, d: Declaration)
    requires LinksHold(db) && SyncOne(db, supplierId, d).Ok?
    ensures LinksHold(SyncOne(db, supplierId, d).value.0)
  {
    var def := d.definition.value;
    if d.id !in db.models {
      AddModelKeepsRows(db, d.id, supplierId, BuiltIn, d.freshRevisionId, def);
      AddModelKeepsNumbers(db, d.id, supplierId, BuiltIn, d.freshRevisionId, def);
      AddModelKeepsReferences(db, d.id, supplierId, BuiltIn, d.freshRevisionId, def);
    } else if !(Matches(db, d.id, def) && db.models[d.id].enabled) {
      AddRevisionKeepsRows(db, d.id, d.freshRevisionId, def, true);
      AddRevisionKeepsReferences(db, d.id, d.freshRevisionId, def, true);
    }
  }

  lemma {:induction false} SyncAllKeepsLinks(db: Db, supplierId: string, ds: seq<Declaration>)
    requires LinksHold(db) && SyncAll(db, supplierId, ds).Ok?
    ensures LinksHold(SyncAll(db, supplierId, ds).value.0)
    decreases |ds|
  {
    if ds != [] {
      SyncAllKeepsLinks(db, supplierId, ds[..|ds| - 1]);
      SyncOneKeepsLinks(SyncAll(db, supplierId, ds[..|ds| - 1]).value.0, supplierId, ds[|ds| - 1]);
    }
  }

  lemma BumpKeepsRows(db: Db, supplierId: string)
    requires RowsLinked(db)
    ensures RowsLinked(Bump(db, supplierId))
  {
  }

  lemma BumpKeepsNumbers(db: Db, supplierId: string)
    requires NumbersUnique(db)
    ensures NumbersUnique(Bump(db, supplierId))
  {
  }

  lemma BumpKeepsReferences(db: Db, supplierId: string)
    requires ReferencesLive(db)
    ensures ReferencesLive(Bump(db, supplierId))
  {
  }

  /** The parts of the invariant that do not speak of names survive every successful sync. */
  lemma SyncKeepsLinks(db: Db, supplierId: string, ds: seq<Declaration>)
    requires LinksHold(db) && Sync(db, supplierId, ds).Ok?
    ensures LinksHold(Sync(db, supplierId, ds).value)
  {
    SyncParts(db, supplierId, ds);
    SyncAllKeepsLinks(db, supplierId, ds);
    var mid := SyncAll(db, supplierId, ds).value.0;
    RetiredKeepsRows(mid, supplierId, ds);
    RetiredKeepsReferences(mid, supplierId, ds);
    BumpKeepsRows(Retired(mid, supplierId, ds), supplierId);
    BumpKeepsNumbers(Retired(mid, supplierId, ds), supplierId);
    BumpKeepsReferences(Retired(mid, supplierId, ds), supplierId);
  }

  /** The name check of the loop: an undeclared model of the supplier holds no declared name. */
  lemma {:induction false} SyncAllChecksNames(db: Db, supplierId: string, ds: seq<Declaration>, i: nat, m: string)
    requires SyncAll(db, supplierId, ds).Ok? && i < |ds| && m in db.models && !Declared(ds, m)
    requires ds[i].definition.Some?
    ensures var d := ds[i].definition.value; NameOf(db, m) != Some(Name(supplierId, d.capability, d.name))
    decreases |ds|
  {
    var front := ds[..|ds| - 1];
    DeclaredSplit(ds, m);
    if i < |ds| - 1 {
      SyncAllChecksNames(db, supplierId, front, i, m);
    } else {
      SyncAllOutcome(db, supplierId, front);
      var mid := SyncAll(db, supplierId, front).value.0;
      assert NameOf(db, m).Some? ==> NameOf(mid, m) == NameOf(db, m);
    }
  }

  /** The name a model holds after a sync: the declared one, or its old one unless it was retired. */
  lemma SyncedName(db: Db, supplierId: string, ds: seq<Declaration>, i: nat)
    requires Sync(db, supplierId, ds).Ok? && DistinctIds(ds) && i < |ds|
    ensures ds[i].id in Sync(db, supplierId, ds).value.models
    ensures DeclaresName(db, supplierId, ds[i], NameOf(Sync(db, supplierId, ds).value, ds[i].id))
  {
    SyncInstallsDefinitions(db, supplierId, ds, i);
    SyncParts(db, supplierId, ds);
    SyncAllOutcome(db, supplierId, ds);
    assert Declared(ds, ds[i].id);
  }

  lemma UndeclaredName(db: Db, supplierId: string, ds: seq<Declaration>, m: string)
    requires RowsLinked(db) && Sync(db, supplierId, ds).Ok? && !Declared(ds, m)
    ensures NameOf(Sync(db, supplierId, ds).value, m) == if Retiring(db, supplierId, ds, m) then None else NameOf(db, m)
  {
    SyncModels(db, supplierId, ds, m);
    SyncFrame(db, supplierId, ds);
  }

  lemma NamesStayUnique(db: Db, supplierId: string, ds: seq<Declaration>)
    requires CatalogueInvariant(db) && DistinctIds(ds) && Sync(db, supplierId, ds).Ok? && NamesApart(db, supplierId, ds)
    ensures NamesUnique(Sync(db, supplierId, ds).value)
  {
    var after := Sync(db, supplierId, ds).value;
    forall m, n | m in after.models && n in after.models && NameOf(after, m).Some? && NameOf(after, m) == NameOf(after, n)
      ensures m == n
    {
      if Declared(ds, m) {
        ApartNamesDiffer(db, supplierId, ds, m, n);
      } else {
        ApartNamesDiffer(db, supplierId, ds, n, m);
      }
    }
  }

  lemma DeclaredNamesDiffer(db: Db, supplierId: string, ds: seq<Declaration>, i: nat, j: nat)
    requires DistinctIds(ds) && Sync(db, supplierId, ds).Ok? && NamesApart(db, supplierId, ds) && i < j < |ds|
    ensures NameOf(Sync(db, supplierId, ds).value, ds[i].id) != NameOf(Sync(db, supplierId, ds).value, ds[j].id)
  {
    SyncedName(db, supplierId, ds, i);
    SyncedName(db, supplierId, ds, j);
  }

  lemma UndeclaredNameDiffers(db: Db, supplierId: string, ds: seq<Declaration>, i: nat, n: string)
    requires RowsLinked(db) && DistinctIds(ds) && Sync(db, supplierId, ds).Ok? && NamesApart(db, supplierId, ds)
    requires i < |ds| && !Declared(ds, n)
    ensures NameOf(Sync(db, supplierId, ds).value, ds[i].id) != NameOf(Sync(db, supplierId, ds).value, n)
  {
    SyncedName(db, supplierId, ds, i);
    UndeclaredName(db, supplierId, ds, n);
    assert n in db.models ==> !DeclaresName(db, supplierId, ds[i], NameOf(db, n));
  }

  lemma ApartNamesDiffer(db: Db, supplierId: string, ds: seq<Declaration>, m: string, n: string)
    requires CatalogueInvariant(db) && DistinctIds(ds) && Sync(db, supplierId, ds).Ok? && NamesApart(db, supplierId, ds)
    requires NameOf(Sync(db, supplierId, ds).value, m).Some?
    requires NameOf(Sync(db, supplierId, ds).value, m) == NameOf(Sync(db, supplierId, ds).value, n)
    requires !Declared(ds, n) || Declared(ds, m)
    ensures m == n
  {
    if Declared(ds, m) {
      var i :| 0 <= i < |ds| && ds[i].id == m;
      if Declared(ds, n) {
        var j :| 0 <= j < |ds| && ds[j].id == n;
        if i < j { DeclaredNamesDiffer(db, supplierId, ds, i, j); }
        if j < i { DeclaredNamesDiffer(db, supplierId, ds, j, i); }
      } else {
        UndeclaredNameDiffers(db, supplierId, ds, i, n);
      }
    } else {
      UndeclaredName(db, supplierId, ds, m);
      UndeclaredName(db, supplierId, ds, n);
    }
  }

  lemma UniqueNamesWereApart(db: Db, supplierId: string, ds: seq<Declaration>)
    requires CatalogueInvariant(db) && DistinctIds(ds) && Sync(db, supplierId, ds).Ok?
    requires NamesUnique(Sync(db, supplierId, ds).value)
    ensures NamesApart(db, supplierId, ds)
  {
    var after := Sync(db, supplierId, ds).value;
    forall i | 0 <= i < |ds| ensures ds[i].id in after.models && DeclaresName(db, supplierId, ds[i], NameOf(after, ds[i].id)) {
      SyncedName(db, supplierId, ds, i);
    }
    forall i, m | 0 <= i < |ds| && m in db.models && !Declared(ds, m) ensures !DeclaresName(db, supplierId, ds[i], NameOf(db, m)) {
      SyncParts(db, supplierId, ds);
      SyncAllChecksNames(db, supplierId, ds, i, m);
      UndeclaredName(db, supplierId, ds, m);
      SyncModels(db, supplierId, ds, m);
      assert Declared(ds, ds[i].id);
    }
  }

  /** A successful sync with distinct ids keeps the catalogue invariant if and only if the names it declares
      are apart, whoever owns the declared ids. */
  lemma SyncKeepsInvariantIff(db: Db, supplierId: string, ds: seq<Declaration>)
    requires CatalogueInvariant(db) && DistinctIds(ds) && Sync(db, supplierId, ds).Ok?
    ensures CatalogueInvariant(Sync(db, supplierId, ds).value) <==> NamesApart(db, supplierId, ds)
  {
    SyncKeepsLinks(db, supplierId, ds);
    if NamesApart(db, supplierId, ds) {
      NamesStayUnique(db, supplierId, ds);
    }
    if NamesUnique(Sync(db, supplierId, ds).value) {
      UniqueNamesWereApart(db, supplierId, ds);
    }
  }

  predicate SameDeclarations(ds: seq<Declaration>, es: seq<Declaration>) {
    |ds| == |es| && forall i :: 0 <= i < |ds| ==> ds[i].id == es[i].id && ds[i].definition == es[i].definition
  }

  lemma {:induction false} SettledSync(db: Db, supplierId: string, es: seq<Declaration>)
    requires NamesUnique(db)
    requires forall i :: 0 <= i < |es| ==> !Invalid(es[i]) && InForce(db, es[i]) && db.models[es[i].id].supplierId == supplierId
    ensures SyncAll(db, supplierId, es) == Ok((db, false))
    decreases |es|
  {
    if es != [] {
      SettledSync(db, supplierId, es[..|es| - 1]);
      var e := es[|es| - 1];
      assert NameOf(db, e.id) == Some(Name(supplierId, e.definition.value.capability, e.definition.value.name));
      assert !NameTaken(db, Name(supplierId, e.definition.value.capability, e.definition.value.name), Some(e.id));
    }
  }

  lemma {:induction false} SyncedAreValid(db: Db, supplierId: string, ds: seq<Declaration>, i: nat)
    requires SyncAll(db, supplierId, ds).Ok? && i < |ds|
    ensures !Invalid(ds[i])
    decreases |ds|
  {
    if i < |ds| - 1 {
      SyncedAreValid(db, supplierId, ds[..|ds| - 1], i);
    }
  }

  /** After a sync each declaration is in force on a model of the supplier. */
  lemma SyncedInForce(db: Db, supplierId: string, ds: seq<Declaration>, i: nat)
    requires Owned(db, supplierId, ds) && DistinctIds(ds) && Sync(db, supplierId, ds).Ok? && i < |ds|
    ensures !Invalid(ds[i]) && InForce(Sync(db, supplierId, ds).value, ds[i])
    ensures Sync(db, supplierId, ds).value.models[ds[i].id].supplierId == supplierId
  {
    SyncParts(db, supplierId, ds);
    SyncedAreValid(db, supplierId, ds, i);
    SyncInstallsDefinitions(db, supplierId, ds, i);
    assert Declared(ds, ds[i].id);
    SyncModels(db, supplierId, ds, ds[i].id);
  }

  lemma NothingLeftToRetire(db: Db, supplierId: string, ds: seq<Declaration>, es: seq<Declaration>, m: string)
    requires Sync(db, supplierId, ds).Ok? && SameDeclarations(ds, es)
    ensures !Retiring(Sync(db, supplierId, ds).value, supplierId, es, m)
  {
  }

  lemma StableSync(db: Db, supplierId: string, es: seq<Declaration>)
    requires SyncAll(db, supplierId, es) == Ok((db, false)) && !AnyRetiring(db, supplierId, es)
    ensures Sync(db, supplierId, es) == Ok(db)
  {
    assert Retired(db, supplierId, es).models == db.models;
  }

  /** Repeating a sync with the same declarations, under any fresh revision ids, changes nothing. */
  lemma SyncIsIdempotent(db: Db, supplierId: string, ds: seq<Declaration>, es: seq<Declaration>)
    requires CatalogueInvariant(db) && Owned(db, supplierId, ds) && DistinctIds(ds)
    requires Sync(db, supplierId, ds).Ok? && SameDeclarations(ds, es)
    ensures Sync(Sync(db, supplierId, ds).value, supplierId, es) == Sync(db, supplierId, ds)
  {
    var after := Sync(db, supplierId, ds).value;
    SyncKeepsInvariant(db, supplierId, ds);
    forall i | 0 <= i < |es|
      ensures !Invalid(es[i]) && InForce(after, es[i]) && after.models[es[i].id].supplierId == supplierId
    {
      SyncedInForce(db, supplierId, ds, i);
    }
    SettledSync(after, supplierId, es);
    forall m | m in after.models ensures !Retiring(after, supplierId, es, m) {
      NothingLeftToRetire(db, supplierId, ds, es, m);
    }
    StableSync(after, supplierId, es);
  }

  /** One enabled built-in model, in a catalogue of one supplier. */
  function OneBuiltIn(): Db {
    Db(map["s" := 0], map["m" := Model("s", "r", BuiltIn, true, 1, false)],
       map["r" := ModelRevision("m", 1, Definition("gpt", "GPT", Text, "{}"))], map[], map[], map[], map[], map[])
  }

  lemma OneBuiltInHolds()
    ensures CatalogueInvariant(OneBuiltIn()) && BindingCount(OneBuiltIn(), "m") == 0
  {
    NothingBound(OneBuiltIn(), "m");
  }

  lemma NothingBound(db: Db, m: string)
    requires forall p :: p in db.bindings ==> !BindingNames(db.bindings[p], m)
    requires forall o :: o in db.overrides ==> db.overrides[o] != m
    ensures BindingCount(db, m) == 0
  {
  }

  /** The excluded case is reachable through the store's own calls: archive a built-in model, enable it
      again (set_supplier_model_enabled does not test archived_at), sync with a manifest without it. */
  lemma ArchivedModelEscapesSync() returns (archived: Db, enabled: Db)
    ensures CatalogueInvariant(OneBuiltIn())
    ensures Archive(OneBuiltIn(), "m", 0, 1) == Ok(archived)
    ensures SetEnabled(archived, "m", true, 1, 2) == Ok(enabled)
    ensures Sync(enabled, "s", []) == Ok(enabled) && !ExactCatalogue(enabled, "s", [])
  {
    OneBuiltInHolds();
    archived := Bump(Touch(OneBuiltIn(), "m", false, true), "s");
    assert !NameTaken(archived, Name("s", Text, "gpt"), Some("m"));
    enabled := Bump(Touch(archived, "m", true, true), "s");
    assert !AnyRetiring(enabled, "s", []);
    StableSync(enabled, "s", []);
    assert EnabledBuiltIn(enabled, "s", "m") && !Declared([], "m");
  }

  /** One enabled built-in model of supplier t, beside a supplier s without models. */
  function ForeignBuiltIn(): Db {
    OneBuiltIn().(suppliers := map["s" := 0, "t" := 0], models := map["m" := Model("t", "r", BuiltIn, true, 1, false)])
  }

  /** The other excluded case: supplier s declares an id that supplier t owns.  The sync finds that model in
      force and succeeds, and s has no model of its own. */
  lemma ForeignModelEscapesSync() returns (ds: seq<Declaration>)
    ensures CatalogueInvariant(ForeignBuiltIn()) && !Owned(ForeignBuiltIn(), "s", ds)
    ensures Sync(ForeignBuiltIn(), "s", ds) == Ok(ForeignBuiltIn()) && !ExactCatalogue(ForeignBuiltIn(), "s", ds)
  {
    var db := ForeignBuiltIn();
    var d := Declaration("m", Some(Definition("gpt", "GPT", Text, "{}")), "r2");
    ds := [d];
    assert ds[..0] == [];
    assert !NameTaken(db, Name("s", Text, "gpt"), Some("m"));
    assert SyncOne(db, "s", d) == Ok((db, false));
    assert !AnyRetiring(db, "s", ds);
    StableSync(db, "s", ds);
    assert ds[0].id == "m" && Declared(ds, "m") && !EnabledBuiltIn(db, "s", "m");
  }

  lemma ForeignBuiltInHolds()
    ensures CatalogueInvariant(ForeignBuiltIn())
  {
  }

  /** Two enabled built-in models of supplier t, beside a supplier s without models. */
  function TwoForeignBuiltIns(): Db {
    AddModel(ForeignBuiltIn(), "n", "t", BuiltIn, "q", Definition("other", "Other", Text, "{}"))
  }

  lemma TwoForeignBuiltInsHold()
    ensures CatalogueInvariant(TwoForeignBuiltIns())
  {
    ForeignBuiltInHolds();
    assert !NameTaken(ForeignBuiltIn(), Name("t", Text, "other"), Some("n"));
    AddModelKeepsInvariant(ForeignBuiltIn(), "n", "t", BuiltIn, "q", Definition("other", "Other", Text, "{}"));
  }

  /** A sync that gives a model of t the name of its other model. */
  function Renaming(): Declaration {
    Declaration("m", Some(Definition("other", "Other", Text, "{}")), "r2")
  }

  lemma RenamingSucceeds()
    ensures Sync(TwoForeignBuiltIns(), "s", [Renaming()]).Ok?
  {
    var db, d := TwoForeignBuiltIns(), Renaming();
    assert [d][..0] == [];
    assert !NameTaken(db, Name("s", Text, "other"), Some("m"));
    assert SyncOne(db, "s", d).Ok? && SyncAll(db, "s", [d]).Ok?;
  }

  lemma RenamingIsNotApart()
    ensures !NamesApart(TwoForeignBuiltIns(), "s", [Renaming()]) && !Owned(TwoForeignBuiltIns(), "s", [Renaming()])
  {
    var db, ds := TwoForeignBuiltIns(), [Renaming()];
    assert DeclaresName(db, "s", ds[0], NameOf(db, "n")) && !Declared(ds, "n");
    assert ds[0].id in db.models && db.models["m"].supplierId == "t";
  }

  /** A declared id of another supplier can also break that supplier's names: s declares t's model under the
      name of t's other model, which is free among the models of s. */
  lemma ForeignDeclarationRepeatsName() returns (ds: seq<Declaration>)
    ensures CatalogueInvariant(TwoForeignBuiltIns()) && !Owned(TwoForeignBuiltIns(), "s", ds)
    ensures Sync(TwoForeignBuiltIns(), "s", ds).Ok? && !NamesUnique(Sync(TwoForeignBuiltIns(), "s", ds).value)
  {
    TwoForeignBuiltInsHold();
    RenamingSucceeds();
    RenamingIsNotApart();
    ds := [Renaming()];
    if NamesUnique(Sync(TwoForeignBuiltIns(), "s", ds).value) {
      UniqueNamesWereApart(TwoForeignBuiltIns(), "s", ds);
    }
  }
}
