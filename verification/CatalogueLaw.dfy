/** When each catalogue call is granted and what it then writes, from the tables (ai_drama_web/store.py). */
module CatalogueLaw {
  import opened Wrappers
  import opened Catalogue
  import opened CatalogueSync

  // ---------- who holds a name, who names a model ----------

  /** Model m is enabled, belongs to the supplier, and its current revision has the capability and name. */
  predicate Holds(db: Db, m: string, supplierId: string, capability: Capability, name: string) {
    && m in db.models && db.models[m].enabled && db.models[m].supplierId == supplierId
    && db.models[m].current in db.revisions
    && db.revisions[db.models[m].current].definition.capability == capability
    && db.revisions[db.models[m].current].definition.name == name
  }

  ghost predicate HeldByAnother(db: Db, id: string, supplierId: string, d: Definition) {
    exists m :: m != id && Holds(db, m, supplierId, d.capability, d.name)
  }

  lemma NameTakenByTables(db: Db, supplierId: string, d: Definition, id: string)
    ensures NameTaken(db, Name(supplierId, d.capability, d.name), Some(id)) <==> HeldByAnother(db, id, supplierId, d)
    ensures NameTaken(db, Name(supplierId, d.capability, d.name), None)
       <==> exists m :: Holds(db, m, supplierId, d.capability, d.name)
  {
    forall m ensures Holds(db, m, supplierId, d.capability, d.name)
                <==> m in db.models && NameOf(db, m) == Some(Name(supplierId, d.capability, d.name)) {
    }
  }

  /** The invariant, in the tables' terms: an enabled model shares supplier, capability and name with no other. */
  lemma NamesUniqueByTables(db: Db)
    requires CatalogueInvariant(db)
    ensures forall m, n, supplierId, capability, name ::
              Holds(db, m, supplierId, capability, name) && Holds(db, n, supplierId, capability, name) ==> m == n
  {
    forall m, n, supplierId, capability, name
      | Holds(db, m, supplierId, capability, name) && Holds(db, n, supplierId, capability, name) ensures m == n
    {
      assert NameOf(db, m) == NameOf(db, n) == Some(Name(supplierId, capability, name));
    }
  }

  /** What names a model in force: a project's defaults, or one of its overrides. */
  datatype Referer = Defaults(project: string) | Override(project: string, operation: string)

  function Referers(db: Db, m: string): set<Referer> {
    (set p | p in db.bindings && (db.bindings[p].text == Some(m) || db.bindings[p].image == Some(m) || db.bindings[p].video == Some(m))
       :: Defaults(p))
    + (set o | o in db.overrides && db.overrides[o] == m :: Override(o.0, o.1))
  }

  lemma {:induction false} DefaultsCount(s: set<string>)
    ensures |set p | p in s :: Defaults(p)| == |s|
    decreases s
  {
    if s == {} {
      assert (set p | p in s :: Defaults(p)) == {};
    } else {
      var x :| x in s;
      DefaultsCount(s - {x});
      assert (set p | p in s :: Defaults(p)) == (set p | p in s - {x} :: Defaults(p)) + {Defaults(x)};
    }
  }

  lemma {:induction false} OverridesCount(s: set<(string, string)>)
    ensures |set o | o in s :: Override(o.0, o.1)| == |s|
    decreases s
  {
    if s == {} {
      assert (set o | o in s :: Override(o.0, o.1)) == {};
    } else {
      var x :| x in s;
      OverridesCount(s - {x});
      assert (set o | o in s :: Override(o.0, o.1)) == (set o | o in s - {x} :: Override(o.0, o.1)) + {Override(x.0, x.1)};
    }
  }

  lemma DisjointSizes<T>(a: set<T>, b: set<T>)
    requires a !! b
    ensures |a + b| == |a| + |b|
  {
  }

  lemma ReferersSplit(db: Db, m: string, ps: set<string>, os: set<(string, string)>)
    requires forall p :: p in ps <==> p in db.bindings && BindingNames(db.bindings[p], m)
    requires forall o :: o in os <==> o in db.overrides && db.overrides[o] == m
    ensures Referers(db, m) == (set p | p in ps :: Defaults(p)) + (set o | o in os :: Override(o.0, o.1))
  {
  }

  lemma SizesAdd(ps: set<string>, os: set<(string, string)>)
    ensures |(set p | p in ps :: Defaults(p)) + (set o | o in os :: Override(o.0, o.1))| == |ps| + |os|
  {
    DefaultsCount(ps);
    OverridesCount(os);
    DisjointSizes(set p | p in ps :: Defaults(p), set o | o in os :: Override(o.0, o.1));
  }

  /** The count a reviser must acknowledge is the number of referers. */
  lemma BindingCountByTables(db: Db, m: string)
    ensures BindingCount(db, m) == |Referers(db, m)|
  {
    var ps := set p | p in db.bindings && BindingNames(db.bindings[p], m);
    var os := set o | o in db.overrides && db.overrides[o] == m;
    SizesAdd(ps, os);
    ReferersSplit(db, m, ps, os);
  }

  ghost predicate InSnapshot(db: Db, m: string) {
    exists s :: s in db.snapshots && db.snapshots[s].modelId == m
  }

  lemma SnapshotCountByTables(db: Db, m: string)
    ensures SnapshotCount(db, m) == 0 <==> !InSnapshot(db, m)
  {
    var ss := set s | s in db.snapshots && db.snapshots[s].modelId == m;
    if InSnapshot(db, m) {
      var s :| s in db.snapshots && db.snapshots[s].modelId == m;
      assert s in ss;
    }
    if |ss| != 0 {
      var s :| s in ss;
    }
  }

  /** A test run of the model, or a snapshot of one of its revisions. */
  ghost predicate RowsDepend(db: Db, m: string) {
    || (exists t :: t in db.testRuns && db.testRuns[t] == m)
    || (exists s :: s in db.snapshots && db.snapshots[s].revisionId in db.revisions
                    && db.revisions[db.snapshots[s].revisionId].modelId == m)
  }

  // ---------- what a granted call writes ----------

  /** The supplier's catalogue revision is one more; only the named tables changed. */
  ghost predicate Raised(db: Db, after: Db, supplierId: string) {
    && supplierId in db.suppliers && after.suppliers == db.suppliers[supplierId := db.suppliers[supplierId] + 1]
    && after.bindings == db.bindings && after.overrides == db.overrides && after.snapshots == db.snapshots
    && after.testRuns == db.testRuns
  }

  /** The catalogue revision and the row revision the caller read are still the stored ones. */
  predicate UpToDate(db: Db, id: string, catalog: int, revision: int) {
    && id in db.models && db.models[id].revision == revision
    && db.models[id].supplierId in db.suppliers && db.suppliers[db.models[id].supplierId] == catalog
  }

  /** Creating: a known supplier at the expected revision, a free name and fresh ids; the model starts
      enabled, at revision 1, with its first revision row. */
  lemma CreateByTables(db: Db, supplierId: string, id: string, source: Source, d: Definition, catalog: int, revisionId: string)
    ensures var r := Effect(db, CreateModel(supplierId, id, source, d, catalog, revisionId));
            if supplierId !in db.suppliers then r == Err(NotFound)
            else if db.suppliers[supplierId] != catalog then r == Err(RevisionConflict)
            else if exists m :: Holds(db, m, supplierId, d.capability, d.name) then r == Err(NameConflict)
            else if id in db.models || revisionId in db.revisions then r == Err(IntegrityError)
            else
              && r.Ok? && Raised(db, r.value, supplierId) && r.value.requests == db.requests
              && r.value.models == db.models[id := Model(supplierId, revisionId, source, true, 1, false)]
              && r.value.revisions == db.revisions[revisionId := ModelRevision(id, 1, d)]
  {
    NameTakenByTables(db, supplierId, d, id);
  }

  /** Creating under a key: a stored key answers for the same request only and changes nothing; a new one
      creates and stores the key. */
  lemma CreateOnceByTables(db: Db, supplierId: string, id: string, source: Source, d: Definition, catalog: int, revisionId: string,
                           key: string, requestHash: string)
    ensures var r := Effect(db, CreateModelOnce(supplierId, id, source, d, catalog, revisionId, key, requestHash));
            var plain := Effect(db, CreateModel(supplierId, id, source, d, catalog, revisionId));
            if (supplierId, key) in db.requests then
              r == if db.requests[(supplierId, key)].requestHash == requestHash then Ok(db) else Err(RevisionConflict)
            else if plain.Err? then r == plain
            else r == Ok(plain.value.(requests := db.requests[(supplierId, key) := Request(requestHash, id)]))
  {
  }

  /** Revising: up to date, every referer acknowledged, the new name free if the model is enabled, a fresh
      revision id; the new revision is current and numbered one more. */
  lemma ReviseByTables(db: Db, id: string, d: Definition, catalog: int, revision: int, acknowledged: int, revisionId: string)
    ensures var r := Effect(db, ReviseModel(id, d, catalog, revision, acknowledged, revisionId));
            if id !in db.models then r == Err(NotFound)
            else if !UpToDate(db, id, catalog, revision) || |Referers(db, id)| != acknowledged then r == Err(RevisionConflict)
            else if db.models[id].enabled && HeldByAnother(db, id, db.models[id].supplierId, d) then r == Err(NameConflict)
            else if revisionId in db.revisions then r == Err(IntegrityError)
            else
              var m := db.models[id];
              && r.Ok? && Raised(db, r.value, m.supplierId) && r.value.requests == db.requests
              && r.value.models == db.models[id := Model(m.supplierId, revisionId, m.source, m.enabled, revision + 1, m.archived)]
              && r.value.revisions == db.revisions[revisionId := ModelRevision(id, revision + 1, d)]
  {
    BindingCountByTables(db, id);
    if id in db.models { NameTakenByTables(db, db.models[id].supplierId, d, id); }
  }

  /** The flag and the row revision of the model changed. */
  ghost predicate Flagged(db: Db, after: Db, id: string, enabled: bool) {
    && id in db.models && after.requests == db.requests && after.revisions == db.revisions
    && after.models == db.models[id := Model(db.models[id].supplierId, db.models[id].current, db.models[id].source, enabled,
                                             db.models[id].revision + 1, db.models[id].archived)]
  }

  /** Enabling needs a current revision whose name is free, and up-to-date revisions. */
  lemma EnableByTables(db: Db, id: string, catalog: int, revision: int)
    ensures var r := Effect(db, SetModelEnabled(id, true, catalog, revision));
            if id !in db.models || db.models[id].current !in db.revisions then r == Err(NotFound)
            else if HeldByAnother(db, id, db.models[id].supplierId, db.revisions[db.models[id].current].definition)
            then r == Err(NameConflict)
            else if !UpToDate(db, id, catalog, revision) then r == Err(RevisionConflict)
            else r.Ok? && Raised(db, r.value, db.models[id].supplierId) && Flagged(db, r.value, id, true)
  {
    if id in db.models && db.models[id].current in db.revisions { CurrentNameByTables(db, id); }
  }

  /** Disabling needs up-to-date revisions only. */
  lemma DisableByTables(db: Db, id: string, catalog: int, revision: int)
    ensures var r := Effect(db, SetModelEnabled(id, false, catalog, revision));
            if id !in db.models then r == Err(NotFound)
            else if !UpToDate(db, id, catalog, revision) then r == Err(RevisionConflict)
            else r.Ok? && Raised(db, r.value, db.models[id].supplierId) && Flagged(db, r.value, id, false)
  {
  }

  lemma CurrentNameByTables(db: Db, id: string)
    requires id in db.models && db.models[id].current in db.revisions
    ensures CurrentNameTaken(db, id)
       <==> HeldByAnother(db, id, db.models[id].supplierId, db.revisions[db.models[id].current].definition)
  {
    NameTakenByTables(db, db.models[id].supplierId, db.revisions[db.models[id].current].definition, id);
  }

  /** The model, its revisions and its creation keys are gone, nothing else is. */
  ghost predicate Dropped(db: Db, after: Db, id: string) {
    && after.models.Keys == db.models.Keys - {id} && (forall m :: m in after.models ==> after.models[m] == db.models[m])
    && (forall v :: v in after.revisions <==> v in db.revisions && db.revisions[v].modelId != id)
    && (forall v :: v in after.revisions ==> after.revisions[v] == db.revisions[v])
    && (forall q :: q in after.requests <==> q in db.requests && db.requests[q].modelId != id)
    && (forall q :: q in after.requests ==> after.requests[q] == db.requests[q])
  }

  ghost predicate ArchivedNow(db: Db, after: Db, id: string) {
    && id in db.models && after.requests == db.requests && after.revisions == db.revisions
    && after.models == db.models[id := Model(db.models[id].supplierId, db.models[id].current, db.models[id].source, false,
                                             db.models[id].revision + 1, true)]
  }

  lemma ReferersNone(db: Db, id: string)
    ensures BindingCount(db, id) == 0 <==> Referers(db, id) == {}
  {
    BindingCountByTables(db, id);
  }

  lemma DeleteByTables(db: Db, id: string, catalog: int, revision: int)
    ensures var r := Effect(db, DeleteModel(id, catalog, revision));
            if id !in db.models then r == Err(NotFound)
            else if Referers(db, id) != {} || InSnapshot(db, id) then r == Err(ModelReferenced)
            else if !UpToDate(db, id, catalog, revision) then r == Err(RevisionConflict)
            else if RowsDepend(db, id) then r == Err(IntegrityError)
            else r.Ok? && Raised(db, r.value, db.models[id].supplierId) && Dropped(db, r.value, id)
  {
    ReferersNone(db, id);
    SnapshotCountByTables(db, id);
  }

  /** Removing an archived model changes nothing; one in a snapshot is archived; otherwise it is deleted. */
  lemma RemoveByTables(db: Db, id: string, catalog: int, revision: int)
    ensures var r := Effect(db, RemoveModel(id, catalog, revision));
            if id !in db.models then r == Err(NotFound)
            else if !UpToDate(db, id, catalog, revision) then r == Err(RevisionConflict)
            else if db.models[id].archived then r == Ok(db)
            else if Referers(db, id) != {} then r == Err(ModelReferenced)
            else if InSnapshot(db, id) then
              r.Ok? && Raised(db, r.value, db.models[id].supplierId) && ArchivedNow(db, r.value, id)
            else if RowsDepend(db, id) then r == Err(IntegrityError)
            else r.Ok? && Raised(db, r.value, db.models[id].supplierId) && Dropped(db, r.value, id)
  {
    ReferersNone(db, id);
    SnapshotCountByTables(db, id);
  }

  lemma ArchiveByTables(db: Db, id: string, catalog: int, revision: int)
    ensures var r := Effect(db, ArchiveModel(id, catalog, revision));
            if id !in db.models then r == Err(NotFound)
            else if !UpToDate(db, id, catalog, revision) then r == Err(RevisionConflict)
            else if db.models[id].archived then r == Ok(db)
            else if Referers(db, id) != {} then r == Err(ModelReferenced)
            else r.Ok? && Raised(db, r.value, db.models[id].supplierId) && ArchivedNow(db, r.value, id)
  {
    ReferersNone(db, id);
  }

  // ---------- bindings ----------

  /** A stored model whose current revision is stored and has the capability. */
  predicate Fits(db: Db, m: string, capability: Capability) {
    exists v :: v in db.revisions && m in db.models && db.models[m].current == v && db.revisions[v].definition.capability == capability
  }

  ghost predicate AllFit(db: Db, defaults: Binding, overrides: map<string, string>, capabilities: map<string, Capability>) {
    && (forall m :: defaults.text == Some(m) ==> Fits(db, m, Text)) && (forall m :: defaults.image == Some(m) ==> Fits(db, m, Image))
    && (forall m :: defaults.video == Some(m) ==> Fits(db, m, Video))
    && forall o :: o in overrides ==> o in capabilities && Fits(db, overrides[o], capabilities[o])
  }

  /** Rebinding: every model fits its place and the revision is the expected one (0 without a row).  The
      project's overrides are exactly the given ones afterwards; those of other projects stay. */
  lemma RebindByTables(db: Db, project: string, defaults: Binding, overrides: map<string, string>,
                       capabilities: map<string, Capability>, expected: int)
    ensures var r := Effect(db, RebindProject(project, defaults, overrides, capabilities, expected));
            if !AllFit(db, defaults, overrides, capabilities) then r == Err(BindingRejected)
            else if (project in db.bindings && db.bindings[project].revision != expected) || (project !in db.bindings && expected != 0)
            then r == Err(RevisionConflict)
            else
              && r.Ok? && r.value == db.(bindings := r.value.bindings, overrides := r.value.overrides)
              && r.value.bindings == db.bindings[project := Binding(defaults.text, defaults.image, defaults.video, expected + 1)]
              && (forall o :: o in r.value.overrides <==> if o.0 == project then o.1 in overrides else o in db.overrides)
              && (forall o :: o in r.value.overrides ==>
                    r.value.overrides[o] == if o.0 == project then overrides[o.1] else db.overrides[o])
  {
    AllFitIff(db, defaults, overrides, capabilities);
    OverridesByTables(db.overrides, project, overrides);
  }

  lemma AllFitIff(db: Db, defaults: Binding, overrides: map<string, string>, capabilities: map<string, Capability>)
    ensures AllFit(db, defaults, overrides, capabilities) <==> BindingsAccepted(db, defaults, overrides, capabilities)
  {
  }

  lemma OverridesByTables(current: map<(string, string), string>, project: string, overrides: map<string, string>)
    ensures var after := NewOverrides(current, project, overrides);
            && (forall o :: o in after <==> if o.0 == project then o.1 in overrides else o in current)
            && (forall o :: o in after ==> after[o] == if o.0 == project then overrides[o.1] else current[o])
  {
    var after := NewOverrides(current, project, overrides);
    forall o ensures o in after <==> if o.0 == project then o.1 in overrides else o in current {
      assert o == (o.0, o.1);
    }
  }

  /** A snapshot needs a revision of the model and is kept once stored; a test run needs a stored model. */
  lemma RecordsByTables(db: Db, hash: string, id: string, revisionId: string, testRun: string)
    ensures Effect(db, RecordSnapshot(hash, id, revisionId)) ==
              if id !in db.models || revisionId !in db.revisions || db.revisions[revisionId].modelId != id then Err(BindingRejected)
              else if hash in db.snapshots then Ok(db)
              else Ok(db.(snapshots := db.snapshots[hash := Snapshot(id, revisionId)]))
    ensures Effect(db, RecordTestRun(testRun, id)) ==
              if id in db.models && testRun !in db.testRuns then Ok(db.(testRuns := db.testRuns[testRun := id])) else Err(IntegrityError)
  {
  }

  // ---------- one round of a sync ----------

  /** The stored model has the declared definition and is enabled. */
  predicate AlreadyInForce(db: Db, id: string, d: Definition) {
    && id in db.models && db.models[id].enabled && db.models[id].current in db.revisions
    && db.revisions[db.models[id].current].definition == d
  }

  /** One declaration: refused without a known capability and a name, or when another model of the supplier
      holds the name; a new id becomes a built-in model; a built-in one gets a new current revision and is
      enabled, unless it is in force already. */
  lemma RoundByTables(db: Db, supplierId: string, declared: Declaration)
    ensures var r := SyncOne(db, supplierId, declared);
            match declared.definition
            case None => r == Err(InvalidDeclaration)
            case Some(d) =>
              if d.name == "" then r == Err(InvalidDeclaration)
              else if HeldByAnother(db, declared.id, supplierId, d) then r == Err(NameConflict)
              else if declared.id !in db.models then
                if supplierId !in db.suppliers || declared.freshRevisionId in db.revisions then r == Err(IntegrityError)
                else
                  r == Ok((db.(models := db.models[declared.id := Model(supplierId, declared.freshRevisionId, BuiltIn, true, 1, false)],
                               revisions := db.revisions[declared.freshRevisionId := ModelRevision(declared.id, 1, d)]), true))
              else
                var m := db.models[declared.id];
                if m.source != BuiltIn then r == Err(IdentityConflict)
                else if AlreadyInForce(db, declared.id, d) then r == Ok((db, false))
                else if declared.freshRevisionId in db.revisions then r == Err(IntegrityError)
                else
                  r == Ok((db.(models := db.models[declared.id := Model(m.supplierId, declared.freshRevisionId, BuiltIn, true,
                                                                        m.revision + 1, m.archived)],
                               revisions := db.revisions[declared.freshRevisionId := ModelRevision(declared.id, m.revision + 1, d)]),
                           true))
  {
    if declared.definition.Some? { NameTakenByTables(db, supplierId, declared.definition.value, declared.id); }
  }

  /** An enabled built-in model of the supplier that is not archived and not declared. */
  ghost predicate ToRetire(db: Db, supplierId: string, ds: seq<Declaration>, m: string) {
    && m in db.models && db.models[m].supplierId == supplierId && db.models[m].source == BuiltIn
    && db.models[m].enabled && !db.models[m].archived && forall i :: 0 <= i < |ds| ==> ds[i].id != m
  }

  lemma ToRetireIff(db: Db, supplierId: string, ds: seq<Declaration>, m: string)
    ensures ToRetire(db, supplierId, ds, m) <==> Retiring(db, supplierId, ds, m)
  {
  }

  /** Exactly the models to retire are disabled, at the next row revision. */
  ghost predicate RetiredRows(db: Db, models: map<string, Model>, supplierId: string, ds: seq<Declaration>) {
    && models.Keys == db.models.Keys
    && forall m :: m in db.models ==>
         models[m] == if ToRetire(db, supplierId, ds, m)
                      then db.models[m].(enabled := false, revision := db.models[m].revision + 1) else db.models[m]
  }

  lemma RetiredByTables(db: Db, supplierId: string, ds: seq<Declaration>)
    ensures RetiredRows(db, Retired(db, supplierId, ds).models, supplierId, ds)
    ensures Retired(db, supplierId, ds) == db.(models := Retired(db, supplierId, ds).models)
  {
    forall m | m in db.models ensures ToRetire(db, supplierId, ds, m) <==> Stale(db.models[m], supplierId, Declared(ds, m)) {
      ToRetireIff(db, supplierId, ds, m);
    }
  }

  ghost predicate SomeToRetire(db: Db, supplierId: string, ds: seq<Declaration>) {
    exists m :: ToRetire(db, supplierId, ds, m)
  }

  lemma SomeToRetireIff(db: Db, supplierId: string, ds: seq<Declaration>)
    ensures SomeToRetire(db, supplierId, ds) <==> AnyRetiring(db, supplierId, ds)
  {
    if SomeToRetire(db, supplierId, ds) {
      var m :| ToRetire(db, supplierId, ds, m);
      ToRetireIff(db, supplierId, ds, m);
    }
    if AnyRetiring(db, supplierId, ds) {
      var m :| m in db.models && Retiring(db, supplierId, ds, m);
      ToRetireIff(db, supplierId, ds, m);
    }
  }

  lemma SyncSplits(db: Db, supplierId: string, ds: seq<Declaration>, mid: Db, changed: bool)
    requires SyncAll(db, supplierId, ds) == Ok((mid, changed))
    ensures Sync(db, supplierId, ds) == Ok(AfterRounds(mid, supplierId, ds, changed))
  {
  }

  function AfterRounds(mid: Db, supplierId: string, ds: seq<Declaration>, changed: bool): Db {
    var after := Retired(mid, supplierId, ds);
    if changed || AnyRetiring(mid, supplierId, ds) then Bump(after, supplierId) else after
  }

  lemma AfterRoundsByTables(mid: Db, supplierId: string, ds: seq<Declaration>, changed: bool)
    ensures var r := AfterRounds(mid, supplierId, ds, changed);
            && r == mid.(models := r.models, suppliers := r.suppliers) && RetiredRows(mid, r.models, supplierId, ds)
            && r.suppliers ==
                 if (changed || SomeToRetire(mid, supplierId, ds)) && supplierId in mid.suppliers
                 then mid.suppliers[supplierId := mid.suppliers[supplierId] + 1] else mid.suppliers
  {
    RetiredByTables(mid, supplierId, ds);
    SomeToRetireIff(mid, supplierId, ds);
  }

  /** After the rounds the models to retire are disabled, and the supplier's catalogue revision rises by one
      if a round or a retirement changed anything. */
  lemma SyncByTables(db: Db, supplierId: string, ds: seq<Declaration>, mid: Db, changed: bool)
    requires SyncAll(db, supplierId, ds) == Ok((mid, changed))
    ensures var r := Sync(db, supplierId, ds);
            && r.Ok? && r.value == mid.(models := r.value.models, suppliers := r.value.suppliers)
            && RetiredRows(mid, r.value.models, supplierId, ds)
            && r.value.suppliers ==
                 if (changed || SomeToRetire(mid, supplierId, ds)) && supplierId in mid.suppliers
                 then mid.suppliers[supplierId := mid.suppliers[supplierId] + 1] else mid.suppliers
  {
    SyncSplits(db, supplierId, ds, mid, changed);
    AfterRoundsByTables(mid, supplierId, ds, changed);
  }

  /** A sync fails with the error of its first failing round, and then changes nothing. */
  lemma {:induction false} SyncFailsByRounds(db: Db, supplierId: string, ds: seq<Declaration>, n: nat, mid: Db, changed: bool)
    requires n < |ds| && SyncAll(db, supplierId, ds[..n]) == Ok((mid, changed)) && SyncOne(mid, supplierId, ds[n]).Err?
    ensures Sync(db, supplierId, ds) == Err(SyncOne(mid, supplierId, ds[n]).error)
  {
    RoundFails(db, supplierId, ds, n, |ds|, mid, changed);
    assert ds[..|ds|] == ds;
  }

  lemma {:induction false} RoundFails(db: Db, supplierId: string, ds: seq<Declaration>, n: nat, k: nat, mid: Db, changed: bool)
    requires n < k <= |ds| && SyncAll(db, supplierId, ds[..n]) == Ok((mid, changed)) && SyncOne(mid, supplierId, ds[n]).Err?
    ensures SyncAll(db, supplierId, ds[..k]) == Err(SyncOne(mid, supplierId, ds[n]).error)
    decreases k
  {
    assert ds[..k][..k - 1] == ds[..k - 1];
    if k > n + 1 { RoundFails(db, supplierId, ds, n, k - 1, mid, changed); }
  }
}
