/** The store object behind the catalogue calls.  Each call is one transaction: its updates come
    one after another, and a guard that fails late rolls the earlier ones back
    (ai_drama_web/store.py). */
module CatalogueStore {
  import opened Wrappers
  import opened Catalogue
  import opened CatalogueSync

  class SupplierStore {
    var suppliers: map<string, int>
    var models: map<string, Model>
    var revisions: map<string, ModelRevision>
    var bindings: map<string, Binding>
    var overrides: map<(string, string), string>
    var snapshots: map<string, Snapshot>
    var testRuns: map<string, string>
    var requests: map<(string, string), Request>

    constructor (suppliers: map<string, int>)
      ensures Contents() == Empty(suppliers)
    {
      this.suppliers := suppliers;
      models, revisions, bindings, overrides := map[], map[], map[], map[];
      snapshots, testRuns, requests := map[], map[], map[];
    }

    function Contents(): Db
      reads this
    {
      Db(suppliers, models, revisions, bindings, overrides, snapshots, testRuns, requests)
    }

    method CreateSupplierModel(supplierId: string, id: string, source: Source, d: Definition, catalog: int, revisionId: string)
      returns (r: Result<Model, CatalogueError>)
      modifies this`suppliers, this`models, this`revisions
      ensures Answers(old(Contents()), Effect(old(Contents()), CreateModel(supplierId, id, source, d, catalog, revisionId)),
                      Contents(), id, r)
    {
      if supplierId !in suppliers {
        return Err(NotFound);
      }
      if suppliers[supplierId] != catalog {
        return Err(RevisionConflict);
      }
      if NameTaken(Contents(), Name(supplierId, d.capability, d.name), None) {
        return Err(NameConflict);
      }
      if id in models || revisionId in revisions {
        return Err(IntegrityError);
      }
      models := models[id := Model(supplierId, revisionId, source, true, 1, false)];
      revisions := revisions[revisionId := ModelRevision(id, 1, d)];
      suppliers := suppliers[supplierId := suppliers[supplierId] + 1];
      return Ok(models[id]);
    }

    method ReviseSupplierModel(id: string, d: Definition, catalog: int, revision: int, acknowledged: int, revisionId: string)
      returns (r: Result<Model, CatalogueError>)
      modifies this`suppliers, this`models, this`revisions
      ensures Answers(old(Contents()), Effect(old(Contents()), ReviseModel(id, d, catalog, revision, acknowledged, revisionId)),
                      Contents(), id, r)
    {
      if id !in models {
        return Err(NotFound);
      }
      var model := models[id];
      if model.revision != revision || model.supplierId !in suppliers || suppliers[model.supplierId] != catalog {
        return Err(RevisionConflict);
      }
      if BindingCount(Contents(), id) != acknowledged {
        return Err(RevisionConflict);
      }
      if model.enabled && NameTaken(Contents(), Name(model.supplierId, d.capability, d.name), Some(id)) {
        return Err(NameConflict);
      }
      if revisionId in revisions {
        return Err(IntegrityError);
      }
      revisions := revisions[revisionId := ModelRevision(id, revision + 1, d)];
      models := models[id := model.(current := revisionId, revision := revision + 1)];
      suppliers := suppliers[model.supplierId := suppliers[model.supplierId] + 1];
      return Ok(models[id]);
    }

    /** The model row is updated before the catalogue revision is compared; a mismatch rolls it back. */
    method SetSupplierModelEnabled(id: string, enabled: bool, catalog: int, revision: int) returns (r: Result<Model, CatalogueError>)
      modifies this`suppliers, this`models
      ensures Answers(old(Contents()), Effect(old(Contents()), SetModelEnabled(id, enabled, catalog, revision)), Contents(), id, r)
    {
      if id !in models {
        return Err(NotFound);
      }
      var saved, model := models, models[id];
      if enabled {
        if model.current !in revisions {
          return Err(NotFound);
        }
        var d := revisions[model.current].definition;
        if NameTaken(Contents(), Name(model.supplierId, d.capability, d.name), Some(id)) {
          return Err(NameConflict);
        }
      }
      var updated := model.revision == revision;
      if updated {
        models := models[id := model.(enabled := enabled, revision := revision + 1)];
      }
      if !updated || model.supplierId !in suppliers || suppliers[model.supplierId] != catalog {
        models := saved;
        return Err(RevisionConflict);
      }
      suppliers := suppliers[model.supplierId := suppliers[model.supplierId] + 1];
      return Ok(models[id]);
    }

    /** Reject, archive or delete from one locked decision; nothing is returned for a deleted model. */
    method RemoveSupplierModel(id: string, catalog: int, revision: int) returns (r: Result<Option<Model>, CatalogueError>)
      modifies this`suppliers, this`models, this`revisions, this`requests
      ensures match Effect(old(Contents()), RemoveModel(id, catalog, revision))
              case Ok(db) =>
                Contents() == db && r == Ok(if id in db.models then Some(db.models[id]) else None)
              case Err(e) => Contents() == old(Contents()) && r == Err(e)
    {
      if id !in models {
        return Err(NotFound);
      }
      var model := models[id];
      if model.revision != revision || model.supplierId !in suppliers || suppliers[model.supplierId] != catalog {
        return Err(RevisionConflict);
      }
      if model.archived {
        return Ok(Some(model));
      }
      if BindingCount(Contents(), id) != 0 {
        return Err(ModelReferenced);
      }
      if SnapshotCount(Contents(), id) != 0 {
        models := models[id := model.(enabled := false, archived := true, revision := revision + 1)];
      } else if ForeignKeyHolds(Contents(), id) {
        return Err(IntegrityError);
      } else {
        requests := map q | q in requests && requests[q].modelId != id :: requests[q];
        revisions := map v | v in revisions && revisions[v].modelId != id :: revisions[v];
        models := models - {id};
      }
      suppliers := suppliers[model.supplierId := suppliers[model.supplierId] + 1];
      return Ok(if id in models then Some(models[id]) else None);
    }

    method ArchiveSupplierModel(id: string, catalog: int, revision: int) returns (r: Result<Model, CatalogueError>)
      modifies this`suppliers, this`models
      ensures Answers(old(Contents()), Effect(old(Contents()), ArchiveModel(id, catalog, revision)), Contents(), id, r)
    {
      if id !in models {
        return Err(NotFound);
      }
      var model := models[id];
      if model.revision != revision || model.supplierId !in suppliers || suppliers[model.supplierId] != catalog {
        return Err(RevisionConflict);
      }
      if model.archived {
        return Ok(model);
      }
      if BindingCount(Contents(), id) != 0 {
        return Err(ModelReferenced);
      }
      models := models[id := model.(enabled := false, archived := true, revision := revision + 1)];
      suppliers := suppliers[model.supplierId := suppliers[model.supplierId] + 1];
      return Ok(models[id]);
    }

    method ReplaceProjectModelBindings(project: string, defaults: Binding, overriding: map<string, string>,
                                       capabilities: map<string, Capability>, expected: int)
      returns (r: Result<int, CatalogueError>)
      modifies this`bindings, this`overrides
      ensures RebindAnswers(old(Contents()), Rebind(old(Contents()), project, defaults, overriding, capabilities, expected),
                            Contents(), project, r)
    {
      var before := Contents();
      var refusal := CheckBindings(project, defaults, overriding, capabilities, expected);
      if refusal.Some? {
        return Err(refusal.value);
      }
      ReplaceOverrides(project, overriding);
      bindings := bindings[project := defaults.(revision := expected + 1)];
      RebindOk(before, Contents(), project, defaults, overriding, capabilities, expected);
      return Ok(expected + 1);
    }

    method CheckBindings(project: string, defaults: Binding, overriding: map<string, string>,
                         capabilities: map<string, Capability>, expected: int)
      returns (refusal: Option<CatalogueError>)
      ensures match refusal
              case None => Rebind(Contents(), project, defaults, overriding, capabilities, expected).Ok?
              case Some(e) => Rebind(Contents(), project, defaults, overriding, capabilities, expected) == Err(e)
    {
      if !BindingsAccepted(Contents(), defaults, overriding, capabilities) {
        return Some(BindingRejected);
      }
      var current := if project in bindings then bindings[project].revision else 0;
      return if current != expected then Some(RevisionConflict) else None;
    }

    /** Delete the project's overrides, then insert the new ones. */
    method ReplaceOverrides(project: string, overriding: map<string, string>)
      modifies this`overrides
      ensures overrides == NewOverrides(old(overrides), project, overriding)
    {
      overrides := map o | o in overrides && o.0 != project :: overrides[o];
      overrides := overrides + map o | o in overriding :: (project, o) := overriding[o];
    }

    /** The transaction around the sync: an error in any round restores models and revisions. */
    method SyncManifestModels(supplierId: string, ds: seq<Declaration>) returns (r: Result<bool, CatalogueError>)
      modifies this`suppliers, this`models, this`revisions
      ensures match Sync(old(Contents()), supplierId, ds)
              case Ok(db) => Contents() == db && r.Ok?
              case Err(e) => Contents() == old(Contents()) && r == Err(e)
    {
      var savedModels, savedRevisions := models, revisions;
      var loop := SyncDeclarations(supplierId, ds);
      if loop.Err? {
        models, revisions := savedModels, savedRevisions;
        return Err(loop.error);
      }
      var retired := RetireUndeclared(supplierId, ds);
      var changed := loop.value || retired;
      if changed && supplierId in suppliers {
        suppliers := suppliers[supplierId := suppliers[supplierId] + 1];
      }
      return Ok(changed);
    }

    method SyncDeclarations(supplierId: string, ds: seq<Declaration>) returns (r: Result<bool, CatalogueError>)
      modifies this`models, this`revisions
      ensures match SyncAll(old(Contents()), supplierId, ds)
              case Ok((db, changed)) => Contents() == db && r == Ok(changed)
              case Err(e) => r == Err(e)
    {
      ghost var before := Contents();
      var changed := false;
      for i := 0 to |ds|
        invariant SyncAll(before, supplierId, ds[..i]) == Ok((Contents(), changed))
      {
        assert ds[..i + 1][..i] == ds[..i];
        var round := SyncDeclaration(supplierId, ds[i]);
        if round.Err? {
          SyncAllFails(before, supplierId, ds, i + 1);
          return Err(round.error);
        }
        changed := changed || round.value;
      }
      assert ds[..|ds|] == ds;
      return Ok(changed);
    }

    /** One round: insert the model, give it a new revision, or leave it. */
    method SyncDeclaration(supplierId: string, d: Declaration) returns (r: Result<bool, CatalogueError>)
      modifies this`models, this`revisions
      ensures match SyncOne(old(Contents()), supplierId, d)
              case Ok((db, changed)) => Contents() == db && r == Ok(changed)
              case Err(e) => Contents() == old(Contents()) && r == Err(e)
    {
      if d.definition.None? || d.definition.value.name == "" {
        return Err(InvalidDeclaration);
      }
      var def := d.definition.value;
      if NameTaken(Contents(), Name(supplierId, def.capability, def.name), Some(d.id)) {
        return Err(NameConflict);
      }
      if d.id !in models {
        if supplierId !in suppliers || d.freshRevisionId in revisions {
          return Err(IntegrityError);
        }
        models := models[d.id := Model(supplierId, d.freshRevisionId, BuiltIn, true, 1, false)];
        revisions := revisions[d.freshRevisionId := ModelRevision(d.id, 1, def)];
        return Ok(true);
      }
      var model := models[d.id];
      if model.source != BuiltIn {
        return Err(IdentityConflict);
      }
      if model.current in revisions && revisions[model.current].definition == def && model.enabled {
        return Ok(false);
      }
      if d.freshRevisionId in revisions {
        return Err(IntegrityError);
      }
      var next := model.revision + 1;
      revisions := revisions[d.freshRevisionId := ModelRevision(d.id, next, def)];
      models := models[d.id := model.(current := d.freshRevisionId, enabled := true, revision := next)];
      return Ok(true);
    }

    /** The loop over the supplier's listed models. */
    method RetireUndeclared(supplierId: string, ds: seq<Declaration>) returns (changed: bool)
      modifies this`models
      ensures Contents() == Retired(old(Contents()), supplierId, ds)
      ensures changed == AnyRetiring(old(Contents()), supplierId, ds)
    {
      ghost var before := Contents();
      changed := false;
      var todo := models.Keys;
      while todo != {}
        invariant HalfRetired(before.models, models, supplierId, ds, todo)
        invariant changed == StaleOutside(before.models, supplierId, ds, todo)
        decreases todo
      {
        var m :| m in todo;
        var model := models[m];
        OneMoreRetired(before.models, models, supplierId, ds, todo, m);
        if model.supplierId == supplierId && !model.archived && model.source == BuiltIn && !Declared(ds, m) && model.enabled {
          models := models[m := model.(enabled := false, revision := model.revision + 1)];
          changed := true;
        }
        todo := todo - {m};
      }
      AllRetired(before, models, supplierId, ds);
    }
  }

  /** The loop has dealt with every model but those still to do. */
  ghost predicate HalfRetired(before: map<string, Model>, models: map<string, Model>, supplierId: string,
                              ds: seq<Declaration>, todo: set<string>)
  {
    && todo <= before.Keys && models.Keys == before.Keys
    && forall m :: m in models ==>
         models[m] == if m in todo then before[m] else RetiredRow(before[m], supplierId, Declared(ds, m))
  }

  ghost predicate StaleOutside(before: map<string, Model>, supplierId: string, ds: seq<Declaration>, todo: set<string>) {
    exists m :: m in before && m !in todo && Stale(before[m], supplierId, Declared(ds, m))
  }

  lemma OneMoreRetired(before: map<string, Model>, models: map<string, Model>, supplierId: string,
                       ds: seq<Declaration>, todo: set<string>, m: string)
    requires HalfRetired(before, models, supplierId, ds, todo) && m in todo
    ensures m in models && models[m := models[m]] == models
    ensures HalfRetired(before, models[m := RetiredRow(models[m], supplierId, Declared(ds, m))], supplierId, ds, todo - {m})
    ensures StaleOutside(before, supplierId, ds, todo - {m})
       <==> StaleOutside(before, supplierId, ds, todo) || Stale(models[m], supplierId, Declared(ds, m))
  {
  }

  lemma AllRetired(before: Db, models: map<string, Model>, supplierId: string, ds: seq<Declaration>)
    requires HalfRetired(before.models, models, supplierId, ds, {})
    ensures before.(models := models) == Retired(before, supplierId, ds)
    ensures StaleOutside(before.models, supplierId, ds, {}) == AnyRetiring(before, supplierId, ds)
  {
  }

  function Empty(suppliers: map<string, int>): Db {
    Db(suppliers, map[], map[], map[], map[], map[], map[], map[])
  }

  /** A call that succeeds leaves its effect and returns the model row; one that raises leaves the state alone. */
  predicate Answers(before: Db, effect: Result<Db, CatalogueError>, after: Db, id: string, r: Result<Model, CatalogueError>) {
    match effect
    case Ok(db) => after == db && id in db.models && r == Ok(db.models[id])
    case Err(e) => after == before && r == Err(e)
  }

  predicate RebindAnswers(before: Db, effect: Result<Db, CatalogueError>, after: Db, project: string, r: Result<int, CatalogueError>) {
    match effect
    case Ok(db) => after == db && project in db.bindings && r == Ok(db.bindings[project].revision)
    case Err(e) => after == before && r == Err(e)
  }

  lemma RebindOk(before: Db, after: Db, project: string, defaults: Binding, overriding: map<string, string>,
                 capabilities: map<string, Capability>, expected: int)
    requires Rebind(before, project, defaults, overriding, capabilities, expected).Ok?
    requires after == before.(overrides := NewOverrides(before.overrides, project, overriding),
                              bindings := before.bindings[project := defaults.(revision := expected + 1)])
    ensures RebindAnswers(before, Rebind(before, project, defaults, overriding, capabilities, expected), after, project, Ok(expected + 1))
  {
  }

  /** An error in an early round is the error of the whole loop. */
  lemma {:induction false} SyncAllFails(db: Db, supplierId: string, ds: seq<Declaration>, n: nat)
    requires n <= |ds| && SyncAll(db, supplierId, ds[..n]).Err?
    ensures SyncAll(db, supplierId, ds) == Err(SyncAll(db, supplierId, ds[..n]).error)
    decreases |ds|
  {
    if n < |ds| {
      assert ds[..|ds| - 1][..n] == ds[..n];
      SyncAllFails(db, supplierId, ds[..|ds| - 1], n);
    } else {
      assert ds[..n] == ds;
    }
  }

  // ---------- histories ----------

  datatype Call = Single(op: Op) | Synchronise(supplierId: string, ds: seq<Declaration>)

  function Step(db: Db, call: Call): Db {
    var effect := match call
      case Single(op) => Effect(db, op)
      case Synchronise(supplierId, ds) => Sync(db, supplierId, ds);
    match effect
    case Ok(after) => after
    case Err(_) => db
  }

  /** A manifest declares no model that another supplier owns, or at least distinct ids under names that
      are apart. */
  predicate Legal(db: Db, call: Call) {
    call.Synchronise? ==> Owned(db, call.supplierId, call.ds) || (DistinctIds(call.ds) && NamesApart(db, call.supplierId, call.ds))
  }

  lemma StepKeepsInvariant(db: Db, call: Call)
    requires CatalogueInvariant(db) && Legal(db, call)
    ensures CatalogueInvariant(Step(db, call))
  {
    match call
    case Single(op) => if Effect(db, op).Ok? { EffectKeepsInvariant(db, op); }
    case Synchronise(supplierId, ds) =>
      if Sync(db, supplierId, ds).Ok? {
        if Owned(db, supplierId, ds) {
          SyncKeepsInvariant(db, supplierId, ds);
        } else {
          SyncKeepsInvariantIff(db, supplierId, ds);
        }
      }
  }

  function Run(db: Db, calls: seq<Call>): Db {
    if calls == [] then db else Step(Run(db, calls[..|calls| - 1]), calls[|calls| - 1])
  }

  ghost predicate AllLegal(db: Db, calls: seq<Call>) {
    forall i :: 0 <= i < |calls| ==> Legal(Run(db, calls[..i]), calls[i])
  }

  /** The catalogue invariant holds after every history of calls. */
  lemma {:induction false} HistoryKeepsInvariant(suppliers: map<string, int>, calls: seq<Call>)
    requires AllLegal(Empty(suppliers), calls)
    ensures CatalogueInvariant(Run(Empty(suppliers), calls))
    decreases |calls|
  {
    if calls != [] {
      var front, last := calls[..|calls| - 1], calls[|calls| - 1];
      forall i | 0 <= i < |front| ensures Legal(Run(Empty(suppliers), front[..i]), front[i]) {
        assert front[..i] == calls[..i];
      }
      HistoryKeepsInvariant(suppliers, front);
      StepKeepsInvariant(Run(Empty(suppliers), front), last);
    }
  }
}
