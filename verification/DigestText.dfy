/** The exact dicts whose texts are digested or stored, key by key in the order they are printed: the object
    inventory, the bundle manifest, its business preimage and the export provenance
    (ai_drama_web/operations/object_store_maintenance.py, ai_drama_runtime/services.py). */
module DigestText {
  import opened JsonText
  import opened CanonicalJson
  import opened KeyOrder
  import opened ObjectInventory
  import Bundle
  import BundleExport

  // ---------- printing a sorted dict ----------

  lemma {:induction false} AdjacentSorted(fields: seq<Field>)
    requires forall i :: 0 <= i < |fields| - 1 ==> Less(fields[i].key, fields[i + 1].key)
    ensures SortedFields(fields)
  {
    if |fields| > 1 {
      var front := fields[..|fields| - 1];
      AdjacentSorted(front);
      var last := fields[|fields| - 1];
      forall i | 0 <= i < |front| ensures Less(fields[i].key, last.key) {
        if i < |front| - 1 {
          assert Less(front[i].key, front[|front| - 1].key);
          LessTransitive(fields[i].key, fields[|fields| - 2].key, last.key);
        }
      }
    }
  }

  /** A listing of the same fields in rising order is the sorted form. */
  lemma SortedListing(fields: seq<Field>, listing: seq<Field>)
    requires DistinctKeys(fields) && SortedFields(listing) && forall f :: f in fields <==> f in listing
    ensures SortFields(fields) == listing
  {
    SortFieldsSorts(fields);
    SortedUnique(SortFields(fields), listing);
  }

  /** Field i of the dict is field places[i] of its sorted listing, and listing field k is field sources[k]. */
  predicate Rearranged(fields: seq<Field>, listing: seq<Field>, places: seq<nat>, sources: seq<nat>) {
    && |fields| == |listing| == |places| == |sources|
    && (forall i :: 0 <= i < |fields| ==> places[i] < |listing| && fields[i] == listing[places[i]] && sources[places[i]] == i)
    && (forall k :: 0 <= k < |listing| ==> sources[k] < |fields| && places[sources[k]] == k)
  }

  lemma RearrangedElements(fields: seq<Field>, listing: seq<Field>, places: seq<nat>, sources: seq<nat>)
    requires Rearranged(fields, listing, places, sources)
    ensures forall f :: f in fields <==> f in listing
  {
    forall f ensures f in fields <==> f in listing {
      if f in fields {
        var i :| 0 <= i < |fields| && fields[i] == f;
        assert listing[places[i]] == f;
      }
      if f in listing {
        var k :| 0 <= k < |listing| && listing[k] == f;
        assert fields[sources[k]] == listing[places[sources[k]]];
      }
    }
  }

  lemma RearrangedDistinct(fields: seq<Field>, listing: seq<Field>, places: seq<nat>, sources: seq<nat>)
    requires Rearranged(fields, listing, places, sources) && SortedFields(listing)
    ensures DistinctKeys(fields)
  {
    forall i, j | 0 <= i < j < |fields| ensures fields[i].key != fields[j].key {
      assert places[i] != places[j];
      LessTotal(fields[i].key, fields[i].key);
    }
  }

  ghost predicate Rising(listing: seq<Field>) {
    forall i :: 0 <= i < |listing| - 1 ==> Precedes(listing[i].key, listing[i + 1].key)
  }

  lemma RisingSorted(listing: seq<Field>)
    requires Rising(listing)
    ensures SortedFields(listing)
  {
    forall i | 0 <= i < |listing| - 1 ensures Less(listing[i].key, listing[i + 1].key) {
      var k: nat :| DiffersAt(listing[i].key, listing[i + 1].key, k);
      DiffersLess(listing[i].key, listing[i + 1].key, k);
    }
    AdjacentSorted(listing);
  }

  /** Two keys in order: they differ first at position k. */
  lemma InOrder(a: string, b: string, k: nat)
    requires DiffersAt(a, b, k)
    ensures Precedes(a, b)
  {
  }

  predicate Inverse(places: seq<nat>, sources: seq<nat>) {
    && |places| == |sources|
    && (forall i :: 0 <= i < |places| ==> places[i] < |sources| && sources[places[i]] == i)
    && (forall k :: 0 <= k < |sources| ==> sources[k] < |places| && places[sources[k]] == k)
  }

  /** The fields taken in the order of their sources. */
  lemma TakenInOrder(fields: seq<Field>, listing: seq<Field>, places: seq<nat>, sources: seq<nat>)
    requires Inverse(places, sources) && |fields| == |listing| == |sources|
    requires forall k :: 0 <= k < |listing| ==> listing[k] == fields[sources[k]]
    ensures Rearranged(fields, listing, places, sources)
  {
    forall i | 0 <= i < |fields| ensures fields[i] == listing[places[i]] {
      assert sources[places[i]] == i;
    }
  }

  predicate Scalar(v: Json) {
    !v.Arr? && !v.Obj?
  }

  lemma ScalarsSorted(fields: seq<Field>)
    requires forall i :: 0 <= i < |fields| ==> Scalar(fields[i].value)
    ensures ValuesSorted(fields)
  {
  }

  predicate ValuesSorted(fields: seq<Field>) {
    forall i :: 0 <= i < |fields| ==> Canon(fields[i].value) == fields[i].value
  }

  /** A dict whose values are in sorted form is printed as its rearrangement in rising key order. */
  lemma PrintedAs(fields: seq<Field>, listing: seq<Field>, places: seq<nat>, sources: seq<nat>)
    requires Rearranged(fields, listing, places, sources) && Rising(listing) && ValuesSorted(fields)
    ensures Canon(Obj(fields)) == Obj(listing)
  {
    RisingSorted(listing);
    RearrangedDistinct(fields, listing, places, sources);
    RearrangedElements(fields, listing, places, sources);
    assert CanonFields(fields) == fields;
    SortedListing(fields, listing);
  }

  // ---------- the inventory ----------

  lemma {:induction false} TextsSorted(ids: seq<string>)
    ensures Canon(Arr(Texts(ids))) == Arr(Texts(ids))
    ensures |Texts(ids)| == |ids| && forall i :: 0 <= i < |ids| ==> Texts(ids)[i] == Str(ids[i])
  {
    assert CanonItems(Texts(ids)) == Texts(ids);
  }

  /** One entry of the digested listing, as printed. */
  function PrintedEntry(id: string, e: HashedEntry, columns: seq<Json>): Json {
    Obj([Field("actual_hash", Str(e.actualHash)), Field("corrupt", Bool(e.corrupt)), Field("modified_ns", Num(e.modifiedNs)),
         Field("object_id", Str(id)), Field("referenced_by", Arr(columns)), Field("size", Num(e.size))])
  }

  lemma EntryPrinted(id: string, e: HashedEntry)
    ensures Canon(EntryJson(id, e)) == PrintedEntry(id, e, Texts(SortedIds(e.referencedBy)))
  {
    TextsSorted(SortedIds(e.referencedBy));
    EntryRises(id, e, Texts(SortedIds(e.referencedBy)));
    EntryTaken(EntryJson(id, e).fields, PrintedEntry(id, e, Texts(SortedIds(e.referencedBy))).fields);
  }

  lemma EntryRises(id: string, e: HashedEntry, columns: seq<Json>)
    ensures Rising(PrintedEntry(id, e, columns).fields)
  {
    InOrder("actual_hash", "corrupt", 0);
    InOrder("corrupt", "modified_ns", 0);
    InOrder("modified_ns", "object_id", 0);
    InOrder("object_id", "referenced_by", 0);
    InOrder("referenced_by", "size", 0);
  }

  lemma EntryTaken(fields: seq<Field>, listing: seq<Field>)
    requires |fields| == |listing| == 6 && Rising(listing) && ValuesSorted(fields)
    requires listing[0] == fields[3] && listing[1] == fields[5] && listing[2] == fields[2] && listing[3] == fields[0]
    requires listing[4] == fields[4] && listing[5] == fields[1]
    ensures Canon(Obj(fields)) == Obj(listing)
  {
    TakenInOrder(fields, listing, [3, 5, 2, 0, 4, 1], [3, 5, 2, 0, 4, 1]);
    PrintedAs(fields, listing, [3, 5, 2, 0, 4, 1], [3, 5, 2, 0, 4, 1]);
  }

  predicate PrintsEntry(listing: Listing, id: string, entry: Json) {
    id in listing && entry == PrintedEntry(id, listing[id], Texts(SortedIds(listing[id].referencedBy)))
  }

  /** The digested dict: one entry for each listed object, in the order of the ids, and the missing ids.  The
      hash is the digest of its text. */
  lemma InventoryPrinted(tools: Tools, listing: Listing, missing: set<string>) returns (entries: seq<Json>)
    ensures Canon(InventoryJson(listing, missing))
         == Obj([Field("entries", Arr(entries)), Field("missing_references", Arr(Texts(SortedIds(missing))))])
    ensures |entries| == |SortedIds(listing.Keys)|
    ensures forall i :: 0 <= i < |entries| ==> PrintsEntry(listing, SortedIds(listing.Keys)[i], entries[i])
    ensures InventoryHash(tools, listing, missing) == tools.digest(PrintValue(true, Canon(InventoryJson(listing, missing))))
  {
    var ids := SortedIds(listing.Keys);
    forall i | 0 <= i < |ids| ensures ids[i] in listing {
      assert ids[i] in ids;
    }
    entries := CanonItems(EntriesJson(listing, ids));
    forall i | 0 <= i < |ids| ensures PrintsEntry(listing, ids[i], entries[i]) {
      EntryPrinted(ids[i], listing[ids[i]]);
    }
    TextsSorted(SortedIds(missing));
    InventoryDict(EntriesJson(listing, ids), Texts(SortedIds(missing)));
  }

  lemma InventoryDict(entries: seq<Json>, lost: seq<Json>)
    requires Canon(Arr(lost)) == Arr(lost)
    ensures Canon(Obj([Field("entries", Arr(entries)), Field("missing_references", Arr(lost))]))
         == Obj([Field("entries", Arr(CanonItems(entries))), Field("missing_references", Arr(lost))])
  {
    var fields := [Field("entries", Arr(entries)), Field("missing_references", Arr(lost))];
    var sorted := [Field("entries", Arr(CanonItems(entries))), Field("missing_references", Arr(lost))];
    assert CanonFields(fields) == sorted;
    DiffersLess("entries", "missing_references", 0);
    LessTotal("entries", "missing_references");
    SortedListing(sorted, sorted);
  }

  // ---------- the bundle ----------

  function PrintedOutput(renderedHash: string): Json {
    Obj([Field("content_hash", Str(renderedHash)), Field("generator", Str("storyboard-canonical-markdown-renderer")),
         Field("generator_version", Str("1.0.0")), Field("logical_type", Str("rendered_markdown")),
         Field("media_type", Str("text/markdown"))])
  }

  lemma OutputRises(renderedHash: string)
    ensures Rising(PrintedOutput(renderedHash).fields)
  {
    InOrder("content_hash", "generator", 0);
    GeneratorFirst();
    InOrder("generator_version", "logical_type", 0);
    InOrder("logical_type", "media_type", 0);
  }

  lemma GeneratorFirst()
    ensures Precedes("generator", "generator_version")
  {
    InOrder("generator", "generator_version", 9);
  }

  lemma OutputTaken(fields: seq<Field>, listing: seq<Field>)
    requires |fields| == |listing| == 5 && Rising(listing) && ValuesSorted(fields)
    requires listing[0] == fields[1] && listing[1] == fields[3] && listing[2] == fields[4] && listing[3] == fields[0]
    requires listing[4] == fields[2]
    ensures Canon(Obj(fields)) == Obj(listing)
  {
    TakenInOrder(fields, listing, [3, 0, 4, 1, 2], [1, 3, 4, 0, 2]);
    PrintedAs(fields, listing, [3, 0, 4, 1, 2], [1, 3, 4, 0, 2]);
  }

  lemma OutputPrinted(renderedHash: string)
    ensures Canon(Bundle.ManifestEntry(renderedHash)) == PrintedOutput(renderedHash)
  {
    OutputRises(renderedHash);
    ScalarsSorted(Bundle.ManifestEntry(renderedHash).fields);
    OutputTaken(Bundle.ManifestEntry(renderedHash).fields, PrintedOutput(renderedHash).fields);
  }

  lemma InOrderStays(fields: seq<Field>)
    requires Rising(fields) && ValuesSorted(fields)
    ensures Canon(Obj(fields)) == Obj(fields)
  {
    RisingSorted(fields);
    assert CanonFields(fields) == fields;
    SortedStays(fields);
  }

  lemma OutputStays(renderedHash: string)
    ensures Canon(PrintedOutput(renderedHash)) == PrintedOutput(renderedHash)
  {
    OutputRises(renderedHash);
    ScalarsSorted(PrintedOutput(renderedHash).fields);
    InOrderStays(PrintedOutput(renderedHash).fields);
  }

  lemma SingleItem(v: Json, w: Json)
    requires Canon(v) == w && Canon(w) == w
    ensures Canon(Arr([v])) == Arr([w]) && Canon(Arr([w])) == Arr([w])
  {
    assert CanonItems([v]) == [w] && CanonItems([w]) == [w];
  }

  lemma OutputsPrinted(renderedHash: string)
    ensures Canon(Arr([Bundle.ManifestEntry(renderedHash)])) == Arr([PrintedOutput(renderedHash)])
    ensures Canon(Arr([PrintedOutput(renderedHash)])) == Arr([PrintedOutput(renderedHash)])
  {
    OutputPrinted(renderedHash);
    OutputStays(renderedHash);
    SingleItem(Bundle.ManifestEntry(renderedHash), PrintedOutput(renderedHash));
  }

  /** One value, the one at index n, is not in sorted form yet. */
  lemma PrintedInside(fields: seq<Field>, n: nat, inner: seq<Field>, listing: seq<Field>, places: seq<nat>, sources: seq<nat>)
    requires n < |fields| && forall i :: 0 <= i < |fields| && i != n ==> Scalar(fields[i].value)
    requires Canon(Canon(fields[n].value)) == Canon(fields[n].value)
    requires inner == fields[n := Field(fields[n].key, Canon(fields[n].value))]
    requires Rearranged(inner, listing, places, sources) && Rising(listing)
    ensures Canon(Obj(fields)) == Obj(listing)
  {
    assert CanonFields(fields) == inner == CanonFields(inner);
    PrintedAs(inner, listing, places, sources);
  }

  function PrintedPreimage(contentHash: string, outputs: Json): seq<Field> {
    [Field("artifact_type", Str("storyboard")), Field("canonical_content_hash", Str(contentHash)),
     Field("outputs", outputs), Field("schema_version", Str("bundle-manifest-v1"))]
  }

  lemma PreimageRises(contentHash: string, outputs: Json)
    ensures Rising(PrintedPreimage(contentHash, outputs))
  {
    InOrder("artifact_type", "canonical_content_hash", 0);
    InOrder("canonical_content_hash", "outputs", 0);
    InOrder("outputs", "schema_version", 0);
  }

  lemma PreimageTaken(fields: seq<Field>, inner: seq<Field>, listing: seq<Field>)
    requires |fields| == |listing| == 4 && Rising(listing) && inner == fields[3 := Field(fields[3].key, Canon(fields[3].value))]
    requires Scalar(fields[0].value) && Scalar(fields[1].value) && Scalar(fields[2].value)
    requires Canon(Canon(fields[3].value)) == Canon(fields[3].value)
    requires listing[0] == inner[1] && listing[1] == inner[2] && listing[2] == inner[3] && listing[3] == inner[0]
    ensures Canon(Obj(fields)) == Obj(listing)
  {
    TakenInOrder(inner, listing, [3, 0, 1, 2], [1, 2, 3, 0]);
    PrintedInside(fields, 3, inner, listing, [3, 0, 1, 2], [1, 2, 3, 0]);
  }

  /** What the bundle hash digests. */
  lemma PreimagePrinted(contentHash: string, renderedHash: string)
    ensures Canon(Bundle.BusinessPreimage(contentHash, renderedHash))
         == Obj(PrintedPreimage(contentHash, Arr([PrintedOutput(renderedHash)])))
  {
    OutputsPrinted(renderedHash);
    var fields := Bundle.BusinessPreimage(contentHash, renderedHash).fields;
    var listing := PrintedPreimage(contentHash, Arr([PrintedOutput(renderedHash)]));
    PreimageRises(contentHash, Arr([PrintedOutput(renderedHash)]));
    PreimageTaken(fields, fields[3 := Field(fields[3].key, Canon(fields[3].value))], listing);
  }

  function PrintedManifest(id: string, contentHash: string, bundleHash: string, outputs: Json): seq<Field> {
    [Field("artifact_type", Str("storyboard")), Field("bundle_manifest_hash", Str(bundleHash)),
     Field("canonical_content_hash", Str(contentHash)), Field("outputs", outputs),
     Field("revision_id", Str(id)), Field("schema_version", Str("bundle-manifest-v1"))]
  }

  lemma ManifestRises(id: string, contentHash: string, bundleHash: string, outputs: Json)
    ensures Rising(PrintedManifest(id, contentHash, bundleHash, outputs))
  {
    InOrder("artifact_type", "bundle_manifest_hash", 0);
    InOrder("bundle_manifest_hash", "canonical_content_hash", 0);
    InOrder("canonical_content_hash", "outputs", 0);
    InOrder("outputs", "revision_id", 0);
    InOrder("revision_id", "schema_version", 0);
  }

  lemma ManifestTaken(fields: seq<Field>, inner: seq<Field>, listing: seq<Field>)
    requires |fields| == |listing| == 6 && Rising(listing) && inner == fields[4 := Field(fields[4].key, Canon(fields[4].value))]
    requires Scalar(fields[0].value) && Scalar(fields[1].value) && Scalar(fields[2].value) && Scalar(fields[3].value)
    requires Scalar(fields[5].value) && Canon(Canon(fields[4].value)) == Canon(fields[4].value)
    requires listing[0] == inner[2] && listing[1] == inner[5] && listing[2] == inner[3] && listing[3] == inner[4]
    requires listing[4] == inner[1] && listing[5] == inner[0]
    ensures Canon(Obj(fields)) == Obj(listing)
  {
    TakenInOrder(inner, listing, [5, 4, 0, 2, 3, 1], [2, 5, 3, 4, 1, 0]);
    PrintedInside(fields, 4, inner, listing, [5, 4, 0, 2, 3, 1], [2, 5, 3, 4, 1, 0]);
  }

  lemma ManifestInner(env: Bundle.Env, id: string, contentHash: string, renderedHash: string) returns (inner: seq<Field>)
    ensures var fields := Bundle.Manifest(env, id, contentHash, renderedHash).fields;
            && |fields| == 6 && inner == fields[4 := Field(fields[4].key, Canon(fields[4].value))]
            && Scalar(fields[0].value) && Scalar(fields[1].value) && Scalar(fields[2].value) && Scalar(fields[3].value)
            && Scalar(fields[5].value) && Canon(Canon(fields[4].value)) == Canon(fields[4].value)
    ensures |inner| == 6 && inner[0] == Field("schema_version", Str("bundle-manifest-v1")) && inner[1] == Field("revision_id", Str(id))
    ensures inner[2] == Field("artifact_type", Str("storyboard")) && inner[3] == Field("canonical_content_hash", Str(contentHash))
    ensures inner[4] == Field("outputs", Arr([PrintedOutput(renderedHash)]))
    ensures inner[5] == Field("bundle_manifest_hash",
                              Str(env.sha(Bundle.Utf8(Dumps(Bundle.BusinessPreimage(contentHash, renderedHash))))))
  {
    OutputsPrinted(renderedHash);
    var fields := Bundle.Manifest(env, id, contentHash, renderedHash).fields;
    inner := fields[4 := Field(fields[4].key, Canon(fields[4].value))];
  }

  /** The stored manifest: six keys, the two hashes under their own names. */
  lemma ManifestPrinted(env: Bundle.Env, id: string, contentHash: string, renderedHash: string)
    ensures Canon(Bundle.Manifest(env, id, contentHash, renderedHash))
         == Obj(PrintedManifest(id, contentHash, env.sha(Bundle.Utf8(Dumps(Bundle.BusinessPreimage(contentHash, renderedHash)))),
                                Arr([PrintedOutput(renderedHash)])))
  {
    var hash := env.sha(Bundle.Utf8(Dumps(Bundle.BusinessPreimage(contentHash, renderedHash))));
    var inner := ManifestInner(env, id, contentHash, renderedHash);
    ManifestRises(id, contentHash, hash, Arr([PrintedOutput(renderedHash)]));
    ManifestTaken(Bundle.Manifest(env, id, contentHash, renderedHash).fields, inner,
                  PrintedManifest(id, contentHash, hash, Arr([PrintedOutput(renderedHash)])));
  }

  // ---------- the export provenance ----------

  lemma BundleKeysRise()
    ensures Precedes("bundle_manifest_hash", "bundle_status")
  {
    InOrder("bundle_manifest_hash", "bundle_status", 7);
  }

  lemma ExportIdRises()
    ensures Precedes("export_id", "export_kind")
  {
    InOrder("export_id", "export_kind", 7);
  }

  lemma ExportKindRises()
    ensures Precedes("export_kind", "export_time")
  {
    InOrder("export_kind", "export_time", 7);
  }

  lemma ReadyKeysRise()
    ensures Precedes("error_code", "execution_ready") && Precedes("execution_ready", "export_id")
  {
    InOrder("error_code", "execution_ready", 1);
    InOrder("execution_ready", "export_id", 2);
  }

  lemma RequestedKeyRises()
    ensures Precedes("requested_destination", "revision_id")
  {
    InOrder("requested_destination", "revision_id", 2);
  }

  /** The first seven keys of the provenance in printed order, and the other seven. */
  function FirstHalf(q: BundleExport.Request, contentHash: string): seq<Field> {
    [Field("bundle_manifest_hash", Str(q.bundleHash)), Field("bundle_status", Str("verified")),
     Field("canonical_content_hash", Str(contentHash)), Field("diagnostic_only", Bool(q.diagnosticOnly)),
     Field("error_code", Str("")), Field("execution_ready", Bool(false)), Field("export_id", Str(q.exportId))]
  }

  function SecondHalf(q: BundleExport.Request): seq<Field> {
    [Field("export_kind", Str(q.kind)), Field("export_time", Str(q.time)), Field("freshness_status", Str(q.freshness)),
     Field("not_an_execution_package", Bool(true)),
     Field("requested_destination", Str(q.destination.parent + "/" + q.destination.name)),
     Field("revision_id", Str(q.id)), Field("schema_version", Str("export-provenance-v1"))]
  }

  lemma FirstHalfRises(q: BundleExport.Request, contentHash: string)
    ensures Rising(FirstHalf(q, contentHash))
  {
    BundleKeysRise();
    InOrder("bundle_status", "canonical_content_hash", 0);
    InOrder("canonical_content_hash", "diagnostic_only", 0);
    InOrder("diagnostic_only", "error_code", 0);
    ReadyKeysRise();
  }

  lemma SecondHalfRises(q: BundleExport.Request)
    ensures Rising(SecondHalf(q))
  {
    ExportKindRises();
    InOrder("export_time", "freshness_status", 0);
    InOrder("freshness_status", "not_an_execution_package", 0);
    InOrder("not_an_execution_package", "requested_destination", 0);
    RequestedKeyRises();
    InOrder("revision_id", "schema_version", 0);
  }

  lemma RisingJoins(a: seq<Field>, b: seq<Field>)
    requires Rising(a) && Rising(b) && (a != [] && b != [] ==> Precedes(a[|a| - 1].key, b[0].key))
    ensures Rising(a + b)
  {
  }

  lemma ProvenanceRises(q: BundleExport.Request, contentHash: string)
    ensures Rising(FirstHalf(q, contentHash) + SecondHalf(q))
  {
    FirstHalfRises(q, contentHash);
    SecondHalfRises(q);
    ExportIdRises();
    RisingJoins(FirstHalf(q, contentHash), SecondHalf(q));
  }

  predicate FirstHalfTaken(fields: seq<Field>, a: seq<Field>) {
    && |fields| == 14 && |a| == 7
    && a[0] == fields[5] && a[1] == fields[6] && a[2] == fields[4] && a[3] == fields[8]
    && a[4] == fields[13] && a[5] == fields[10] && a[6] == fields[1]
  }

  predicate SecondHalfTaken(fields: seq<Field>, b: seq<Field>) {
    && |fields| == 14 && |b| == 7
    && b[0] == fields[2] && b[1] == fields[12] && b[2] == fields[7] && b[3] == fields[9]
    && b[4] == fields[11] && b[5] == fields[3] && b[6] == fields[0]
  }

  const PLACES: seq<nat> := [13, 6, 7, 12, 2, 0, 1, 9, 3, 10, 5, 11, 8, 4]
  const SOURCES: seq<nat> := [5, 6, 4, 8, 13, 10, 1, 2, 12, 7, 9, 11, 3, 0]

  lemma PlacesInverse()
    ensures Inverse(PLACES, SOURCES)
  {
  }

  lemma HalvesTaken(fields: seq<Field>, a: seq<Field>, b: seq<Field>)
    requires FirstHalfTaken(fields, a) && SecondHalfTaken(fields, b)
    ensures |a + b| == |SOURCES| == 14 && forall k :: 0 <= k < 14 ==> (a + b)[k] == fields[SOURCES[k]]
  {
  }

  lemma ProvenanceTaken(fields: seq<Field>, a: seq<Field>, b: seq<Field>)
    requires FirstHalfTaken(fields, a) && SecondHalfTaken(fields, b) && Rising(a + b) && ValuesSorted(fields)
    ensures Canon(Obj(fields)) == Obj(a + b)
  {
    PlacesInverse();
    HalvesTaken(fields, a, b);
    TakenInOrder(fields, a + b, PLACES, SOURCES);
    PrintedAs(fields, a + b, PLACES, SOURCES);
  }

  lemma FirstHalfOf(q: BundleExport.Request, rev: Bundle.Revision)
    ensures FirstHalfTaken(BundleExport.Provenance(q, rev).fields, FirstHalf(q, rev.contentHash))
  {
  }

  lemma SecondHalfOf(q: BundleExport.Request, rev: Bundle.Revision)
    ensures SecondHalfTaken(BundleExport.Provenance(q, rev).fields, SecondHalf(q))
  {
  }

  lemma ProvenanceScalars(q: BundleExport.Request, rev: Bundle.Revision)
    ensures ValuesSorted(BundleExport.Provenance(q, rev).fields)
  {
    ScalarsSorted(BundleExport.Provenance(q, rev).fields);
  }

  /** The exported provenance: fourteen keys in printed order. */
  lemma ProvenancePrinted(q: BundleExport.Request, rev: Bundle.Revision)
    ensures Canon(BundleExport.Provenance(q, rev)) == Obj(FirstHalf(q, rev.contentHash) + SecondHalf(q))
  {
    FirstHalfOf(q, rev);
    SecondHalfOf(q, rev);
    ProvenanceRises(q, rev.contentHash);
    ProvenanceScalars(q, rev);
    ProvenanceTaken(BundleExport.Provenance(q, rev).fields, FirstHalf(q, rev.contentHash), SecondHalf(q));
  }
}
