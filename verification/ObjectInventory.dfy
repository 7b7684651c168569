/** The inventory of the object store and its digest: SHA-256 of the sorted listing printed as JSON
    (ai_drama_web/operations/object_store_maintenance.py).  Objects are keyed by id. */
module ObjectInventory {
  import opened Hashing
  import opened JsonText
  import opened CanonicalJson

  datatype Kind = Png | Jpeg | Mp4 | JsonFile | TextFile | Unknown

  datatype StoredObject = StoredObject(bytes: Bytes, modifiedNs: int)

  type Objects = map<string, StoredObject>

  /** Object id to the table columns that name it. */
  type References = map<string, set<string>>

  datatype Entry = Entry(
    size: nat,
    modifiedNs: int,
    ageSeconds: int,
    kind: Kind,
    actualHash: string,
    referencedBy: set<string>,
    corrupt: bool,
    candidate: bool)

  /** The columns of an entry that the inventory hash covers. */
  datatype HashedEntry = HashedEntry(size: nat, modifiedNs: int, actualHash: string, referencedBy: set<string>, corrupt: bool)

  datatype Report = Report(entries: map<string, Entry>, missing: set<string>, inventoryHash: string)

  /** What the inventory takes from its surroundings: the hash of bytes and of text, the file classifier
      and the clock, in nanoseconds as file times are. */
  datatype Tools = Tools(sha: Sha256, digest: TextSha256, kindOf: Bytes -> Kind, now: int)

  function ReferencedBy(references: References, id: string): set<string> {
    if id in references then references[id] else {}
  }

  /** max(0, int(now - mtime)): whole seconds. */
  function AgeSeconds(now: int, modifiedNs: int): int {
    if now < modifiedNs then 0 else (now - modifiedNs) / 1_000_000_000
  }

  function EntryOf(tools: Tools, references: References, graceSeconds: int, id: string, o: StoredObject): Entry {
    var hash := tools.sha(o.bytes);
    var kind := tools.kindOf(o.bytes);
    var age := AgeSeconds(tools.now, o.modifiedNs);
    var users := ReferencedBy(references, id);
    Entry(|o.bytes|, o.modifiedNs, age, kind, hash, users, hash != id,
          users == {} && hash == id && kind != Unknown && age >= graceSeconds)
  }

  function Hashed(e: Entry): HashedEntry {
    HashedEntry(e.size, e.modifiedNs, e.actualHash, e.referencedBy, e.corrupt)
  }

  // ---------- sorted listings ----------

  predicate IsLeast(m: string, ids: set<string>) {
    m in ids && forall x :: x in ids && x != m ==> Less(m, x)
  }

  lemma {:induction false} LeastExists(ids: set<string>)
    requires ids != {}
    ensures exists m :: m in ids && IsLeast(m, ids)
    decreases ids
  {
    var x :| x in ids;
    if ids == {x} {
      assert IsLeast(x, ids);
    } else {
      LeastExists(ids - {x});
      var m :| m in ids - {x} && IsLeast(m, ids - {x});
      LessTotal(m, x);
      if Less(m, x) {
        assert IsLeast(m, ids);
      } else {
        forall y | y in ids && y != x ensures Less(x, y) {
          if y != m { LessTransitive(x, m, y); }
        }
        assert IsLeast(x, ids);
      }
    }
  }

  lemma LeastUnique(ids: set<string>)
    ensures forall m, n :: IsLeast(m, ids) && IsLeast(n, ids) ==> m == n
  {
    forall m, n | IsLeast(m, ids) && IsLeast(n, ids) ensures m == n {
      LessTotal(m, n);
    }
  }

  /** sorted(ids) */
  function SortedIds(ids: set<string>): (r: seq<string>)
    ensures forall x :: x in r <==> x in ids
    ensures forall i, j :: 0 <= i < j < |r| ==> Less(r[i], r[j])
    decreases ids
  {
    if ids == {} then []
    else
      LeastExists(ids);
      LeastUnique(ids);
      var m :| m in ids && IsLeast(m, ids);
      var rest := SortedIds(ids - {m});
      assert forall j :: 0 <= j < |rest| ==> rest[j] in rest;
      [m] + rest
  }

  // ---------- the digest ----------

  function Texts(ids: seq<string>): seq<Json> {
    seq(|ids|, i requires 0 <= i < |ids| => Str(ids[i]))
  }

  function EntryJson(id: string, e: HashedEntry): Json {
    Obj([Field("object_id", Str(id)), Field("size", Num(e.size)), Field("modified_ns", Num(e.modifiedNs)),
         Field("actual_hash", Str(e.actualHash)), Field("referenced_by", Arr(Texts(SortedIds(e.referencedBy)))),
         Field("corrupt", Bool(e.corrupt))])
  }

  type Listing = map<string, HashedEntry>

  function EntriesJson(listing: Listing, ids: seq<string>): seq<Json>
    requires forall i :: 0 <= i < |ids| ==> ids[i] in listing
  {
    seq(|ids|, i requires 0 <= i < |ids| => EntryJson(ids[i], listing[ids[i]]))
  }

  function InventoryJson(listing: Listing, missing: set<string>): Json {
    var ids := SortedIds(listing.Keys);
    assert forall i :: 0 <= i < |ids| ==> ids[i] in ids;
    Obj([Field("entries", Arr(EntriesJson(listing, ids))), Field("missing_references", Arr(Texts(SortedIds(missing))))])
  }

  function InventoryHash(tools: Tools, listing: Listing, missing: set<string>): string {
    tools.digest(DumpsAscii(InventoryJson(listing, missing)))
  }

  lemma TextsDecide(a: seq<string>, b: seq<string>)
    requires SameValue(Arr(Texts(a)), Arr(Texts(b)))
    ensures a == b
  {
    forall i | 0 <= i < |a| ensures a[i] == b[i] {
      assert SameValue(Texts(a)[i], Texts(b)[i]);
    }
  }

  lemma ListingDecides(a: set<string>, b: set<string>)
    requires SameValue(Arr(Texts(SortedIds(a))), Arr(Texts(SortedIds(b))))
    ensures a == b
  {
    TextsDecide(SortedIds(a), SortedIds(b));
    forall x ensures x in a <==> x in b {
      assert x in a <==> x in SortedIds(a);
    }
  }

  lemma EntryWellFormed(id: string, e: HashedEntry)
    ensures WellFormed(EntryJson(id, e))
  {
    var fields := EntryJson(id, e).fields;
    assert |fields[0].key| == 9 && |fields[1].key| == 4 && |fields[2].key| == 11 && |fields[3].key| == 11;
    assert |fields[4].key| == 13 && |fields[5].key| == 7 && fields[2].key[0] == 'm' && fields[3].key[0] == 'a';
  }

  /** A value found under the i-th key of one dict literal equals the value under that key of another. */
  lemma FieldSame(fs: seq<Field>, gs: seq<Field>, i: nat)
    requires DistinctKeys(fs) && DistinctKeys(gs) && SameValue(Obj(fs), Obj(gs))
    requires i < |fs| && i < |gs| && fs[i].key == gs[i].key
    ensures SameValue(fs[i].value, gs[i].value)
  {
    LookupFinds(fs, fs[i]);
    LookupFinds(gs, gs[i]);
    LookupSame(fs, gs, fs[i].key);
  }

  lemma EntryDecides(id: string, e: HashedEntry, id': string, e': HashedEntry)
    requires SameValue(EntryJson(id, e), EntryJson(id', e'))
    ensures id == id' && e == e'
  {
    EntryWellFormed(id, e);
    EntryWellFormed(id', e');
    FieldsDecide(id, e, id', e', EntryJson(id, e).fields, EntryJson(id', e').fields);
  }

  lemma FieldsDecide(id: string, e: HashedEntry, id': string, e': HashedEntry, fs: seq<Field>, gs: seq<Field>)
    requires DistinctKeys(fs) && DistinctKeys(gs) && SameValue(Obj(fs), Obj(gs))
    requires fs == EntryJson(id, e).fields && gs == EntryJson(id', e').fields
    ensures id == id' && e == e'
  {
    FieldSame(fs, gs, 0);
    FieldSame(fs, gs, 1);
    FieldSame(fs, gs, 2);
    FieldSame(fs, gs, 3);
    FieldSame(fs, gs, 4);
    FieldSame(fs, gs, 5);
    ListingDecides(e.referencedBy, e'.referencedBy);
  }

  lemma EntriesDecide(a: Listing, b: Listing, x: seq<string>, y: seq<string>)
    requires (forall i :: 0 <= i < |x| ==> x[i] in a) && (forall i :: 0 <= i < |y| ==> y[i] in b)
    requires (forall id :: id in x <==> id in a) && (forall id :: id in y <==> id in b)
    requires SameValue(Arr(EntriesJson(a, x)), Arr(EntriesJson(b, y)))
    ensures a == b
  {
    forall i | 0 <= i < |x| ensures x[i] == y[i] && a[x[i]] == b[y[i]] {
      assert SameValue(EntriesJson(a, x)[i], EntriesJson(b, y)[i]);
      EntryDecides(x[i], a[x[i]], y[i], b[y[i]]);
    }
    assert x == y;
    forall id | id in a ensures id in b && a[id] == b[id] {
      var i :| 0 <= i < |x| && x[i] == id;
    }
    assert a.Keys == b.Keys;
  }

  lemma InventoryWellFormed(listing: Listing, missing: set<string>)
    ensures WellFormed(InventoryJson(listing, missing))
  {
    var json := InventoryJson(listing, missing);
    var entries := json.fields[0].value;
    forall i | 0 <= i < |entries.items| ensures WellFormed(entries.items[i]) {
      var ids := SortedIds(listing.Keys);
      assert ids[i] in ids;
      EntryWellFormed(ids[i], listing[ids[i]]);
    }
    assert WellFormed(entries);
    assert |json.fields[0].key| == 7 && |json.fields[1].key| == 18;
  }

  /** Equal inventory hashes come from equal inventories: the digest covers the printed listing, the decoder
      inverts the printer, and the listing holds every column. */
  lemma InventoryHashDecides(tools: Tools, a: Listing, missingA: set<string>, b: Listing, missingB: set<string>)
    ensures InventoryHash(tools, a, missingA) == InventoryHash(tools, b, missingB) <==> a == b && missingA == missingB
  {
    if InventoryHash(tools, a, missingA) == InventoryHash(tools, b, missingB) {
      var x, y := InventoryJson(a, missingA), InventoryJson(b, missingB);
      InventoryWellFormed(a, missingA);
      InventoryWellFormed(b, missingB);
      DumpsAsciiDecidesSameValue(x, y);
      FieldSame(x.fields, y.fields, 0);
      FieldSame(x.fields, y.fields, 1);
      EntriesDecide(a, b, SortedIds(a.Keys), SortedIds(b.Keys));
      ListingDecides(missingA, missingB);
    }
  }

  // ---------- the inventory ----------

  function ListingOf(entries: map<string, Entry>): Listing {
    map id | id in entries :: Hashed(entries[id])
  }

  function Inventory(tools: Tools, objects: Objects, references: References, graceSeconds: int): Report {
    var entries := map id | id in objects :: EntryOf(tools, references, graceSeconds, id, objects[id]);
    var missing := references.Keys - objects.Keys;
    Report(entries, missing, InventoryHash(tools, ListingOf(entries), missing))
  }

  // ---------- what the inventory says, from the tables ----------

  /** At least `seconds` whole seconds have passed since the file was modified; none is ever less than zero. */
  predicate OlderThan(now: int, modifiedNs: int, seconds: int) {
    seconds <= 0 || now - modifiedNs >= seconds * 1_000_000_000
  }

  /** A stored object that no column names, whose bytes hash to its id, of a known kind, past the grace period. */
  predicate Collectable(tools: Tools, objects: Objects, references: References, graceSeconds: int, id: string) {
    && id in objects && (id in references ==> references[id] == {})
    && tools.sha(objects[id].bytes) == id && tools.kindOf(objects[id].bytes) != Unknown
    && OlderThan(tools.now, objects[id].modifiedNs, graceSeconds)
  }

  /** The columns of a report. */
  ghost predicate ReportsObject(tools: Tools, references: References, id: string, o: StoredObject, e: Entry) {
    && e.size == |o.bytes| && e.modifiedNs == o.modifiedNs && e.actualHash == tools.sha(o.bytes)
    && (e.corrupt <==> tools.sha(o.bytes) != id) && e.kind == tools.kindOf(o.bytes)
    && (forall column :: column in e.referencedBy <==> id in references && column in references[id])
    && 0 <= e.ageSeconds && forall seconds :: OlderThan(tools.now, o.modifiedNs, seconds) <==> e.ageSeconds >= seconds
  }

  /** The inventory lists exactly the stored objects with their columns; a candidate is exactly a
      collectable object, and missing are exactly the referenced ids that are not stored. */
  lemma InventoryByTables(tools: Tools, objects: Objects, references: References, graceSeconds: int, id: string)
    ensures var report := Inventory(tools, objects, references, graceSeconds);
            && (id in report.entries <==> id in objects)
            && (id in objects ==> ReportsObject(tools, references, id, objects[id], report.entries[id]))
            && (id in objects && report.entries[id].candidate <==> Collectable(tools, objects, references, graceSeconds, id))
            && (id in report.missing <==> id in references && id !in objects)
  {
    if id in objects {
      forall seconds ensures OlderThan(tools.now, objects[id].modifiedNs, seconds)
                        <==> AgeSeconds(tools.now, objects[id].modifiedNs) >= seconds {
        AgeInWholeSeconds(tools.now, objects[id].modifiedNs, seconds);
      }
    }
  }

  lemma AgeInWholeSeconds(now: int, modifiedNs: int, seconds: int)
    ensures AgeSeconds(now, modifiedNs) >= 0
    ensures OlderThan(now, modifiedNs, seconds) <==> AgeSeconds(now, modifiedNs) >= seconds
  {
  }

  /** ObjectInventory.build: one pass over the sorted files that grows entries and existing. */
  method BuildInventory(tools: Tools, objects: Objects, references: References, graceSeconds: int) returns (report: Report)
    ensures report == Inventory(tools, objects, references, graceSeconds)
  {
    var entries, existing := ScanObjects(tools, objects, references, graceSeconds, SortedIds(objects.Keys));
    var missing := references.Keys - existing;
    report := Report(entries, missing, InventoryHash(tools, ListingOf(entries), missing));
  }

  method ScanObjects(tools: Tools, objects: Objects, references: References, graceSeconds: int, ids: seq<string>)
    returns (entries: map<string, Entry>, existing: set<string>)
    requires forall id :: id in ids <==> id in objects
    ensures existing == objects.Keys
    ensures entries == map id | id in objects :: EntryOf(tools, references, graceSeconds, id, objects[id])
  {
    entries, existing := map[], {};
    for i := 0 to |ids|
      invariant Scanned(tools, objects, references, graceSeconds, ids[..i], entries, existing)
    {
      var id := ids[i];
      ScannedGrows(tools, objects, references, graceSeconds, ids, i, entries, existing);
      existing := existing + {id};
      var entry := ScanFile(tools, references, graceSeconds, id, objects[id]);
      entries := entries[id := entry];
    }
    assert ids[..|ids|] == ids;
  }

  /** What the loop has built after the files listed first. */
  ghost predicate Scanned(tools: Tools, objects: Objects, references: References, graceSeconds: int, done: seq<string>,
                          entries: map<string, Entry>, existing: set<string>)
  {
    && (forall id :: id in existing <==> id in done) && entries.Keys == existing && existing <= objects.Keys
    && forall id :: id in existing ==> entries[id] == EntryOf(tools, references, graceSeconds, id, objects[id])
  }

  lemma ScannedGrows(tools: Tools, objects: Objects, references: References, graceSeconds: int, ids: seq<string>, i: nat,
                     entries: map<string, Entry>, existing: set<string>)
    requires i < |ids| && ids[i] in objects
    requires Scanned(tools, objects, references, graceSeconds, ids[..i], entries, existing)
    ensures Scanned(tools, objects, references, graceSeconds, ids[..i + 1],
                    entries[ids[i] := EntryOf(tools, references, graceSeconds, ids[i], objects[ids[i]])], existing + {ids[i]})
  {
    assert ids[..i + 1] == ids[..i] + [ids[i]];
  }

  /** The entry of one file, computed in order. */
  method ScanFile(tools: Tools, references: References, graceSeconds: int, id: string, o: StoredObject) returns (entry: Entry)
    ensures entry == EntryOf(tools, references, graceSeconds, id, o)
  {
    var data := o.bytes;
    var hash := tools.sha(data);
    var age := AgeSeconds(tools.now, o.modifiedNs);
    var kind := tools.kindOf(data);
    var corrupt := hash != id;
    var users := if id in references then references[id] else {};
    var candidate := users == {} && !corrupt && kind != Unknown && age >= graceSeconds;
    entry := Entry(|data|, o.modifiedNs, age, kind, hash, users, corrupt, candidate);
  }
}
