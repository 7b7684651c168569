/** The order in which dict keys and object ids are written, stated character by character: by code point, a
    proper prefix first.  What sort_keys=True and sorted() promise
    (ai_drama_runtime/storyboard_canonical.py, ai_drama_web/operations/object_store_maintenance.py). */
module KeyOrder {
  import opened Wrappers
  import opened JsonText
  import opened CanonicalJson
  import opened ObjectInventory

  /** The texts agree up to position k, where x ends first or has the smaller character. */
  predicate DiffersAt(x: string, y: string, k: nat) {
    && k <= |x| && k < |y| && x[..k] == y[..k]
    && (k == |x| || x[k] < y[k])
  }

  ghost predicate Precedes(x: string, y: string) {
    exists k: nat :: DiffersAt(x, y, k)
  }

  lemma {:induction false} LessDiffers(x: string, y: string) returns (k: nat)
    requires Less(x, y)
    ensures DiffersAt(x, y, k)
  {
    if x == [] || x[0] < y[0] {
      k := 0;
    } else {
      var n := LessDiffers(x[1..], y[1..]);
      k := n + 1;
      assert x[..k] == [x[0]] + x[1..][..n] && y[..k] == [y[0]] + y[1..][..n];
    }
  }

  lemma {:induction false} DiffersLess(x: string, y: string, k: nat)
    requires DiffersAt(x, y, k)
    ensures Less(x, y)
  {
    if k > 0 {
      assert x[0] == x[..k][0] == y[..k][0] == y[0];
      assert x[1..][..k - 1] == x[..k][1..] && y[1..][..k - 1] == y[..k][1..];
      DiffersLess(x[1..], y[1..], k - 1);
    }
  }

  // ---------- every dict inside a value ----------

  /** The value found by walking down: an index picks an item of a list or a field of a dict. */
  function Within(v: Json, path: seq<nat>): Option<Json>
    decreases |path|
  {
    if path == [] then Some(v)
    else
      match v
      case Arr(items) => if path[0] < |items| then Within(items[path[0]], path[1..]) else None
      case Obj(fields) => if path[0] < |fields| then Within(fields[path[0]].value, path[1..]) else None
      case _ => None
  }

  ghost predicate KeysRise(fields: seq<Field>) {
    forall i, j :: 0 <= i < j < |fields| ==> Precedes(fields[i].key, fields[j].key)
  }

  lemma SortedRise(fields: seq<Field>)
    requires SortedFields(fields)
    ensures KeysRise(fields)
  {
    forall i, j | 0 <= i < j < |fields| ensures Precedes(fields[i].key, fields[j].key) {
      var k := LessDiffers(fields[i].key, fields[j].key);
    }
  }

  /** In what is printed, the keys of every dict at every depth rise by code point. */
  lemma {:induction false} PrintedKeysRise(v: Json, path: seq<nat>)
    requires WellFormed(v)
    ensures Within(Canon(v), path).Some? && Within(Canon(v), path).value.Obj? ==> KeysRise(Within(Canon(v), path).value.fields)
    decreases |path|
  {
    match v
    case Arr(items) =>
      if path != [] && path[0] < |items| { PrintedKeysRise(items[path[0]], path[1..]); }
    case Obj(fields) =>
      var cf := CanonFields(fields);
      var sorted := SortFields(cf);
      if path == [] {
        SortFieldsSorts(cf);
        SortedRise(sorted);
      } else if path[0] < |sorted| {
        assert sorted[path[0]] in sorted;
        var k :| 0 <= k < |cf| && cf[k] == sorted[path[0]];
        PrintedKeysRise(fields[k].value, path[1..]);
      }
    case _ =>
  }

  /** sorted(ids) lists exactly the ids, each once, in rising order. */
  lemma ListedIdsRise(ids: set<string>)
    ensures forall x :: x in SortedIds(ids) <==> x in ids
    ensures forall i, j :: 0 <= i < j < |SortedIds(ids)| ==> Precedes(SortedIds(ids)[i], SortedIds(ids)[j])
  {
    var r := SortedIds(ids);
    forall i, j | 0 <= i < j < |r| ensures Precedes(r[i], r[j]) {
      var k := LessDiffers(r[i], r[j]);
    }
  }

  // ---------- what is refused ----------

  /** Serialising raises exactly when some string value, at some depth, is empty. */
  lemma {:induction false} RefusedIffEmptyText(nfc: Nfc, v: Json)
    ensures Serialize(nfc, v) == Err(SchemaInvalid) <==> exists path :: Within(v, path) == Some(Str(""))
  {
    if !Accepted(v) {
      var path := EmptyTextPath(v);
    }
    if path :| Within(v, path) == Some(Str("")) {
      EmptyTextRefused(v, path);
    }
  }

  lemma {:induction false} EmptyTextPath(v: Json) returns (path: seq<nat>)
    requires !Accepted(v)
    ensures Within(v, path) == Some(Str(""))
    decreases v
  {
    match v
    case Str(s) => path := [];
    case Arr(items) =>
      var i: nat :| i < |items| && !Accepted(items[i]);
      var rest := EmptyTextPath(items[i]);
      path := [i] + rest;
      assert path[1..] == rest;
    case Obj(fields) =>
      var i: nat :| i < |fields| && !Accepted(fields[i].value);
      var rest := EmptyTextPath(fields[i].value);
      path := [i] + rest;
      assert path[1..] == rest;
  }

  lemma {:induction false} EmptyTextRefused(v: Json, path: seq<nat>)
    requires Within(v, path) == Some(Str(""))
    ensures !Accepted(v)
    decreases |path|
  {
    match v
    case Arr(items) => if path != [] { EmptyTextRefused(items[path[0]], path[1..]); }
    case Obj(fields) => if path != [] { EmptyTextRefused(fields[path[0]].value, path[1..]); }
    case _ =>
  }

  // ---------- what normalisation does to each part ----------

  /** Field i is the last one whose key normalises to the given key. */
  predicate LastWith(nfc: Nfc, fields: seq<Field>, key: string, i: nat) {
    i < |fields| && nfc(fields[i].key) == key && forall j :: i < j < |fields| ==> nfc(fields[j].key) != key
  }

  lemma LastFieldReads(nfc: Nfc, fields: seq<Field>, key: string)
    requires fields != []
    ensures var front, last := fields[..|fields| - 1], fields[|fields| - 1];
            Lookup(NormalizeFields(nfc, fields), key)
              == if nfc(last.key) == key then Some(Normalize(nfc, last.value)) else Lookup(NormalizeFields(nfc, front), key)
  {
    var front, last := fields[..|fields| - 1], fields[|fields| - 1];
    PutReads(NormalizeFields(nfc, front), nfc(last.key), Normalize(nfc, last.value), key);
  }

  lemma LastWithShrinks(nfc: Nfc, fields: seq<Field>, key: string, i: nat)
    requires LastWith(nfc, fields, key, i) && i < |fields| - 1
    ensures LastWith(nfc, fields[..|fields| - 1], key, i) && nfc(fields[|fields| - 1].key) != key
  {
  }

  /** Of the fields whose keys have one normal form the last one's value is kept. */
  lemma {:induction false} LastValueWins(nfc: Nfc, fields: seq<Field>, key: string, i: nat)
    requires LastWith(nfc, fields, key, i)
    ensures Lookup(NormalizeFields(nfc, fields), key) == Some(Normalize(nfc, fields[i].value))
    decreases |fields|
  {
    LastFieldReads(nfc, fields, key);
    if i < |fields| - 1 {
      LastWithShrinks(nfc, fields, key, i);
      LastValueWins(nfc, fields[..|fields| - 1], key, i);
    }
  }

  /** No other key appears. */
  lemma {:induction false} NormalizedKeys(nfc: Nfc, fields: seq<Field>, key: string)
    requires forall i :: 0 <= i < |fields| ==> nfc(fields[i].key) != key
    ensures Lookup(NormalizeFields(nfc, fields), key) == None
    decreases |fields|
  {
    if fields != [] {
      NormalizedKeys(nfc, fields[..|fields| - 1], key);
      LastFieldReads(nfc, fields, key);
    }
  }

  lemma PutReads(fields: seq<Field>, key: string, value: Json, other: string)
    requires DistinctKeys(fields)
    ensures Lookup(Put(fields, key, value), other) == if other == key then Some(value) else Lookup(fields, other)
  {
    var r := Put(fields, key, value);
    if other == key {
      assert Field(key, value) in r;
      LookupFinds(r, Field(key, value));
    } else {
      match Lookup(fields, other)
      case Some(x) =>
        assert Field(other, x) in r;
        LookupFinds(r, Field(other, x));
      case None =>
    }
  }

  /** Texts become their normal form, lists keep their places, everything else stays. */
  lemma NormalizedParts(nfc: Nfc, v: Json)
    ensures match v
            case Str(s) => Normalize(nfc, v) == Str(nfc(s))
            case Arr(items) =>
              && Normalize(nfc, v).Arr? && |Normalize(nfc, v).items| == |items|
              && forall i :: 0 <= i < |items| ==> Normalize(nfc, v).items[i] == Normalize(nfc, items[i])
            case Obj(fields) =>
              && Normalize(nfc, v).Obj? && DistinctKeys(Normalize(nfc, v).fields)
              && Normalize(nfc, v).fields == NormalizeFields(nfc, fields)
            case _ => Normalize(nfc, v) == v
  {
  }
}
