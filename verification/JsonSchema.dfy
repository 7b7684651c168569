/** The shapes the canonical validators require of JSON records, and why normalisation keeps them
    (the _require helpers of ai_drama_runtime/storyboard_canonical.py). */
module JsonSchema {
  import opened Wrappers
  import opened JsonText
  import opened CanonicalJson

  datatype Shape =
    | Any
    | Text
    | NullableText
    | Integer
    | Flag
    | Texts
    | NullableObject
    | AnyObject
    | AnyArray
    | SomeTexts
    | Record(keys: seq<Key>)
    | Records(keys: seq<Key>)

  datatype Key = Key(name: string, shape: Shape)

  /** v[key], or null when v is no dict or has no such key. */
  function At(v: Json, key: string): Json {
    if v.Obj? then
      match Lookup(v.fields, key)
      case Some(x) => x
      case None => Null
    else Null
  }

  predicate Named(keys: seq<Key>, name: string) {
    exists k :: 0 <= k < |keys| && keys[k].name == name
  }

  predicate AllNamed(fields: seq<Field>, keys: seq<Key>) {
    forall i :: 0 <= i < |fields| ==> Named(keys, fields[i].key)
  }

  predicate Present(v: Json, name: string) {
    v.Obj? && Lookup(v.fields, name).Some?
  }

  /** A dict with exactly the given keys. */
  predicate HasKeys(v: Json, keys: seq<Key>) {
    && v.Obj?
    && (forall k :: 0 <= k < |keys| ==> Present(v, keys[k].name))
    && AllNamed(v.fields, keys)
  }

  predicate NonEmpty(v: Json) {
    v.Str? && v.s != ""
  }

  predicate Conforms(v: Json, shape: Shape)
    decreases shape, 1
  {
    match shape
    case Any => true
    case Text => NonEmpty(v)
    case NullableText => v.Null? || NonEmpty(v)
    case Integer => v.Num?
    case Flag => v.Bool?
    case Texts => v.Arr? && forall i :: 0 <= i < |v.items| ==> NonEmpty(v.items[i])
    case NullableObject => v.Null? || v.Obj?
    case AnyObject => v.Obj?
    case AnyArray => v.Arr?
    case SomeTexts => v.Arr? && v.items != [] && forall i :: 0 <= i < |v.items| ==> NonEmpty(v.items[i])
    case Record(keys) => ConformsRecord(v, keys)
    case Records(keys) => v.Arr? && forall i :: 0 <= i < |v.items| ==> ConformsRecord(v.items[i], keys)
  }

  predicate ConformsRecord(v: Json, keys: seq<Key>)
    decreases keys, 0
  {
    HasKeys(v, keys) && forall k :: 0 <= k < |keys| ==> Conforms(At(v, keys[k].name), keys[k].shape)
  }

  lemma Piece(v: Json, keys: seq<Key>, k: nat, key: Key)
    requires ConformsRecord(v, keys) && k < |keys| && keys[k] == key
    ensures Conforms(At(v, key.name), key.shape)
  {
  }

  // ---------- normalising and key sorting ----------

  /** The two rewritings a serialised value goes through. */
  datatype Pass = Normalizing(nfc: Nfc) | Sorting

  function Apply(p: Pass, v: Json): Json {
    match p
    case Normalizing(nfc) => Normalize(nfc, v)
    case Sorting => Canon(v)
  }

  predicate Fixes(p: Pass, s: string) {
    Apply(p, Str(s)) == Str(s)
  }

  /** A pass fixes the key names at every depth. */
  ghost predicate FixedNames(p: Pass, shape: Shape) {
    match shape
    case Record(keys) => forall k :: 0 <= k < |keys| ==> Fixes(p, keys[k].name) && FixedNames(p, keys[k].shape)
    case Records(keys) => forall k :: 0 <= k < |keys| ==> Fixes(p, keys[k].name) && FixedNames(p, keys[k].shape)
    case _ => true
  }

  ghost predicate InPlace(nfc: Nfc, fields: seq<Field>, normal: seq<Field>) {
    && |normal| == |fields|
    && forall i :: 0 <= i < |fields| ==> normal[i] == Field(fields[i].key, Normalize(nfc, fields[i].value))
  }

  lemma OneMoreInPlace(nfc: Nfc, front: seq<Field>, last: Field, normal: seq<Field>)
    requires InPlace(nfc, front, normal) && DistinctKeys(normal)
    requires forall i :: 0 <= i < |front| ==> front[i].key != last.key
    ensures InPlace(nfc, front + [last], Put(normal, last.key, Normalize(nfc, last.value)))
  {
    forall f | f in normal ensures f.key != last.key {
      var k :| 0 <= k < |normal| && normal[k] == f;
      assert normal[k].key == front[k].key;
    }
    PutAppends(normal, last.key, Normalize(nfc, last.value));
  }

  /** With keys already in NFC no two fields merge: each field is normalised in place. */
  lemma {:induction false} FieldsNormalizeInPlace(nfc: Nfc, fields: seq<Field>)
    requires DistinctKeys(fields) && forall i :: 0 <= i < |fields| ==> nfc(fields[i].key) == fields[i].key
    ensures InPlace(nfc, fields, NormalizeFields(nfc, fields))
    decreases |fields|
  {
    if fields != [] {
      var front, last := fields[..|fields| - 1], fields[|fields| - 1];
      FieldsNormalizeInPlace(nfc, front);
      OneMoreInPlace(nfc, front, last, NormalizeFields(nfc, front));
      assert fields == front + [last];
    }
  }

  lemma LookupNormalizes(nfc: Nfc, fields: seq<Field>, key: string)
    requires DistinctKeys(fields) && forall i :: 0 <= i < |fields| ==> nfc(fields[i].key) == fields[i].key
    requires Lookup(fields, key).Some?
    ensures Lookup(NormalizeFields(nfc, fields), key) == Some(Normalize(nfc, Lookup(fields, key).value))
  {
    FieldsNormalizeInPlace(nfc, fields);
    var f := Field(key, Lookup(fields, key).value);
    var i :| 0 <= i < |fields| && fields[i] == f;
    var n := NormalizeFields(nfc, fields);
    assert n[i] in n;
    LookupFinds(n, n[i]);
  }

  /** A record's fields are rewritten one by one. */
  ghost predicate RecordApplied(p: Pass, v: Json, w: Json, keys: seq<Key>) {
    HasKeys(w, keys) && forall k :: 0 <= k < |keys| ==> At(w, keys[k].name) == Apply(p, At(v, keys[k].name))
  }

  lemma NamedAreFixed(nfc: Nfc, fields: seq<Field>, keys: seq<Key>)
    requires AllNamed(fields, keys) && forall k :: 0 <= k < |keys| ==> nfc(keys[k].name) == keys[k].name
    ensures forall i :: 0 <= i < |fields| ==> nfc(fields[i].key) == fields[i].key
  {
  }

  lemma InPlaceNamed(nfc: Nfc, fields: seq<Field>, normal: seq<Field>, keys: seq<Key>)
    requires AllNamed(fields, keys) && InPlace(nfc, fields, normal)
    ensures AllNamed(normal, keys)
  {
  }

  lemma RecordNormalizes(nfc: Nfc, v: Json, keys: seq<Key>)
    requires WellFormed(v) && HasKeys(v, keys)
    requires forall k :: 0 <= k < |keys| ==> nfc(keys[k].name) == keys[k].name
    ensures RecordApplied(Normalizing(nfc), v, Normalize(nfc, v), keys)
  {
    NamedAreFixed(nfc, v.fields, keys);
    FieldsNormalizeInPlace(nfc, v.fields);
    InPlaceNamed(nfc, v.fields, NormalizeFields(nfc, v.fields), keys);
    forall k | 0 <= k < |keys|
      ensures Lookup(NormalizeFields(nfc, v.fields), keys[k].name) == Some(Normalize(nfc, At(v, keys[k].name)))
    {
      assert Present(v, keys[k].name);
      LookupNormalizes(nfc, v.fields, keys[k].name);
    }
  }

  lemma SortedKeysDistinct(fields: seq<Field>)
    requires SortedFields(fields)
    ensures DistinctKeys(fields)
  {
    forall i, j | 0 <= i < j < |fields| ensures fields[i].key != fields[j].key {
      LessTotal(fields[i].key, fields[i].key);
    }
  }

  lemma LookupSorts(fields: seq<Field>, key: string)
    requires DistinctKeys(fields) && Lookup(fields, key).Some?
    ensures Lookup(SortFields(CanonFields(fields)), key) == Some(Canon(Lookup(fields, key).value))
  {
    var f := Field(key, Lookup(fields, key).value);
    CanonFieldsContain(fields, CanonField(f));
    SortFieldsSorts(CanonFields(fields));
    SortedKeysDistinct(SortFields(CanonFields(fields)));
    LookupFinds(SortFields(CanonFields(fields)), CanonField(f));
  }

  lemma RecordSorts(v: Json, keys: seq<Key>)
    requires WellFormed(v) && HasKeys(v, keys)
    ensures RecordApplied(Sorting, v, Canon(v), keys)
  {
    var sorted := SortFields(CanonFields(v.fields));
    forall k | 0 <= k < |keys|
      ensures Present(Canon(v), keys[k].name) && At(Canon(v), keys[k].name) == Canon(At(v, keys[k].name))
    {
      assert Present(v, keys[k].name);
      LookupSorts(v.fields, keys[k].name);
    }
    forall i | 0 <= i < |sorted| ensures Named(keys, sorted[i].key) {
      assert sorted[i] in sorted;
      CanonFieldsContain(v.fields, sorted[i]);
      var f :| f in v.fields && CanonField(f) == sorted[i];
      var j :| 0 <= j < |v.fields| && v.fields[j] == f;
      assert Named(keys, v.fields[j].key);
    }
  }

  lemma RecordApplies(p: Pass, v: Json, keys: seq<Key>)
    requires WellFormed(v) && HasKeys(v, keys) && forall k :: 0 <= k < |keys| ==> Fixes(p, keys[k].name)
    ensures RecordApplied(p, v, Apply(p, v), keys)
  {
    match p
    case Normalizing(nfc) => RecordNormalizes(nfc, v, keys);
    case Sorting => RecordSorts(v, keys);
  }

  lemma AtIsWellFormed(v: Json, key: string)
    requires WellFormed(v)
    ensures WellFormed(At(v, key))
  {
  }

  /** A value of a shape keeps it under either pass. */
  lemma {:induction false} ConformsApplies(p: Pass, v: Json, shape: Shape)
    requires WellFormed(v) && FixedNames(p, shape) && Conforms(v, shape)
    ensures Conforms(Apply(p, v), shape)
    decreases shape, 1
  {
    match shape
    case Record(keys) => RecordConformsApplies(p, v, keys);
    case Records(keys) =>
      forall i | 0 <= i < |v.items| ensures ConformsRecord(Apply(p, v.items[i]), keys) {
        RecordConformsApplies(p, v.items[i], keys);
      }
    case _ =>
  }

  lemma {:induction false} RecordConformsApplies(p: Pass, v: Json, keys: seq<Key>)
    requires WellFormed(v) && FixedNames(p, Record(keys)) && ConformsRecord(v, keys)
    ensures ConformsRecord(Apply(p, v), keys)
    decreases keys, 0
  {
    RecordApplies(p, v, keys);
    forall k | 0 <= k < |keys| ensures Conforms(At(Apply(p, v), keys[k].name), keys[k].shape) {
      AtIsWellFormed(v, keys[k].name);
      ConformsApplies(p, At(v, keys[k].name), keys[k].shape);
    }
  }

  /** Under a fixed key name, text that the pass fixes and numbers stay as they are. */
  lemma AtApplies(p: Pass, v: Json, keys: seq<Key>, k: nat)
    requires WellFormed(v) && FixedNames(p, Record(keys)) && ConformsRecord(v, keys) && k < |keys|
    ensures At(Apply(p, v), keys[k].name) == Apply(p, At(v, keys[k].name))
  {
    RecordApplies(p, v, keys);
  }

  // ---------- building records ----------

  predicate DistinctNames(keys: seq<Key>) {
    forall i, j :: 0 <= i < j < |keys| ==> keys[i].name != keys[j].name
  }

  /** A dict literal with the keys in order. */
  function MakeRecord(keys: seq<Key>, values: seq<Json>): Json
    requires |keys| == |values|
  {
    Obj(seq(|keys|, i requires 0 <= i < |keys| => Field(keys[i].name, values[i])))
  }

  lemma MadeRecordHolds(keys: seq<Key>, values: seq<Json>)
    requires |keys| == |values| && DistinctNames(keys)
    ensures HasKeys(MakeRecord(keys, values), keys) && DistinctKeys(MakeRecord(keys, values).fields)
    ensures forall k :: 0 <= k < |keys| ==> At(MakeRecord(keys, values), keys[k].name) == values[k]
  {
    var v := MakeRecord(keys, values);
    forall k | 0 <= k < |keys| ensures Present(v, keys[k].name) && At(v, keys[k].name) == values[k] {
      assert v.fields[k] in v.fields;
      LookupFinds(v.fields, v.fields[k]);
    }
    forall i | 0 <= i < |v.fields| ensures Named(keys, v.fields[i].key) {
      assert keys[i].name == v.fields[i].key;
    }
  }

  /** A record of conforming values conforms. */
  lemma MadeRecordConforms(keys: seq<Key>, values: seq<Json>)
    requires |keys| == |values| && DistinctNames(keys)
    requires forall k :: 0 <= k < |keys| ==> Conforms(values[k], keys[k].shape)
    ensures ConformsRecord(MakeRecord(keys, values), keys)
  {
  }
}
