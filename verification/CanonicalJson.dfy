/** canonical-json-v1: NFC normalisation, key-sorted compact serialisation, and the
    hash identities the stored revisions rely on
    (ai_drama_runtime/storyboard_canonical.py and shot_prompt_canonical.py share it). */
module CanonicalJson {
  import opened Wrappers
  import opened JsonText
  import opened JsonRoundTrip

  // ---------- Unicode NFC, by the laws the code relies on ----------

  predicate IsAscii(s: string) {
    forall i :: 0 <= i < |s| ==> s[i] as int < 128
  }

  ghost predicate NfcLaws(f: string -> string) {
    && (forall s :: f(f(s)) == f(s))
    && (forall s :: s != "" ==> f(s) != "")
    && (forall s :: IsAscii(s) ==> f(s) == s)
  }

  /** Any idempotent map that keeps non-empty text non-empty and fixes ASCII. */
  type Nfc = f: string -> string | NfcLaws(f) witness (s: string) => s

  // ---------- normalisation ----------

  /** _normalize raises on an empty string value (keys are not checked). */
  predicate Accepted(v: Json) {
    match v
    case Str(s) => s != ""
    case Arr(items) => forall i :: 0 <= i < |items| ==> Accepted(items[i])
    case Obj(fields) => forall i :: 0 <= i < |fields| ==> Accepted(fields[i].value)
    case _ => true
  }

  /** d[key] = value on a dict: a key already present keeps its place. */
  function Put(fields: seq<Field>, key: string, value: Json): (r: seq<Field>)
    requires DistinctKeys(fields)
    ensures DistinctKeys(r)
    ensures forall f :: f in r <==> f == Field(key, value) || (f in fields && f.key != key)
  {
    if fields == [] then [Field(key, value)]
    else if fields[0].key == key then
      assert forall f :: f in fields <==> f == fields[0] || f in fields[1..];
      [Field(key, value)] + fields[1..]
    else
      var rest := Put(fields[1..], key, value);
      assert forall f :: f in fields <==> f == fields[0] || f in fields[1..];
      assert forall j :: 0 <= j < |rest| ==> rest[j] in rest;
      [fields[0]] + rest
  }

  /** A new key goes last. */
  lemma {:induction false} PutAppends(fields: seq<Field>, key: string, value: Json)
    requires DistinctKeys(fields) && forall f :: f in fields ==> f.key != key
    ensures Put(fields, key, value) == fields + [Field(key, value)]
  {
    if fields != [] {
      PutAppends(fields[1..], key, value);
      assert fields == [fields[0]] + fields[1..];
    }
  }

  function Normalize(nfc: Nfc, v: Json): Json
    decreases v, 1
  {
    match v
    case Str(s) => Str(nfc(s))
    case Arr(items) => Arr(NormalizeItems(nfc, items))
    case Obj(fields) => Obj(NormalizeFields(nfc, fields))
    case _ => v
  }

  function NormalizeItems(nfc: Nfc, items: seq<Json>): (r: seq<Json>)
    ensures |r| == |items|
    ensures forall i :: 0 <= i < |r| ==> r[i] == Normalize(nfc, items[i])
    decreases items, 0
  {
    if items == [] then []
    else [Normalize(nfc, items[0])] + NormalizeItems(nfc, items[1..])
  }

  /** A dict comprehension over the items: of two keys with one normal form the later value wins. */
  function NormalizeFields(nfc: Nfc, fields: seq<Field>): (r: seq<Field>)
    ensures DistinctKeys(r)
    decreases fields, 0
  {
    if fields == [] then []
    else
      var last := fields[|fields| - 1];
      Put(NormalizeFields(nfc, fields[..|fields| - 1]), nfc(last.key), Normalize(nfc, last.value))
  }

  // ---------- the order sort_keys uses ----------

  predicate Less(a: string, b: string) {
    b != [] && (a == [] || a[0] < b[0] || (a[0] == b[0] && Less(a[1..], b[1..])))
  }

  lemma {:induction false} LessTransitive(a: string, b: string, c: string)
    requires Less(a, b) && Less(b, c)
    ensures Less(a, c)
  {
    if a != [] && a[0] == b[0] == c[0] {
      LessTransitive(a[1..], b[1..], c[1..]);
    }
  }

  lemma {:induction false} LessTotal(a: string, b: string)
    ensures Less(a, b) || Less(b, a) || a == b
    ensures !(Less(a, b) && Less(b, a)) && !Less(a, a)
  {
    if a != [] && b != [] {
      LessTotal(a[1..], b[1..]);
      assert a == [a[0]] + a[1..] && b == [b[0]] + b[1..];
    }
    if a != [] {
      LessTotal(a[1..], a[1..]);
    }
  }

  ghost predicate SortedFields(fields: seq<Field>) {
    forall i, j :: 0 <= i < j < |fields| ==> Less(fields[i].key, fields[j].key)
  }

  function Insert(f: Field, fields: seq<Field>): (r: seq<Field>)
    ensures forall g :: g in r <==> g == f || g in fields
  {
    if fields == [] || Less(f.key, fields[0].key) then [f] + fields
    else
      assert forall g :: g in fields <==> g == fields[0] || g in fields[1..];
      [fields[0]] + Insert(f, fields[1..])
  }

  function SortFields(fields: seq<Field>): (r: seq<Field>)
    ensures forall g :: g in r <==> g in fields
  {
    if fields == [] then []
    else
      assert forall g :: g in fields <==> g == fields[0] || g in fields[1..];
      Insert(fields[0], SortFields(fields[1..]))
  }

  lemma {:induction false} InsertSorted(f: Field, fields: seq<Field>)
    requires SortedFields(fields) && forall g :: g in fields ==> g.key != f.key
    ensures SortedFields(Insert(f, fields))
  {
    if fields == [] {
    } else if Less(f.key, fields[0].key) {
      forall j | 0 <= j < |fields| ensures Less(f.key, fields[j].key) {
        if j > 0 { LessTransitive(f.key, fields[0].key, fields[j].key); }
      }
    } else {
      InsertSorted(f, fields[1..]);
      var rest := Insert(f, fields[1..]);
      forall j | 0 <= j < |rest| ensures Less(fields[0].key, rest[j].key) {
        assert rest[j] in rest;
        if rest[j] == f {
          assert fields[0] in fields;
          LessTotal(f.key, fields[0].key);
        } else {
          var k :| 0 <= k < |fields[1..]| && fields[1..][k] == rest[j];
        }
      }
    }
  }

  lemma {:induction false} SortFieldsSorts(fields: seq<Field>)
    requires DistinctKeys(fields)
    ensures SortedFields(SortFields(fields))
  {
    if fields != [] {
      SortFieldsSorts(fields[1..]);
      forall g | g in SortFields(fields[1..]) ensures g.key != fields[0].key {
        var k :| 0 <= k < |fields[1..]| && fields[1..][k] == g;
      }
      InsertSorted(fields[0], SortFields(fields[1..]));
    }
  }

  lemma SortedHead(fields: seq<Field>)
    requires SortedFields(fields) && fields != []
    ensures fields[0] in fields && fields[0] !in fields[1..]
    ensures forall f :: f in fields ==> f == fields[0] || Less(fields[0].key, f.key)
    ensures forall f :: f in fields <==> f == fields[0] || f in fields[1..]
  {
    LessTotal(fields[0].key, fields[0].key);
    forall k | 0 <= k < |fields[1..]| ensures fields[1..][k] != fields[0] {
      assert Less(fields[0].key, fields[k + 1].key);
    }
  }

  /** A set of fields has one sorted listing. */
  lemma {:induction false} SortedUnique(a: seq<Field>, b: seq<Field>)
    requires SortedFields(a) && SortedFields(b)
    requires forall f :: f in a <==> f in b
    ensures a == b
  {
    if a != [] { SortedHead(a); }
    if b != [] { SortedHead(b); }
    if a != [] && b != [] {
      LessTotal(a[0].key, b[0].key);
      assert a[0] == b[0];
      SortedUnique(a[1..], b[1..]);
      assert a == [a[0]] + a[1..] && b == [b[0]] + b[1..];
    }
  }

  // ---------- the key-sorted representative of a value ----------

  function Canon(v: Json): Json
    decreases v, 1
  {
    match v
    case Arr(items) => Arr(CanonItems(items))
    case Obj(fields) => Obj(SortFields(CanonFields(fields)))
    case _ => v
  }

  function CanonItems(items: seq<Json>): (r: seq<Json>)
    ensures |r| == |items|
    ensures forall i :: 0 <= i < |r| ==> r[i] == Canon(items[i])
    decreases items, 0
  {
    if items == [] then [] else [Canon(items[0])] + CanonItems(items[1..])
  }

  function CanonFields(fields: seq<Field>): (r: seq<Field>)
    ensures |r| == |fields|
    ensures forall i :: 0 <= i < |r| ==> r[i] == Field(fields[i].key, Canon(fields[i].value))
    decreases fields, 0
  {
    if fields == [] then []
    else [Field(fields[0].key, Canon(fields[0].value))] + CanonFields(fields[1..])
  }

  /** json.dumps with sort_keys=True: each object is written in key order. */
  function Dumps(v: Json): string {
    PrintValue(false, Canon(v))
  }

  datatype CanonicalError = SchemaInvalid

  function Serialize(nfc: Nfc, v: Json): Result<string, CanonicalError> {
    if Accepted(v) then Ok(Dumps(Normalize(nfc, v))) else Err(SchemaInvalid)
  }

  // ---------- equality of JSON values: the order of dict keys does not matter ----------

  /** true and 1 are different JSON values; PythonEqual below is the == that identifies them. */
  predicate SameValue(a: Json, b: Json)
    decreases a, 1
  {
    match a
    case Arr(xs) =>
      b.Arr? && |xs| == |b.items| && forall i :: 0 <= i < |xs| ==> SameValue(xs[i], b.items[i])
    case Obj(fs) =>
      && b.Obj?
      && (forall f :: f in fs ==> HasPartner(f, b.fields))
      && (forall g :: g in b.fields ==> IsPartner(g, fs))
    case _ => a == b
  }

  predicate HasPartner(f: Field, gs: seq<Field>)
    decreases f, 1
  {
    exists g :: g in gs && SameField(f, g)
  }

  predicate IsPartner(g: Field, fs: seq<Field>)
    decreases fs, 0
  {
    exists f :: f in fs && SameField(f, g)
  }

  predicate SameField(f: Field, g: Field)
    decreases f, 0
  {
    f.key == g.key && SameValue(f.value, g.value)
  }

  /** Equal dicts hold equal values under each key. */
  lemma LookupSame(fs: seq<Field>, gs: seq<Field>, key: string)
    requires DistinctKeys(gs) && SameValue(Obj(fs), Obj(gs))
    ensures Lookup(fs, key).Some? <==> Lookup(gs, key).Some?
    ensures Lookup(fs, key).Some? ==> SameValue(Lookup(fs, key).value, Lookup(gs, key).value)
  {
    var x, y := Lookup(fs, key), Lookup(gs, key);
    if x.Some? {
      assert HasPartner(Field(key, x.value), gs);
      var g :| g in gs && SameField(Field(key, x.value), g);
      LookupFinds(gs, g);
    } else if y.Some? {
      assert IsPartner(Field(key, y.value), fs);
    }
  }

  function CanonField(f: Field): Field {
    Field(f.key, Canon(f.value))
  }

  lemma CanonFieldsContain(fields: seq<Field>, c: Field)
    ensures c in CanonFields(fields) <==> exists f :: f in fields && CanonField(f) == c
    ensures c in SortFields(CanonFields(fields)) <==> c in CanonFields(fields)
  {
    var cf := CanonFields(fields);
    if c in cf {
      var k :| 0 <= k < |cf| && cf[k] == c;
      assert fields[k] in fields && CanonField(fields[k]) == c;
    }
    if f :| f in fields && CanonField(f) == c {
      var k :| 0 <= k < |fields| && fields[k] == f;
      assert cf[k] == c;
    }
  }

  /** Two dicts have one key-sorted representative exactly when they are equal. */
  lemma {:induction false} CanonDecidesSameValue(a: Json, b: Json)
    requires WellFormed(a) && WellFormed(b)
    ensures SameValue(a, b) <==> Canon(a) == Canon(b)
    decreases a, 1
  {
    if a.Arr? && b.Arr? {
      var n := |a.items|;
      if n == |b.items| {
        forall i | 0 <= i < n ensures SameValue(a.items[i], b.items[i]) <==> Canon(a.items[i]) == Canon(b.items[i]) {
          CanonDecidesSameValue(a.items[i], b.items[i]);
        }
        assert CanonItems(a.items) == CanonItems(b.items)
          <==> forall i :: 0 <= i < n ==> CanonItems(a.items)[i] == CanonItems(b.items)[i];
      }
    } else if a.Obj? && b.Obj? {
      forall f, g | f in a.fields && g in b.fields ensures SameField(f, g) <==> CanonField(f) == CanonField(g) {
        CanonDecidesSameValue(f.value, g.value);
      }
      CanonDecidesSameFields(a.fields, b.fields);
    }
  }

  ghost predicate Covered(fs: seq<Field>, gs: seq<Field>) {
    forall f :: f in fs ==> CanonField(f) in CanonFields(gs)
  }

  lemma CoveredSubset(fs: seq<Field>, gs: seq<Field>)
    ensures Covered(fs, gs) <==> forall c :: c in CanonFields(fs) ==> c in CanonFields(gs)
  {
    forall c | c in CanonFields(fs) ensures Covered(fs, gs) ==> c in CanonFields(gs) {
      CanonFieldsContain(fs, c);
    }
    forall f | f in fs ensures CanonField(f) in CanonFields(fs) {
      CanonFieldsContain(fs, CanonField(f));
    }
  }

  lemma SortDecidesElements(a: seq<Field>, b: seq<Field>)
    requires DistinctKeys(a) && DistinctKeys(b)
    ensures SortFields(a) == SortFields(b) <==> forall c :: c in a <==> c in b
  {
    if forall c :: c in a <==> c in b {
      SortFieldsSorts(a);
      SortFieldsSorts(b);
      SortedUnique(SortFields(a), SortFields(b));
    }
    if SortFields(a) == SortFields(b) {
      forall c ensures c in a <==> c in b {
        assert c in a <==> c in SortFields(a);
      }
    }
  }

  lemma CanonDecidesSameFields(fs: seq<Field>, gs: seq<Field>)
    requires DistinctKeys(fs) && DistinctKeys(gs)
    requires forall f, g :: f in fs && g in gs ==> (SameField(f, g) <==> CanonField(f) == CanonField(g))
    ensures SameValue(Obj(fs), Obj(gs)) <==> SortFields(CanonFields(fs)) == SortFields(CanonFields(gs))
  {
    forall f | f in fs ensures CanonField(f) in CanonFields(gs) <==> HasPartner(f, gs) {
      CanonFieldsContain(gs, CanonField(f));
    }
    forall g | g in gs ensures CanonField(g) in CanonFields(fs) <==> IsPartner(g, fs) {
      CanonFieldsContain(fs, CanonField(g));
    }
    assert SameValue(Obj(fs), Obj(gs)) <==> Covered(fs, gs) && Covered(gs, fs);
    CoveredSubset(fs, gs);
    CoveredSubset(gs, fs);
    SortDecidesElements(CanonFields(fs), CanonFields(gs));
  }

  // ---------- normal forms ----------

  /** Every string and key is in NFC, no string value is empty, keys are distinct. */
  ghost predicate Normal(nfc: Nfc, v: Json) {
    match v
    case Str(s) => s != "" && nfc(s) == s
    case Arr(items) => forall i :: 0 <= i < |items| ==> Normal(nfc, items[i])
    case Obj(fields) =>
      && DistinctKeys(fields)
      && forall i :: 0 <= i < |fields| ==> nfc(fields[i].key) == fields[i].key && Normal(nfc, fields[i].value)
    case _ => true
  }

  lemma {:induction false} NormalizeReachesNormal(nfc: Nfc, v: Json)
    requires Accepted(v)
    ensures Normal(nfc, Normalize(nfc, v))
    decreases v, 1
  {
    match v
    case Arr(items) =>
      forall i | 0 <= i < |items| ensures Normal(nfc, Normalize(nfc, items[i])) {
        NormalizeReachesNormal(nfc, items[i]);
      }
    case Obj(fields) => NormalizeFieldsReachNormal(nfc, fields);
    case _ =>
  }

  lemma {:induction false} NormalizeFieldsReachNormal(nfc: Nfc, fields: seq<Field>)
    requires forall i :: 0 <= i < |fields| ==> Accepted(fields[i].value)
    ensures Normal(nfc, Obj(NormalizeFields(nfc, fields)))
    decreases fields, 0
  {
    if fields != [] {
      var last := fields[|fields| - 1];
      var before := NormalizeFields(nfc, fields[..|fields| - 1]);
      NormalizeFieldsReachNormal(nfc, fields[..|fields| - 1]);
      NormalizeReachesNormal(nfc, last.value);
      var r := NormalizeFields(nfc, fields);
      forall i | 0 <= i < |r| ensures nfc(r[i].key) == r[i].key && Normal(nfc, r[i].value) {
        assert r[i] in r;
        if r[i] in before {
          var k :| 0 <= k < |before| && before[k] == r[i];
        }
      }
    }
  }

  lemma {:induction false} NormalIsFixed(nfc: Nfc, v: Json)
    requires Normal(nfc, v)
    ensures Normalize(nfc, v) == v
    decreases v, 1
  {
    match v
    case Arr(items) =>
      forall i | 0 <= i < |items| ensures Normalize(nfc, items[i]) == items[i] {
        NormalIsFixed(nfc, items[i]);
      }
      assert NormalizeItems(nfc, items) == items;
    case Obj(fields) => NormalFieldsAreFixed(nfc, fields);
    case _ =>
  }

  lemma PutFresh(front: seq<Field>, last: Field)
    requires DistinctKeys(front) && DistinctKeys(front + [last])
    ensures Put(front, last.key, last.value) == front + [last]
  {
    var all := front + [last];
    forall f | f in front ensures f.key != last.key {
      var k :| 0 <= k < |front| && front[k] == f;
      assert all[k].key != all[|front|].key;
    }
    PutAppends(front, last.key, last.value);
  }

  lemma NormalParts(nfc: Nfc, fields: seq<Field>)
    requires Normal(nfc, Obj(fields)) && fields != []
    ensures Normal(nfc, Obj(fields[..|fields| - 1]))
    ensures var last := fields[|fields| - 1]; nfc(last.key) == last.key && Normal(nfc, last.value)
  {
  }

  lemma {:induction false} NormalFieldsAreFixed(nfc: Nfc, fields: seq<Field>)
    requires Normal(nfc, Obj(fields))
    ensures NormalizeFields(nfc, fields) == fields
    decreases fields, 0
  {
    if fields != [] {
      var front, last := fields[..|fields| - 1], fields[|fields| - 1];
      NormalParts(nfc, fields);
      NormalFieldsAreFixed(nfc, front);
      NormalIsFixed(nfc, last.value);
      assert fields == front + [last];
      PutFresh(front, last);
    }
  }

  lemma {:induction false} CanonStaysNormal(nfc: Nfc, v: Json)
    requires Normal(nfc, v)
    ensures Normal(nfc, Canon(v))
    decreases v
  {
    match v
    case Arr(items) =>
      forall i | 0 <= i < |items| ensures Normal(nfc, Canon(items[i])) {
        CanonStaysNormal(nfc, items[i]);
      }
    case Obj(fields) =>
      var cf := CanonFields(fields);
      var sorted := SortFields(cf);
      SortFieldsSorts(cf);
      forall i | 0 <= i < |sorted| ensures nfc(sorted[i].key) == sorted[i].key && Normal(nfc, sorted[i].value) {
        assert sorted[i] in sorted;
        var k :| 0 <= k < |cf| && cf[k] == sorted[i];
        CanonStaysNormal(nfc, fields[k].value);
      }
      forall i, j | 0 <= i < j < |sorted| ensures sorted[i].key != sorted[j].key {
        LessTotal(sorted[i].key, sorted[i].key);
      }
    case _ =>
  }

  lemma {:induction false} SortedStays(fields: seq<Field>)
    requires SortedFields(fields)
    ensures SortFields(fields) == fields
  {
    if fields != [] {
      SortedStays(fields[1..]);
      assert fields == [fields[0]] + fields[1..];
      if |fields| > 1 { assert Less(fields[0].key, fields[1].key); }
    }
  }

  lemma {:induction false} CanonIdempotent(v: Json)
    requires WellFormed(v)
    ensures WellFormed(Canon(v)) && Canon(Canon(v)) == Canon(v)
    decreases v
  {
    match v
    case Arr(items) =>
      forall i | 0 <= i < |items| ensures WellFormed(Canon(items[i])) && Canon(Canon(items[i])) == Canon(items[i]) {
        CanonIdempotent(items[i]);
      }
      assert CanonItems(CanonItems(items)) == CanonItems(items);
    case Obj(fields) =>
      var cf := CanonFields(fields);
      var sorted := SortFields(cf);
      SortFieldsSorts(cf);
      forall i | 0 <= i < |sorted|
        ensures WellFormed(sorted[i].value) && Canon(sorted[i].value) == sorted[i].value
      {
        assert sorted[i] in sorted;
        var k :| 0 <= k < |cf| && cf[k] == sorted[i];
        CanonIdempotent(fields[k].value);
      }
      forall i, j | 0 <= i < j < |sorted| ensures sorted[i].key != sorted[j].key {
        LessTotal(sorted[i].key, sorted[i].key);
      }
      assert CanonFields(sorted) == sorted;
      SortedStays(sorted);
    case _ =>
  }

  lemma {:induction false} NormalIsWellFormed(nfc: Nfc, v: Json)
    requires Normal(nfc, v)
    ensures WellFormed(v) && Accepted(v)
    decreases v
  {
    match v
    case Arr(items) =>
      forall i | 0 <= i < |items| ensures WellFormed(items[i]) && Accepted(items[i]) {
        NormalIsWellFormed(nfc, items[i]);
      }
    case Obj(fields) =>
      forall i | 0 <= i < |fields| ensures WellFormed(fields[i].value) && Accepted(fields[i].value) {
        NormalIsWellFormed(nfc, fields[i].value);
      }
    case _ =>
  }

  // ---------- main results ----------

  /** The decoder reads back the key-sorted normal form of whatever was serialised. */
  lemma ParseAfterSerialize(nfc: Nfc, v: Json)
    requires Accepted(v)
    ensures ParseText(Serialize(nfc, v).value) == Done(Canon(Normalize(nfc, v)), "")
    ensures SameValue(ParseText(Serialize(nfc, v).value).value, Normalize(nfc, v))
  {
    var n := Normalize(nfc, v);
    NormalizeReachesNormal(nfc, v);
    NormalIsWellFormed(nfc, n);
    CanonIdempotent(n);
    TextRoundTrip(false, Canon(n));
    CanonDecidesSameValue(Canon(n), n);
  }

  /** Serialising what was read back gives the same text. */
  lemma SerializeAfterParse(nfc: Nfc, v: Json)
    requires Accepted(v)
    ensures ParseText(Serialize(nfc, v).value).Done?
    ensures Serialize(nfc, ParseText(Serialize(nfc, v).value).value) == Serialize(nfc, v)
  {
    var n := Normalize(nfc, v);
    ParseAfterSerialize(nfc, v);
    NormalizeReachesNormal(nfc, v);
    CanonStaysNormal(nfc, n);
    NormalIsFixed(nfc, Canon(n));
    NormalIsWellFormed(nfc, n);
    NormalIsWellFormed(nfc, Canon(n));
    CanonIdempotent(n);
  }

  /** Two values serialise alike exactly when their normal forms are equal. */
  lemma SerializeDecidesSameNormalForm(nfc: Nfc, a: Json, b: Json)
    requires Accepted(a) && Accepted(b)
    ensures Serialize(nfc, a) == Serialize(nfc, b) <==> SameValue(Normalize(nfc, a), Normalize(nfc, b))
  {
    var m, n := Normalize(nfc, a), Normalize(nfc, b);
    ParseAfterSerialize(nfc, a);
    ParseAfterSerialize(nfc, b);
    NormalizeReachesNormal(nfc, a);
    NormalizeReachesNormal(nfc, b);
    NormalIsWellFormed(nfc, m);
    NormalIsWellFormed(nfc, n);
    CanonDecidesSameValue(m, n);
  }

  /** json.dumps(sort_keys=True) alone is injective up to the order of dict keys. */
  lemma DumpsDecidesSameValue(a: Json, b: Json)
    requires WellFormed(a) && WellFormed(b)
    ensures Dumps(a) == Dumps(b) <==> SameValue(a, b)
  {
    CanonIdempotent(a);
    CanonIdempotent(b);
    TextRoundTrip(false, Canon(a));
    TextRoundTrip(false, Canon(b));
    CanonDecidesSameValue(a, b);
  }

  /** json.dumps with sort_keys=True and the default ensure_ascii=True. */
  function DumpsAscii(v: Json): string {
    PrintValue(true, Canon(v))
  }

  lemma DumpsAsciiDecidesSameValue(a: Json, b: Json)
    requires WellFormed(a) && WellFormed(b)
    ensures DumpsAscii(a) == DumpsAscii(b) <==> SameValue(a, b)
  {
    CanonIdempotent(a);
    CanonIdempotent(b);
    TextRoundTrip(true, Canon(a));
    TextRoundTrip(true, Canon(b));
    CanonDecidesSameValue(a, b);
  }

  // ---------- where Python's == and the digest part ways ----------

  /** a == b in Python: True equals 1 and False equals 0, at any depth. */
  predicate PythonEqual(a: Json, b: Json)
    decreases a, 1
  {
    match a
    case Bool(x) => (b.Bool? && b.b == x) || (b.Num? && b.n == if x then 1 else 0)
    case Num(n) => (b.Num? && b.n == n) || (b.Bool? && n == if b.b then 1 else 0)
    case Arr(xs) =>
      b.Arr? && |xs| == |b.items| && forall i :: 0 <= i < |xs| ==> PythonEqual(xs[i], b.items[i])
    case Obj(fs) =>
      && b.Obj?
      && (forall f :: f in fs ==> HasEqual(f, b.fields))
      && (forall g :: g in b.fields ==> IsEqual(g, fs))
    case _ => a == b
  }

  predicate HasEqual(f: Field, gs: seq<Field>)
    decreases f, 1
  {
    exists g :: g in gs && EqualField(f, g)
  }

  predicate IsEqual(g: Field, fs: seq<Field>)
    decreases fs, 0
  {
    exists f :: f in fs && EqualField(f, g)
  }

  predicate EqualField(f: Field, g: Field)
    decreases f, 0
  {
    f.key == g.key && PythonEqual(f.value, g.value)
  }

  /** No boolean and no number at any depth. */
  predicate OnlyText(v: Json) {
    match v
    case Bool(_) => false
    case Num(_) => false
    case Arr(items) => forall i :: 0 <= i < |items| ==> OnlyText(items[i])
    case Obj(fields) => forall i :: 0 <= i < |fields| ==> OnlyText(fields[i].value)
    case _ => true
  }

  /** Compared with a value that holds neither booleans nor numbers, Python's == is equality of JSON values. */
  lemma {:induction false} PythonEqualOnText(a: Json, b: Json)
    requires OnlyText(b)
    ensures PythonEqual(a, b) <==> SameValue(a, b)
    decreases a
  {
    if a.Arr? && b.Arr? && |a.items| == |b.items| {
      forall i | 0 <= i < |a.items| ensures PythonEqual(a.items[i], b.items[i]) <==> SameValue(a.items[i], b.items[i]) {
        PythonEqualOnText(a.items[i], b.items[i]);
      }
    } else if a.Obj? && b.Obj? {
      forall f, g | f in a.fields && g in b.fields ensures EqualField(f, g) <==> SameField(f, g) {
        var j :| 0 <= j < |b.fields| && b.fields[j] == g;
        PythonEqualOnText(f.value, g.value);
      }
      PartnersAgree(a.fields, b.fields);
    }
  }

  lemma PartnersAgree(fs: seq<Field>, gs: seq<Field>)
    requires forall f, g :: f in fs && g in gs ==> (EqualField(f, g) <==> SameField(f, g))
    ensures PythonEqual(Obj(fs), Obj(gs)) <==> SameValue(Obj(fs), Obj(gs))
  {
    forall f | f in fs ensures HasEqual(f, gs) <==> HasPartner(f, gs) {
    }
    forall g | g in gs ensures IsEqual(g, fs) <==> IsPartner(g, fs) {
    }
  }

  lemma {:induction false} PythonEqualSymmetric(a: Json, b: Json)
    ensures PythonEqual(a, b) <==> PythonEqual(b, a)
    decreases a
  {
    if a.Arr? && b.Arr? && |a.items| == |b.items| {
      forall i | 0 <= i < |a.items| ensures PythonEqual(a.items[i], b.items[i]) <==> PythonEqual(b.items[i], a.items[i]) {
        PythonEqualSymmetric(a.items[i], b.items[i]);
      }
    } else if a.Obj? && b.Obj? {
      forall f, g | f in a.fields && g in b.fields ensures EqualField(f, g) <==> EqualField(g, f) {
        PythonEqualSymmetric(f.value, g.value);
      }
      SwappedPartners(a.fields, b.fields);
    }
  }

  lemma {:induction false} SwappedPartners(fs: seq<Field>, gs: seq<Field>)
    requires forall f, g :: f in fs && g in gs ==> (EqualField(f, g) <==> EqualField(g, f))
    ensures PythonEqual(Obj(fs), Obj(gs)) <==> PythonEqual(Obj(gs), Obj(fs))
  {
    forall f | f in fs ensures HasEqual(f, gs) <==> IsEqual(f, gs) {
    }
    forall g | g in gs ensures IsEqual(g, fs) <==> HasEqual(g, fs) {
    }
  }

  /** Python's == on words, numbers and texts: only a truth value and a number are identified, True with 1
      and False with 0. */
  lemma PythonEqualScalars(x: bool, y: bool, m: int, n: int, s: string, t: string)
    ensures PythonEqual(Bool(x), Bool(y)) <==> x == y
    ensures PythonEqual(Num(m), Num(n)) <==> m == n
    ensures PythonEqual(Str(s), Str(t)) <==> s == t
    ensures PythonEqual(Bool(x), Num(n)) <==> (x && n == 1) || (!x && n == 0)
    ensures PythonEqual(Num(n), Bool(x)) <==> (x && n == 1) || (!x && n == 0)
    ensures PythonEqual(Null, Null)
    ensures !PythonEqual(Null, Bool(x)) && !PythonEqual(Null, Num(n)) && !PythonEqual(Null, Str(s))
    ensures !PythonEqual(Bool(x), Null) && !PythonEqual(Num(n), Null) && !PythonEqual(Str(s), Null)
    ensures !PythonEqual(Str(s), Bool(x)) && !PythonEqual(Str(s), Num(n)) && !PythonEqual(Bool(x), Str(s)) && !PythonEqual(Num(n), Str(s))
  {
  }

  /** {"a": True} and {"a": 1}. */
  function OneEntry(v: Json): Json {
    Obj([Field("a", v)])
  }

  lemma TrueEntryEqualsOne()
    ensures PythonEqual(OneEntry(Bool(true)), OneEntry(Num(1)))
  {
    var a, b := OneEntry(Bool(true)), OneEntry(Num(1));
    assert a.fields[0] in a.fields && b.fields[0] in b.fields;
    assert EqualField(a.fields[0], b.fields[0]);
  }

  lemma {:induction false} OneEntryDiffers(v: Json, w: Json)
    requires !SameValue(v, w)
    ensures !SameValue(OneEntry(v), OneEntry(w))
  {
    var f, g := Field("a", v), Field("a", w);
    assert f in [f] && !HasPartner(f, [g]);
  }

  lemma {:induction false} OneEntryWellFormed(v: Json)
    requires WellFormed(v)
    ensures WellFormed(OneEntry(v))
  {
  }

  /** {"a": True} == {"a": 1} in Python, but they are different JSON values with different dumps, so every
      digest of their text tells them apart. */
  lemma EqualDictsDumpApart() returns (a: Json, b: Json)
    ensures WellFormed(a) && WellFormed(b) && PythonEqual(a, b) && PythonEqual(b, a)
    ensures !SameValue(a, b) && Dumps(a) != Dumps(b)
  {
    a, b := OneEntry(Bool(true)), OneEntry(Num(1));
    TrueEntryEqualsOne();
    PythonEqualSymmetric(a, b);
    OneEntryDiffers(Bool(true), Num(1));
    OneEntryWellFormed(Bool(true));
    OneEntryWellFormed(Num(1));
    DumpsDecidesSameValue(a, b);
  }
}
