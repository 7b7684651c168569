/** What the decoder accepts beyond the printer's own output, and what it refuses: white space between any
    two tokens, repeated keys, non-finite numbers, floats, lone surrogates, unread text
    (RFC 8259, sections 2, 4 and 7; ai_drama_runtime/parser.py). */
module JsonSpacing {
  import opened Wrappers
  import opened JsonText
  import opened JsonRoundTrip

  predicate Blank(gap: string) {
    forall i :: 0 <= i < |gap| ==> gap[i] == '\U{20}' || gap[i] == '\U{09}' || gap[i] == '\U{0A}' || gap[i] == '\U{0D}'
  }

  // ---------- the printer with a gap between tokens ----------

  function Spaced(gap: string, ascii: bool, v: Json): string
    decreases v, 1
  {
    match v
    case Arr(items) => "[" + (gap + (SpacedItems(gap, ascii, items) + "]"))
    case Obj(fields) => "{" + (gap + (SpacedFields(gap, ascii, fields) + "}"))
    case _ => PrintValue(ascii, v)
  }

  function SpacedItems(gap: string, ascii: bool, items: seq<Json>): string
    decreases items, 0
  {
    if items == [] then ""
    else if |items| == 1 then Spaced(gap, ascii, items[0]) + gap
    else Spaced(gap, ascii, items[0]) + (gap + ("," + (gap + SpacedItems(gap, ascii, items[1..]))))
  }

  function SpacedField(gap: string, ascii: bool, f: Field): string
    decreases f, 0
  {
    PrintString(ascii, f.key) + (gap + (":" + (gap + Spaced(gap, ascii, f.value))))
  }

  function SpacedFields(gap: string, ascii: bool, fields: seq<Field>): string
    decreases fields, 0
  {
    if fields == [] then ""
    else if |fields| == 1 then SpacedField(gap, ascii, fields[0]) + gap
    else SpacedField(gap, ascii, fields[0]) + (gap + ("," + (gap + SpacedFields(gap, ascii, fields[1..]))))
  }

  // ---------- skipping ----------

  lemma {:induction false} GapSkipped(gap: string, s: string)
    requires Blank(gap) && (s == [] || !IsSpace(s[0]))
    ensures SkipSpace(gap + s) == s
  {
    if gap == [] {
      assert gap + s == s;
    } else {
      assert (gap + s)[1..] == gap[1..] + s;
      GapSkipped(gap[1..], s);
    }
  }

  /** A gap before a comma or a bracket cannot extend a number. */
  lemma GapBounds(gap: string, end: string)
    requires Blank(gap) && Boundary(end)
    ensures Boundary(gap + end)
  {
    if gap == [] { assert gap + end == end; }
  }

  lemma Assoc(a: string, b: string, c: string)
    ensures (a + b) + c == a + (b + c)
  {
  }

  lemma Assoc4(a: string, b: string, c: string, d: string, e: string)
    ensures (a + (b + (c + d))) + e == a + (b + (c + (d + e)))
  {
  }

  predicate Opens(s: string) {
    s != [] && !IsSpace(s[0]) && s[0] != ']' && s[0] != '}'
  }

  lemma SpacedOpens(gap: string, ascii: bool, v: Json)
    ensures Opens(Spaced(gap, ascii, v)) && Spaced(gap, ascii, v)[0] != '\U{FEFF}'
  {
    PrintValueStart(ascii, v);
  }

  lemma OpensFirst(a: string, b: string)
    requires Opens(a)
    ensures Opens(a + b) && (a + b)[0] == a[0]
  {
  }

  // ---------- lists ----------

  lemma {:induction false} SpacedValueRead(gap: string, ascii: bool, v: Json, tail: string)
    requires Blank(gap) && WellFormed(v) && Boundary(tail)
    ensures ParseValue(Spaced(gap, ascii, v) + tail) == Done(v, tail)
    decreases v, 2
  {
    match v
    case Arr(items) => SpacedArrayRead(gap, ascii, items, tail);
    case Obj(fields) => SpacedObjectRead(gap, ascii, fields, tail);
    case _ => ValueRoundTrip(ascii, v, tail);
  }

  lemma {:induction false} SpacedArrayRead(gap: string, ascii: bool, items: seq<Json>, tail: string)
    requires Blank(gap) && forall i :: 0 <= i < |items| ==> WellFormed(items[i])
    ensures ParseValue(Spaced(gap, ascii, Arr(items)) + tail) == Done(Arr(items), tail)
    decreases items, 1
  {
    var body := SpacedItems(gap, ascii, items) + ("]" + tail);
    Assoc4("[", gap, SpacedItems(gap, ascii, items), "]", tail);
    OpeningBracket(gap + body);
    if items == [] {
      assert body == "]" + tail;
      GapSkipped(gap, body);
      assert body[1..] == tail;
    } else {
      ItemsOpen(gap, ascii, items);
      OpensFirst(SpacedItems(gap, ascii, items), "]" + tail);
      SpacedItemsRead(gap, ascii, items, tail);
      ItemsAfterGap(gap, body, items, tail);
    }
  }

  lemma ItemsAfterGap(gap: string, body: string, items: seq<Json>, tail: string)
    requires Blank(gap) && Opens(body) && ParseItems(body) == Done(items, tail)
    ensures ParseArray(gap + body) == Done(Arr(items), tail)
  {
    GapSkipped(gap, body);
  }

  lemma ItemsOpen(gap: string, ascii: bool, items: seq<Json>)
    requires items != []
    ensures Opens(SpacedItems(gap, ascii, items))
  {
    SpacedOpens(gap, ascii, items[0]);
  }

  lemma {:induction false} SpacedItemsRead(gap: string, ascii: bool, items: seq<Json>, tail: string)
    requires Blank(gap) && items != [] && forall i :: 0 <= i < |items| ==> WellFormed(items[i])
    ensures ParseItems(SpacedItems(gap, ascii, items) + ("]" + tail)) == Done(items, tail)
    decreases items, 0
  {
    if |items| == 1 {
      LastItemRead(gap, ascii, items[0], tail);
      Assoc(Spaced(gap, ascii, items[0]), gap, "]" + tail);
      assert [items[0]] == items;
    } else {
      SpacedItemsRead(gap, ascii, items[1..], tail);
      NextItemRead(gap, ascii, items[0], items[1..], tail);
      Nested(Spaced(gap, ascii, items[0]), gap, ",", SpacedItems(gap, ascii, items[1..]), "]" + tail);
      assert [items[0]] + items[1..] == items;
    }
  }

  lemma Nested(a: string, gap: string, sep: string, more: string, end: string)
    ensures (a + (gap + (sep + (gap + more)))) + end == a + (gap + (sep + (gap + (more + end))))
  {
  }

  lemma {:induction false} LastItemRead(gap: string, ascii: bool, v: Json, tail: string)
    requires Blank(gap) && WellFormed(v)
    ensures ParseItems(Spaced(gap, ascii, v) + (gap + ("]" + tail))) == Done([v], tail)
    decreases v, 3
  {
    GapBounds(gap, "]" + tail);
    SpacedValueRead(gap, ascii, v, gap + ("]" + tail));
    GapSkipped(gap, "]" + tail);
    assert ("]" + tail)[1..] == tail;
  }

  lemma {:induction false} NextItemRead(gap: string, ascii: bool, v: Json, items: seq<Json>, tail: string)
    requires Blank(gap) && WellFormed(v) && items != []
    requires ParseItems(SpacedItems(gap, ascii, items) + ("]" + tail)) == Done(items, tail)
    ensures ParseItems(Spaced(gap, ascii, v) + (gap + ("," + (gap + (SpacedItems(gap, ascii, items) + ("]" + tail))))))
         == Done([v] + items, tail)
    decreases v, 3
  {
    var more := SpacedItems(gap, ascii, items) + ("]" + tail);
    GapBounds(gap, "," + (gap + more));
    SpacedValueRead(gap, ascii, v, gap + ("," + (gap + more)));
    GapSkipped(gap, "," + (gap + more));
    assert ("," + (gap + more))[1..] == gap + more;
    ItemsOpen(gap, ascii, items);
    OpensFirst(SpacedItems(gap, ascii, items), "]" + tail);
    GapSkipped(gap, more);
  }

  // ---------- dicts ----------

  lemma {:induction false} SpacedObjectRead(gap: string, ascii: bool, fields: seq<Field>, tail: string)
    requires Blank(gap) && DistinctKeys(fields) && forall i :: 0 <= i < |fields| ==> WellFormed(fields[i].value)
    ensures ParseValue(Spaced(gap, ascii, Obj(fields)) + tail) == Done(Obj(fields), tail)
    decreases fields, 1
  {
    var body := SpacedFields(gap, ascii, fields) + ("}" + tail);
    Assoc4("{", gap, SpacedFields(gap, ascii, fields), "}", tail);
    OpeningBracket(gap + body);
    if fields == [] {
      assert body == "}" + tail;
      GapSkipped(gap, body);
      assert body[1..] == tail;
    } else {
      FieldsOpen(gap, ascii, fields);
      OpensFirst(SpacedFields(gap, ascii, fields), "}" + tail);
      SpacedFieldsRead(gap, ascii, fields, tail);
      FieldsAfterGap(gap, body, fields, tail);
    }
  }

  lemma FieldsAfterGap(gap: string, body: string, fields: seq<Field>, tail: string)
    requires Blank(gap) && Opens(body) && DistinctKeys(fields) && ParseFields(body) == Done(fields, tail)
    ensures ParseObject(gap + body) == Done(Obj(fields), tail)
  {
    GapSkipped(gap, body);
  }

  lemma FieldsOpen(gap: string, ascii: bool, fields: seq<Field>)
    requires fields != []
    ensures Opens(SpacedFields(gap, ascii, fields)) && SpacedFields(gap, ascii, fields)[0] == '\"'
  {
  }

  lemma QuotedNested(chars: string, gap: string, value: string, end: string)
    ensures ("\"" + chars + "\"" + (gap + (":" + (gap + value)))) + end
         == "\"" + (chars + ("\"" + (gap + (":" + (gap + (value + end))))))
  {
  }

  lemma QuoteFirst(s: string)
    ensures ("\"" + s)[0] == '\"' && ("\"" + s)[1..] == s
  {
  }

  lemma KeyText(gap: string, ascii: bool, f: Field, end: string)
    ensures var s := SpacedField(gap, ascii, f) + end;
            && s != [] && s[0] == '\"'
            && s[1..] == EscapeAll(ascii, f.key) + ("\"" + (gap + (":" + (gap + (Spaced(gap, ascii, f.value) + end)))))
  {
    QuotedNested(EscapeAll(ascii, f.key), gap, Spaced(gap, ascii, f.value), end);
    QuoteFirst(EscapeAll(ascii, f.key) + ("\"" + (gap + (":" + (gap + (Spaced(gap, ascii, f.value) + end))))));
  }

  lemma {:induction false} SpacedFieldRead(gap: string, ascii: bool, f: Field, end: string)
    requires Blank(gap) && WellFormed(f.value) && Boundary(end)
    ensures ParseField(SpacedField(gap, ascii, f) + end) == Done(f, end)
    decreases f, 0
  {
    var value := Spaced(gap, ascii, f.value) + end;
    KeyText(gap, ascii, f, end);
    CharsRoundTrip(ascii, f.key, gap + (":" + (gap + value)));
    GapSkipped(gap, ":" + (gap + value));
    assert (":" + (gap + value))[1..] == gap + value;
    SpacedOpens(gap, ascii, f.value);
    OpensFirst(Spaced(gap, ascii, f.value), end);
    GapSkipped(gap, value);
    SpacedValueRead(gap, ascii, f.value, end);
  }

  lemma {:induction false} SpacedFieldsRead(gap: string, ascii: bool, fields: seq<Field>, tail: string)
    requires Blank(gap) && fields != [] && forall i :: 0 <= i < |fields| ==> WellFormed(fields[i].value)
    ensures ParseFields(SpacedFields(gap, ascii, fields) + ("}" + tail)) == Done(fields, tail)
    decreases fields, 0
  {
    if |fields| == 1 {
      LastFieldRead(gap, ascii, fields[0], tail);
      Assoc(SpacedField(gap, ascii, fields[0]), gap, "}" + tail);
      assert [fields[0]] == fields;
    } else {
      SpacedFieldsRead(gap, ascii, fields[1..], tail);
      NextFieldRead(gap, ascii, fields[0], fields[1..], tail);
      Nested(SpacedField(gap, ascii, fields[0]), gap, ",", SpacedFields(gap, ascii, fields[1..]), "}" + tail);
      assert [fields[0]] + fields[1..] == fields;
    }
  }

  lemma {:induction false} LastFieldRead(gap: string, ascii: bool, f: Field, tail: string)
    requires Blank(gap) && WellFormed(f.value)
    ensures ParseFields(SpacedField(gap, ascii, f) + (gap + ("}" + tail))) == Done([f], tail)
    decreases f, 1
  {
    GapBounds(gap, "}" + tail);
    SpacedFieldRead(gap, ascii, f, gap + ("}" + tail));
    GapSkipped(gap, "}" + tail);
    assert ("}" + tail)[1..] == tail;
  }

  lemma {:induction false} NextFieldRead(gap: string, ascii: bool, f: Field, fields: seq<Field>, tail: string)
    requires Blank(gap) && WellFormed(f.value) && fields != []
    requires ParseFields(SpacedFields(gap, ascii, fields) + ("}" + tail)) == Done(fields, tail)
    ensures ParseFields(SpacedField(gap, ascii, f) + (gap + ("," + (gap + (SpacedFields(gap, ascii, fields) + ("}" + tail))))))
         == Done([f] + fields, tail)
    decreases f, 1
  {
    var more := SpacedFields(gap, ascii, fields) + ("}" + tail);
    GapBounds(gap, "," + (gap + more));
    SpacedFieldRead(gap, ascii, f, gap + ("," + (gap + more)));
    GapSkipped(gap, "," + (gap + more));
    assert ("," + (gap + more))[1..] == gap + more;
    FieldsOpen(gap, ascii, fields);
    OpensFirst(SpacedFields(gap, ascii, fields), "}" + tail);
    GapSkipped(gap, more);
  }

  /** White space of the four JSON kinds may stand before, after and between any two tokens. */
  lemma SpacedTextRead(gap: string, ascii: bool, v: Json)
    requires Blank(gap) && WellFormed(v)
    ensures ParseText(gap + (Spaced(gap, ascii, v) + gap)) == Done(v, "")
  {
    var s := Spaced(gap, ascii, v) + gap;
    SpacedOpens(gap, ascii, v);
    OpensFirst(Spaced(gap, ascii, v), gap);
    GapSkipped(gap, s);
    GapBounds(gap, "");
    assert gap + "" == gap;
    SpacedValueRead(gap, ascii, v, gap);
    GapSkipped(gap, "");
    if gap != [] { assert (gap + s)[0] == gap[0]; } else { assert gap + s == s; }
  }

  // ---------- what is refused ----------

  /** Text after the value is refused, and so is any first character that opens no value. */
  lemma UnreadTextRefused(ascii: bool, v: Json, rest: string)
    requires WellFormed(v) && rest != [] && (rest[0] == ',' || rest[0] == ']' || rest[0] == '}')
    ensures ParseText(PrintValue(ascii, v) + rest) == Fail(Syntax)
  {
    var s := PrintValue(ascii, v) + rest;
    PrintValueStart(ascii, v);
    assert s[0] == PrintValue(ascii, v)[0];
    SkipSpaceStops(s);
    ValueRoundTrip(ascii, v, rest);
    SkipSpaceStops(rest);
  }

  lemma StrangeStartRefused(c: char, rest: string)
    requires c !in " \t\n\r\"{[-0123456789ntfNI"
    ensures ParseText([c] + rest) == Fail(Syntax)
  {
    SkipSpaceStops([c] + rest);
  }

  lemma EmptyTextRefused(gap: string)
    requires Blank(gap)
    ensures ParseText(gap) == Fail(Syntax)
  {
    GapSkipped(gap, "");
    assert gap + "" == gap;
  }

  /** Two fields with one key. */
  lemma RepeatedKeyRefused(ascii: bool, key: string, v: Json, w: Json)
    requires WellFormed(v) && WellFormed(w)
    ensures ParseText("{" + (PrintField(ascii, Field(key, v)) + ("," + (PrintField(ascii, Field(key, w)) + "}"))))
         == Fail(DuplicateKey)
  {
    var f, g := Field(key, v), Field(key, w);
    var body := PrintField(ascii, f) + ("," + (PrintField(ascii, g) + ("}" + "")));
    assert "}" + "" == "}";
    FieldsRoundTrip(ascii, [g], "");
    NextFieldRoundTrip(ascii, f, [g], "");
    assert body[0] == '\"';
    SkipSpaceStops(body);
    assert [f] + [g] == [f, g] && [f, g][0].key == [f, g][1].key;
    OpeningBracket(body);
    SkipSpaceStops("{" + body);
  }

  lemma NonFiniteRefused()
    ensures ParseText("NaN") == Fail(NonFinite) && ParseText("Infinity") == Fail(NonFinite)
    ensures ParseText("-Infinity") == Fail(NonFinite)
  {
    SkipSpaceStops("NaN");
    SkipSpaceStops("Infinity");
    SkipSpaceStops("-Infinity");
  }

  /** A control character inside a string. */
  lemma ControlCharacterRefused(c: char, rest: string)
    requires c < ' '
    ensures ParseText("\"" + ([c] + rest)) == Fail(Syntax)
  {
    var s := "\"" + ([c] + rest);
    SkipSpaceStops(s);
    assert s[1..] == [c] + rest;
  }

  /** A number with a fraction or an exponent is a float. */
  lemma FloatsSetApart(n: nat, rest: string)
    requires FloatTail(rest)
    ensures ParseText(Digits(n) + rest) == Fail(FloatNotModelled)
  {
    var s := Digits(n) + rest;
    DigitsShape(n);
    assert s[0] == Digits(n)[0] && IsDigit(s[0]);
    FloatNotRead(n, rest);
    SkipSpaceStops(s);
    NotInfinity(s);
    NumberBranch(s);
  }

  /** Nothing else does: after any other text the integer is read as far as it goes. */
  lemma FloatFollowsTail(rest: string)
    ensures FloatFollows(rest) <==> FloatTail(rest)
    ensures FloatTail(rest) ==> !IsDigit(rest[0])
  {
  }

  lemma FloatNotRead(n: nat, rest: string)
    requires FloatTail(rest)
    ensures ParseNat(Digits(n) + rest) == Fail(FloatNotModelled)
  {
    FloatFollowsTail(rest);
    DigitsShape(n);
    DigitRunOf(Digits(n), rest);
    assert (Digits(n) + rest)[|Digits(n)|..] == rest && (Digits(n) + rest)[0] == Digits(n)[0];
  }

  /** .5, e5, E5, e+5, e-5 and the like, whatever comes after. */
  predicate FloatTail(s: string) {
    || (|s| >= 2 && s[0] in ".eE" && s[1] in "0123456789")
    || (|s| >= 3 && s[0] in "eE" && s[1] in "+-" && s[2] in "0123456789")
  }
}
