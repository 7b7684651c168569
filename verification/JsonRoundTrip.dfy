/** The decoder of JsonText inverts its printer on every well-formed value. */
module JsonRoundTrip {
  import opened Wrappers
  import opened JsonText

  /** Text that can follow a printed value: its first character cannot extend a number. */
  predicate Boundary(tail: string) {
    tail == [] || tail[0] == ',' || tail[0] == ']' || tail[0] == '}' || IsSpace(tail[0])
  }

  lemma SkipSpaceStops(s: string)
    requires s == [] || !IsSpace(s[0])
    ensures SkipSpace(s) == s
  {
  }

  lemma Regroup(a: string, b: string, c: string, d: string)
    ensures a + b + c + d == a + (b + (c + d))
  {
  }

  // ---------- strings ----------

  lemma HexRoundTrip(d: nat)
    requires d < 16
    ensures HexValue(HexDigit(d)) == d
  {
  }

  /** The value of two hexadecimal digits. */
  function PairValue(a: char, b: char): int {
    HexValue(a) * 16 + HexValue(b)
  }

  lemma HexPairRoundTrip(n: nat)
    requires n < 0x100
    ensures var p := HexPair(n); HexValue(p[0]) >= 0 && HexValue(p[1]) >= 0 && PairValue(p[0], p[1]) == n
  {
    HexRoundTrip(n / 16);
    HexRoundTrip(n % 16);
  }

  lemma Hex4OfPairs(s: string)
    requires |s| >= 4 && HexValue(s[0]) >= 0 && HexValue(s[1]) >= 0 && HexValue(s[2]) >= 0 && HexValue(s[3]) >= 0
    ensures Hex4(s) == Done(PairValue(s[0], s[1]) * 256 + PairValue(s[2], s[3]), s[4..])
  {
  }

  lemma HexTextRoundTrip(n: nat, rest: string)
    requires n < 0x1_0000
    ensures Hex4(HexText(n) + rest) == Done(n, rest)
  {
    var s, high, low := HexText(n) + rest, HexPair(n / 256), HexPair(n % 256);
    HexPairRoundTrip(n / 256);
    HexPairRoundTrip(n % 256);
    assert s[0] == high[0] && s[1] == high[1] && s[2] == low[0] && s[3] == low[1] && s[4..] == rest;
    Hex4OfPairs(s);
  }

  lemma SurrogatePair(unit: nat, low: nat, rest: string, s: string)
    requires 0xD800 <= unit < 0xDC00 && 0xDC00 <= low < 0xE000
    requires s == HexText(unit) + ("\\u" + (HexText(low) + rest))
    ensures ParseUnicodeEscape(s) == Done((0x1_0000 + (unit - 0xD800) * 0x400 + (low - 0xDC00)) as char, rest)
  {
    var pair := "\\u" + (HexText(low) + rest);
    HexTextRoundTrip(unit, pair);
    HexTextRoundTrip(low, rest);
    assert pair[2..] == HexText(low) + rest;
  }

  /** The decoder reads a code unit or a surrogate pair back as the character it was written for. */
  lemma UnicodeDigitsRoundTrip(c: char, rest: string)
    ensures ParseUnicodeEscape(UnicodeDigits(c) + rest) == Done(c, rest)
  {
    if c as int < 0x1_0000 {
      HexTextRoundTrip(c as int, rest);
    } else {
      PairRoundTrip(c, rest);
    }
  }

  lemma PairRoundTrip(c: char, rest: string)
    requires c as int >= 0x1_0000
    ensures ParseUnicodeEscape(UnicodeDigits(c) + rest) == Done(c, rest)
  {
    var high, low := 0xD800 + (c as int - 0x1_0000) / 0x400, 0xDC00 + (c as int - 0x1_0000) % 0x400;
    PairUnits(c as int);
    PairsRegroup(HexText(high), HexText(low), rest);
    SurrogatePair(high, low, rest, UnicodeDigits(c) + rest);
  }

  /** A character beyond the first plane is split over the two halves of a surrogate pair. */
  lemma PairUnits(n: nat)
    requires 0x1_0000 <= n < 0x11_0000
    ensures var high, low := 0xD800 + (n - 0x1_0000) / 0x400, 0xDC00 + (n - 0x1_0000) % 0x400;
            && 0xD800 <= high < 0xDC00 && 0xDC00 <= low < 0xE000
            && 0x1_0000 + (high - 0xD800) * 0x400 + (low - 0xDC00) == n
  {
  }

  lemma PairsRegroup(high: string, low: string, rest: string)
    ensures high + ("\\u" + low) + rest == high + ("\\u" + (low + rest))
  {
  }

  lemma {:induction false} UnicodeEscapeParses(text: string, c: char, rest: string)
    requires ParseUnicodeEscape(text) == Done(c, rest) && ParseChars(rest).Done?
    ensures ParseChars("\\u" + text) == Done([c] + ParseChars(rest).value, ParseChars(rest).rest)
  {
    assert ("\\u" + text)[2..] == text;
  }

  /** A control character without a short form. */
  lemma ControlDigits(c: char)
    requires c < ' '
    ensures "\\u00" + HexPair(c as int) == "\\u" + UnicodeDigits(c)
  {
    var n := c as int;
    assert n / 256 == 0 && n % 256 == n;
    assert HexPair(0) == "00";
  }

  lemma {:induction false} PlainCharParses(c: char, rest: string)
    requires c >= ' ' && c != '\"' && c != '\\' && ParseChars(rest).Done?
    ensures ParseChars([c] + rest) == Done([c] + ParseChars(rest).value, ParseChars(rest).rest)
  {
    assert ([c] + rest)[1..] == rest;
  }

  lemma {:induction false} ShortEscapeParses(letter: char, c: char, rest: string)
    requires letter != 'u' && SimpleEscape(letter) == Some(c) && ParseChars(rest).Done?
    ensures ParseChars(['\\', letter] + rest) == Done([c] + ParseChars(rest).value, ParseChars(rest).rest)
  {
    assert (['\\', letter] + rest)[2..] == rest;
  }

  lemma {:induction false} LongEscapeParses(c: char, rest: string)
    requires ParseChars(rest).Done?
    ensures ParseChars("\\u" + UnicodeDigits(c) + rest) == Done([c] + ParseChars(rest).value, ParseChars(rest).rest)
  {
    var digits := UnicodeDigits(c);
    UnicodeDigitsRoundTrip(c, rest);
    UnicodeEscapeParses(digits + rest, c, rest);
    assert "\\u" + digits + rest == "\\u" + (digits + rest);
  }

  /** The three forms of an escaped character. */
  lemma EscapeForm(ascii: bool, c: char)
    ensures Escapes(Escape(ascii, c), c)
  {
    if c < ' ' { ControlDigits(c); }
  }

  predicate Escapes(e: string, c: char) {
    || (e == [c] && c >= ' ' && c != '\"' && c != '\\')
    || (|e| == 2 && e[0] == '\\' && e[1] != 'u' && SimpleEscape(e[1]) == Some(c))
    || e == "\\u" + UnicodeDigits(c)
  }

  lemma {:induction false} EscapeParses(e: string, c: char, rest: string)
    requires Escapes(e, c) && ParseChars(rest).Done?
    ensures ParseChars(e + rest) == Done([c] + ParseChars(rest).value, ParseChars(rest).rest)
  {
    if e == [c] && c >= ' ' && c != '\"' && c != '\\' {
      PlainCharParses(c, rest);
    } else if e == "\\u" + UnicodeDigits(c) {
      LongEscapeParses(c, rest);
    } else {
      ShortEscapeParses(e[1], c, rest);
      assert e == ['\\', e[1]];
    }
  }

  lemma ClosingQuote(tail: string)
    ensures ParseChars("\"" + tail) == Done("", tail)
  {
  }

  lemma EscapeFirst(ascii: bool, s: string, end: string)
    requires s != []
    ensures EscapeAll(ascii, s) + end == Escape(ascii, s[0]) + (EscapeAll(ascii, s[1..]) + end)
  {
  }

  lemma {:induction false} CharsRoundTrip(ascii: bool, s: string, tail: string)
    ensures ParseChars(EscapeAll(ascii, s) + ("\"" + tail)) == Done(s, tail)
  {
    var close := "\"" + tail;
    if s == [] {
      ClosingQuote(tail);
      assert EscapeAll(ascii, s) + close == close;
    } else {
      CharsRoundTrip(ascii, s[1..], tail);
      EscapeForm(ascii, s[0]);
      EscapeParses(Escape(ascii, s[0]), s[0], EscapeAll(ascii, s[1..]) + close);
      EscapeFirst(ascii, s, close);
      assert [s[0]] + s[1..] == s;
    }
  }

  // ---------- integers ----------

  lemma {:induction false} DigitsShape(n: nat)
    ensures Digits(n) != []
    ensures forall i :: 0 <= i < |Digits(n)| ==> IsDigit(Digits(n)[i])
    ensures DecimalValue(Digits(n)) == n
    ensures Digits(n)[0] == '0' ==> n == 0 && |Digits(n)| == 1
  {
    if n >= 10 {
      DigitsShape(n / 10);
      var ds := Digits(n);
      assert ds[..|ds| - 1] == Digits(n / 10);
      assert ds[0] == Digits(n / 10)[0];
    } else {
      var ds := Digits(n);
      assert ds[..0] == [];
    }
  }

  lemma {:induction false} DigitRunOf(ds: string, tail: string)
    requires forall i :: 0 <= i < |ds| ==> IsDigit(ds[i])
    requires tail != [] ==> !IsDigit(tail[0])
    ensures DigitRun(ds + tail) == |ds|
  {
    if ds == [] {
      assert ds + tail == tail;
    } else {
      DigitRunOf(ds[1..], tail);
      assert (ds + tail)[1..] == ds[1..] + tail;
    }
  }

  lemma {:induction false} NatRoundTrip(n: nat, tail: string)
    requires Boundary(tail)
    ensures ParseNat(Digits(n) + tail) == Done(n, tail)
  {
    var ds := Digits(n);
    var s := ds + tail;
    DigitsShape(n);
    DigitRunOf(ds, tail);
    assert s[0] == ds[0];
    assert s[..|ds|] == ds && s[|ds|..] == tail;
  }

  // ---------- values ----------

  /** How a printed value starts: enough to pick the decoder's branch. */
  lemma PrintValueStart(ascii: bool, v: Json)
    ensures PrintValue(ascii, v) != []
    ensures !IsSpace(PrintValue(ascii, v)[0]) && PrintValue(ascii, v)[0] != ']' && PrintValue(ascii, v)[0] != '}'
    ensures PrintValue(ascii, v)[0] != '\U{FEFF}'
  {
    if v.Num? {
      DigitsShape(if v.n < 0 then -v.n else v.n);
      assert IsDigit(Digits(if v.n < 0 then -v.n else v.n)[0]);
    }
  }

  lemma NotInfinity(s: string)
    requires s != [] && (s[0] != '-' || (|s| >= 2 && IsDigit(s[1])))
    ensures !("-Infinity" <= s)
  {
  }

  /** An unsigned number, and the same digits after a minus sign. */
  lemma NumberBranches(text: string)
    requires text != [] && IsDigit(text[0]) && ParseNat(text).Done?
    ensures ParseNumber(text) == Done(Num(ParseNat(text).value), ParseNat(text).rest)
    ensures ParseNumber("-" + text) == Done(Num(-(ParseNat(text).value as int)), ParseNat(text).rest)
  {
    NotInfinity(text);
    NotInfinity("-" + text);
    assert ("-" + text)[1..] == text;
  }

  lemma NumberRoundTrip(n: int, tail: string)
    requires Boundary(tail)
    ensures ParseNumber(PrintInt(n) + tail) == Done(Num(n), tail)
  {
    var magnitude := if n < 0 then -n else n;
    var text := Digits(magnitude) + tail;
    DigitsShape(magnitude);
    assert text[0] == Digits(magnitude)[0];
    NatRoundTrip(magnitude, tail);
    NumberBranches(text);
    if n < 0 { assert PrintInt(n) + tail == "-" + text; }
  }

  lemma WordRoundTrip(ascii: bool, v: Json, tail: string)
    requires v.Null? || v.Bool?
    ensures ParseValue(PrintValue(ascii, v) + tail) == Done(v, tail)
  {
  }

  lemma StringRoundTrip(ascii: bool, chars: string, tail: string)
    ensures ParseValue(PrintString(ascii, chars) + tail) == Done(Str(chars), tail)
  {
    var text := EscapeAll(ascii, chars) + ("\"" + tail);
    CharsRoundTrip(ascii, chars, tail);
    assert PrintString(ascii, chars) + tail == "\"" + text;
    assert ("\"" + text)[1..] == text;
  }

  lemma OpeningBracket(text: string)
    ensures ParseValue("[" + text) == ParseArray(text)
    ensures ParseValue("{" + text) == ParseObject(text)
  {
  }

  lemma ScalarBranch(s: string)
    requires s != [] && (s[0] == '-' || IsDigit(s[0]))
    ensures ParseScalar(s) == ParseNumber(s)
  {
  }

  lemma NumberBranch(s: string)
    requires s != [] && (s[0] == '-' || IsDigit(s[0]))
    ensures ParseValue(s) == ParseNumber(s)
  {
    ScalarBranch(s);
    assert s[0] != '\"' && s[0] != '{' && s[0] != '[';
    assert ParseValue(s) == ParseScalar(s);
  }

  lemma IntegerStart(n: int, tail: string)
    ensures var s := PrintInt(n) + tail; s != [] && (s[0] == '-' || IsDigit(s[0]))
  {
    DigitsShape(if n < 0 then -n else n);
  }

  lemma IntegerRoundTrip(n: int, tail: string)
    requires Boundary(tail)
    ensures ParseValue(PrintInt(n) + tail) == Done(Num(n), tail)
  {
    IntegerStart(n, tail);
    NumberRoundTrip(n, tail);
    NumberBranch(PrintInt(n) + tail);
  }

  lemma {:induction false} ValueRoundTrip(ascii: bool, v: Json, tail: string)
    requires WellFormed(v) && Boundary(tail)
    ensures ParseValue(PrintValue(ascii, v) + tail) == Done(v, tail)
    decreases v, 2
  {
    match v
    case Num(n) => IntegerRoundTrip(n, tail);
    case Str(chars) => StringRoundTrip(ascii, chars, tail);
    case Arr(items) => ArrayRoundTrip(ascii, items, tail);
    case Obj(fields) => ObjectRoundTrip(ascii, fields, tail);
    case _ => WordRoundTrip(ascii, v, tail);
  }

  lemma {:induction false} ArrayRoundTrip(ascii: bool, items: seq<Json>, tail: string)
    requires forall i :: 0 <= i < |items| ==> WellFormed(items[i])
    ensures ParseValue(PrintValue(ascii, Arr(items)) + tail) == Done(Arr(items), tail)
    decreases items, 1
  {
    ArrayText(ascii, items, tail);
    OpeningBracket(PrintItems(ascii, items) + ("]" + tail));
    if items == [] {
      EmptyArray(tail);
      assert PrintItems(ascii, items) + ("]" + tail) == "]" + tail;
    } else {
      ItemsRoundTrip(ascii, items, tail);
      ItemsInBrackets(ascii, items, tail);
    }
  }

  lemma ArrayText(ascii: bool, items: seq<Json>, tail: string)
    requires forall i :: 0 <= i < |items| ==> WellFormed(items[i])
    ensures PrintValue(ascii, Arr(items)) + tail == "[" + (PrintItems(ascii, items) + ("]" + tail))
  {
  }

  lemma ItemsInBrackets(ascii: bool, items: seq<Json>, tail: string)
    requires items != [] && forall i :: 0 <= i < |items| ==> WellFormed(items[i])
    requires ParseItems(PrintItems(ascii, items) + ("]" + tail)) == Done(items, tail)
    ensures ParseArray(PrintItems(ascii, items) + ("]" + tail)) == Done(Arr(items), tail)
  {
    var body := PrintItems(ascii, items) + ("]" + tail);
    ItemsStart(ascii, items);
    assert body[0] == PrintItems(ascii, items)[0];
    FullArray(body);
  }

  lemma EmptyArray(tail: string)
    ensures ParseArray("]" + tail) == Done(Arr([]), tail)
  {
  }

  lemma FullArray(body: string)
    requires body != [] && !IsSpace(body[0]) && body[0] != ']' && ParseItems(body).Done?
    ensures ParseArray(body) == Done(Arr(ParseItems(body).value), ParseItems(body).rest)
  {
  }

  lemma ItemsStart(ascii: bool, items: seq<Json>)
    requires items != []
    ensures PrintItems(ascii, items) != [] && !IsSpace(PrintItems(ascii, items)[0]) && PrintItems(ascii, items)[0] != ']'
  {
    PrintValueStart(ascii, items[0]);
    assert PrintItems(ascii, items)[0] == PrintValue(ascii, items[0])[0];
  }

  lemma {:induction false} ObjectRoundTrip(ascii: bool, fields: seq<Field>, tail: string)
    requires DistinctKeys(fields)
    requires forall i :: 0 <= i < |fields| ==> WellFormed(fields[i].value)
    ensures ParseValue(PrintValue(ascii, Obj(fields)) + tail) == Done(Obj(fields), tail)
    decreases fields, 1
  {
    ObjectText(ascii, fields, tail);
    OpeningBracket(PrintFields(ascii, fields) + ("}" + tail));
    if fields == [] {
      EmptyObject(tail);
      assert PrintFields(ascii, fields) + ("}" + tail) == "}" + tail;
    } else {
      FieldsRoundTrip(ascii, fields, tail);
      FieldsInBraces(ascii, fields, tail);
    }
  }

  lemma ObjectText(ascii: bool, fields: seq<Field>, tail: string)
    requires DistinctKeys(fields) && forall i :: 0 <= i < |fields| ==> WellFormed(fields[i].value)
    ensures PrintValue(ascii, Obj(fields)) + tail == "{" + (PrintFields(ascii, fields) + ("}" + tail))
  {
  }

  lemma FieldsInBraces(ascii: bool, fields: seq<Field>, tail: string)
    requires fields != [] && DistinctKeys(fields) && forall i :: 0 <= i < |fields| ==> WellFormed(fields[i].value)
    requires ParseFields(PrintFields(ascii, fields) + ("}" + tail)) == Done(fields, tail)
    ensures ParseObject(PrintFields(ascii, fields) + ("}" + tail)) == Done(Obj(fields), tail)
  {
    var body := PrintFields(ascii, fields) + ("}" + tail);
    FieldsStart(ascii, fields);
    assert body[0] == PrintFields(ascii, fields)[0];
    FullObject(body);
  }

  lemma EmptyObject(tail: string)
    ensures ParseObject("}" + tail) == Done(Obj([]), tail)
  {
    SkipSpaceStops("}" + tail);
    assert ("}" + tail)[1..] == tail;
  }

  lemma FullObject(body: string)
    requires body != [] && body[0] == '\"' && ParseFields(body).Done? && DistinctKeys(ParseFields(body).value)
    ensures ParseObject(body) == Done(Obj(ParseFields(body).value), ParseFields(body).rest)
  {
    SkipSpaceStops(body);
  }

  lemma {:induction false} ItemsRoundTrip(ascii: bool, items: seq<Json>, tail: string)
    requires items != []
    requires forall i :: 0 <= i < |items| ==> WellFormed(items[i])
    ensures ParseItems(PrintItems(ascii, items) + ("]" + tail)) == Done(items, tail)
    decreases items, 0
  {
    if |items| == 1 {
      ValueRoundTrip(ascii, items[0], "]" + tail);
      SkipSpaceStops("]" + tail);
      assert ("]" + tail)[1..] == tail;
      assert [items[0]] == items;
    } else {
      ItemsRoundTrip(ascii, items[1..], tail);
      NextItemRoundTrip(ascii, items[0], items[1..], tail);
      Regroup(PrintValue(ascii, items[0]), ",", PrintItems(ascii, items[1..]), "]" + tail);
      assert [items[0]] + items[1..] == items;
    }
  }

  lemma {:induction false} NextItemRoundTrip(ascii: bool, v: Json, items: seq<Json>, tail: string)
    requires WellFormed(v) && items != []
    requires ParseItems(PrintItems(ascii, items) + ("]" + tail)) == Done(items, tail)
    ensures ParseItems(PrintValue(ascii, v) + ("," + (PrintItems(ascii, items) + ("]" + tail)))) == Done([v] + items, tail)
    decreases v, 3
  {
    var more := PrintItems(ascii, items) + ("]" + tail);
    ValueRoundTrip(ascii, v, "," + more);
    SkipSpaceStops("," + more);
    assert ("," + more)[1..] == more;
    ItemsStart(ascii, items);
    assert more[0] == PrintItems(ascii, items)[0];
    SkipSpaceStops(more);
  }

  /** One printed field, up to the comma or brace after it. */
  lemma FieldText(ascii: bool, f: Field, end: string)
    ensures var s := PrintField(ascii, f) + end;
            s[0] == '\"' && s[1..] == EscapeAll(ascii, f.key) + ("\"" + (":" + (PrintValue(ascii, f.value) + end)))
  {
  }

  lemma FieldsStart(ascii: bool, fields: seq<Field>)
    requires fields != []
    ensures PrintFields(ascii, fields) != [] && PrintFields(ascii, fields)[0] == '\"'
  {
  }

  lemma {:induction false} FieldRoundTrip(ascii: bool, f: Field, end: string)
    requires WellFormed(f.value) && Boundary(end)
    ensures ParseField(PrintField(ascii, f) + end) == Done(f, end)
    decreases f, 0
  {
    var value := PrintValue(ascii, f.value) + end;
    FieldText(ascii, f, end);
    CharsRoundTrip(ascii, f.key, ":" + value);
    SkipSpaceStops(":" + value);
    assert (":" + value)[1..] == value;
    PrintValueStart(ascii, f.value);
    assert value[0] == PrintValue(ascii, f.value)[0];
    SkipSpaceStops(value);
    ValueRoundTrip(ascii, f.value, end);
  }

  lemma {:induction false} LastFieldRoundTrip(ascii: bool, f: Field, tail: string)
    requires WellFormed(f.value)
    ensures ParseFields(PrintField(ascii, f) + ("}" + tail)) == Done([f], tail)
    decreases f, 1
  {
    FieldRoundTrip(ascii, f, "}" + tail);
    SkipSpaceStops("}" + tail);
    assert ("}" + tail)[1..] == tail;
  }

  lemma {:induction false} NextFieldRoundTrip(ascii: bool, f: Field, fields: seq<Field>, tail: string)
    requires WellFormed(f.value) && fields != []
    requires ParseFields(PrintFields(ascii, fields) + ("}" + tail)) == Done(fields, tail)
    ensures ParseFields(PrintField(ascii, f) + ("," + (PrintFields(ascii, fields) + ("}" + tail)))) == Done([f] + fields, tail)
    decreases f, 1
  {
    var more := PrintFields(ascii, fields) + ("}" + tail);
    FieldRoundTrip(ascii, f, "," + more);
    SkipSpaceStops("," + more);
    assert ("," + more)[1..] == more;
    FieldsStart(ascii, fields);
    SkipSpaceStops(more);
  }

  lemma {:induction false} FieldsRoundTrip(ascii: bool, fields: seq<Field>, tail: string)
    requires fields != []
    requires forall i :: 0 <= i < |fields| ==> WellFormed(fields[i].value)
    ensures ParseFields(PrintFields(ascii, fields) + ("}" + tail)) == Done(fields, tail)
    decreases fields, 0
  {
    if |fields| == 1 {
      LastFieldRoundTrip(ascii, fields[0], tail);
      assert [fields[0]] == fields;
    } else {
      FieldsRoundTrip(ascii, fields[1..], tail);
      NextFieldRoundTrip(ascii, fields[0], fields[1..], tail);
      Regroup(PrintField(ascii, fields[0]), ",", PrintFields(ascii, fields[1..]), "}" + tail);
      assert [fields[0]] + fields[1..] == fields;
    }
  }

  /** The decoder reads back exactly the value the printer wrote. */
  lemma TextRoundTrip(ascii: bool, v: Json)
    requires WellFormed(v)
    ensures ParseText(PrintValue(ascii, v)) == Done(v, "")
  {
    var s := PrintValue(ascii, v);
    ValueRoundTrip(ascii, v, "");
    assert s + "" == s;
    PrintValueStart(ascii, v);
    SkipSpaceStops(s);
  }
}
