/** What exactly is printed and what exactly is read, character by character: json.dumps with compact
    separators, and json.loads with the strict hooks (RFC 8259, sections 2, 6 and 7). */
module JsonTextLaw {
  import opened Wrappers
  import opened JsonText
  import opened JsonRoundTrip
  import opened CanonicalJson

  // ---------- the printer ----------

  lemma HexDigitTable(d: nat)
    requires d < 16
    ensures HexDigit(d) == "0123456789abcdef"[d]
  {
  }

  /** Quote, backslash and five control characters have a short escape, the other control characters four
      lower-case hexadecimal digits; anything else below DEL is printed as it is. */
  lemma EscapeTable(ascii: bool, c: char)
    ensures Escape(ascii, '\"') == "\\\"" && Escape(ascii, '\\') == "\\\\"
    ensures Escape(ascii, '\n') == "\\n" && Escape(ascii, '\r') == "\\r" && Escape(ascii, '\t') == "\\t"
    ensures Escape(ascii, '\U{0C}') == "\\f" && Escape(ascii, '\U{08}') == "\\b"
    ensures c < ' ' && c !in {'\n', '\r', '\t', '\U{0C}', '\U{08}'} ==>
              Escape(ascii, c) == "\\u00" + ["0123456789abcdef"[c as int / 16], "0123456789abcdef"[c as int % 16]]
    ensures ' ' <= c && c != '\"' && c != '\\' && (c <= '~' || !ascii) ==> Escape(ascii, c) == [c]
  {
  }

  predicate Plain(s: string) {
    forall i :: 0 <= i < |s| ==> s[i] >= ' ' && s[i] != '\"' && s[i] != '\\'
  }

  lemma {:induction false} PlainUnescaped(s: string)
    requires Plain(s)
    ensures EscapeAll(false, s) == s
  {
    if s != [] {
      assert s[0] in s && Plain(s[1..]);
      PlainUnescaped(s[1..]);
      assert [s[0]] + s[1..] == s;
    }
  }

  /** Without ensure_ascii a text that needs no escape is printed verbatim, whatever its script. */
  lemma PlainTextVerbatim(s: string)
    requires Plain(s)
    ensures Dumps(Str(s)) == "\"" + s + "\""
  {
    PlainUnescaped(s);
  }

  lemma HexPairAscii(n: nat)
    requires n < 0x100
    ensures IsAscii(HexPair(n))
  {
  }

  lemma JoinAscii(a: string, b: string)
    requires IsAscii(a) && IsAscii(b)
    ensures IsAscii(a + b)
  {
  }

  lemma HexTextAscii(n: nat)
    requires n < 0x1_0000
    ensures IsAscii(HexText(n))
  {
    HexPairAscii(n / 256);
    HexPairAscii(n % 256);
    JoinAscii(HexPair(n / 256), HexPair(n % 256));
  }

  lemma UnicodeDigitsAscii(c: char)
    ensures IsAscii(UnicodeDigits(c))
  {
    var n := c as int;
    if n < 0x1_0000 {
      HexTextAscii(n);
    } else {
      PairUnits(n);
      var high, low := 0xD800 + (n - 0x1_0000) / 0x400, 0xDC00 + (n - 0x1_0000) % 0x400;
      HexTextAscii(high);
      HexTextAscii(low);
      JoinAscii("\\u", HexText(low));
      JoinAscii(HexText(high), "\\u" + HexText(low));
    }
  }

  lemma EscapeAscii(c: char)
    ensures IsAscii(Escape(true, c))
  {
    if c > '~' {
      UnicodeDigitsAscii(c);
      JoinAscii("\\u", UnicodeDigits(c));
    } else if c < ' ' {
      HexPairAscii(c as int);
      JoinAscii("\\u00", HexPair(c as int));
    }
  }

  lemma {:induction false} EscapeAllAscii(s: string)
    ensures IsAscii(EscapeAll(true, s))
  {
    if s != [] {
      EscapeAscii(s[0]);
      EscapeAllAscii(s[1..]);
      JoinAscii(Escape(true, s[0]), EscapeAll(true, s[1..]));
    }
  }

  lemma StringAscii(s: string)
    ensures IsAscii(PrintString(true, s))
  {
    EscapeAllAscii(s);
    JoinAscii("\"", EscapeAll(true, s));
    JoinAscii("\"" + EscapeAll(true, s), "\"");
  }

  lemma {:induction false} DigitsAscii(n: nat)
    ensures IsAscii(Digits(n))
  {
    DigitsShape(n);
    forall i | 0 <= i < |Digits(n)| ensures Digits(n)[i] as int < 128 {
      assert IsDigit(Digits(n)[i]);
    }
  }

  lemma {:induction false} ValueAscii(v: Json)
    ensures IsAscii(PrintValue(true, v))
    decreases v, 1
  {
    match v
    case Num(n) =>
      DigitsAscii(if n < 0 then -n else n);
      JoinAscii("-", Digits(if n < 0 then -n else n));
    case Str(s) => StringAscii(s);
    case Arr(items) =>
      ItemsAscii(items);
      JoinAscii("[", PrintItems(true, items));
      JoinAscii("[" + PrintItems(true, items), "]");
    case Obj(fields) =>
      FieldsAscii(fields);
      JoinAscii("{", PrintFields(true, fields));
      JoinAscii("{" + PrintFields(true, fields), "}");
    case _ =>
  }

  lemma {:induction false} ItemsAscii(items: seq<Json>)
    ensures IsAscii(PrintItems(true, items))
    decreases items, 0
  {
    if items != [] {
      ValueAscii(items[0]);
      ItemsAscii(items[1..]);
      JoinAscii(PrintValue(true, items[0]), ",");
      JoinAscii(PrintValue(true, items[0]) + ",", PrintItems(true, items[1..]));
    }
  }

  lemma {:induction false} FieldsAscii(fields: seq<Field>)
    ensures IsAscii(PrintFields(true, fields))
    decreases fields, 0
  {
    if fields != [] {
      StringAscii(fields[0].key);
      ValueAscii(fields[0].value);
      JoinAscii(PrintString(true, fields[0].key), ":");
      JoinAscii(PrintString(true, fields[0].key) + ":", PrintValue(true, fields[0].value));
      FieldsAscii(fields[1..]);
      JoinAscii(PrintField(true, fields[0]), ",");
      JoinAscii(PrintField(true, fields[0]) + ",", PrintFields(true, fields[1..]));
    }
  }

  /** With ensure_ascii nothing but ASCII is printed. */
  lemma DumpsAsciiIsAscii(v: Json)
    ensures IsAscii(DumpsAscii(v))
  {
    ValueAscii(Canon(v));
  }

  /** The three words, the brackets and the quotes, for any settings and contents. */
  lemma WordsPrinted(ascii: bool, s: string, items: seq<Json>, fields: seq<Field>)
    ensures PrintValue(ascii, Null) == "null"
    ensures PrintValue(ascii, Bool(true)) == "true" && PrintValue(ascii, Bool(false)) == "false"
    ensures PrintValue(ascii, Arr([])) == "[]" && PrintValue(ascii, Obj([])) == "{}"
    ensures var t := PrintValue(ascii, Str(s)); |t| >= 2 && t[0] == '"' && t[|t| - 1] == '"'
    ensures var t := PrintValue(ascii, Arr(items)); |t| >= 2 && t[0] == '[' && t[|t| - 1] == ']'
    ensures var t := PrintValue(ascii, Obj(fields)); |t| >= 2 && t[0] == '{' && t[|t| - 1] == '}'
  {
  }

  /** Separators are a bare comma and a bare colon: what one more item or field adds at the end. */
  lemma {:induction false} OneMoreItemPrinted(ascii: bool, items: seq<Json>, v: Json)
    requires items != []
    ensures PrintItems(ascii, items + [v]) == PrintItems(ascii, items) + "," + PrintValue(ascii, v)
  {
    var more := items + [v];
    assert more[1..] == items[1..] + [v];
    if |items| > 1 {
      OneMoreItemPrinted(ascii, items[1..], v);
      Regroup(PrintValue(ascii, items[0]) + ",", PrintItems(ascii, items[1..]), ",", PrintValue(ascii, v));
    } else {
      assert more[1..] == [v];
    }
  }

  lemma {:induction false} OneMoreFieldPrinted(ascii: bool, fields: seq<Field>, f: Field)
    requires fields != []
    ensures PrintFields(ascii, fields + [f])
         == PrintFields(ascii, fields) + "," + PrintString(ascii, f.key) + ":" + PrintValue(ascii, f.value)
  {
    var more := fields + [f];
    assert more[1..] == fields[1..] + [f];
    if |fields| > 1 {
      OneMoreFieldPrinted(ascii, fields[1..], f);
      FieldRegroup(PrintField(ascii, fields[0]) + ",", PrintFields(ascii, fields[1..]), PrintString(ascii, f.key),
                   PrintValue(ascii, f.value));
    } else {
      assert more[1..] == [f] && more[0] == fields[0];
      assert PrintFields(ascii, more) == PrintField(ascii, fields[0]) + "," + PrintFields(ascii, [f]);
      assert PrintFields(ascii, [f]) == PrintField(ascii, f);
      FieldRegroup(PrintField(ascii, fields[0]), "", PrintString(ascii, f.key), PrintValue(ascii, f.value));
    }
  }

  lemma FieldRegroup(a: string, b: string, key: string, value: string)
    ensures a + (b + "," + key + ":" + value) == a + b + "," + key + ":" + value
    ensures a + "," + (key + ":" + value) == a + "," + key + ":" + value
  {
  }

  /** Numbers carry a sign exactly when negative, and no superfluous zero. */
  lemma PrintedInteger(n: int)
    ensures PrintInt(n) != [] && (PrintInt(n)[0] == '-' <==> n < 0)
    ensures PrintInt(n)[0] == '0' ==> PrintInt(n) == "0"
  {
    DigitsShape(if n < 0 then -n else n);
    assert IsDigit(Digits(if n < 0 then -n else n)[0]);
  }

  // ---------- the decoder: single characters ----------

  /** Hexadecimal digits of both cases, and nothing else. */
  lemma HexValueTable(c: char)
    ensures forall d :: 0 <= d < 16 ==> HexValue("0123456789abcdef"[d]) == d && HexValue("0123456789ABCDEF"[d]) == d
    ensures HexValue(c) == -1 <==> c !in "0123456789abcdefABCDEF"
  {
  }

  /** The eight letters a backslash may precede, besides u. */
  lemma SimpleEscapeTable(c: char)
    ensures SimpleEscape('\"') == Some('\"') && SimpleEscape('\\') == Some('\\') && SimpleEscape('/') == Some('/')
    ensures SimpleEscape('b') == Some('\U{08}') && SimpleEscape('f') == Some('\U{0C}') && SimpleEscape('n') == Some('\U{0A}')
    ensures SimpleEscape('r') == Some('\U{0D}') && SimpleEscape('t') == Some('\U{09}')
    ensures c !in "\"\\/bfnrt" ==> SimpleEscape(c) == None
  {
  }
}
