/** JSON values as Python's json module produces them, its compact printer and its
    decoder (RFC 8259, sections 4 and 7).  JsonRoundTrip proves that the decoder
    inverts the printer.

    A Python dict keeps insertion order, so an object is a sequence of fields with
    pairwise distinct keys.  Text is a sequence of Unicode scalar values. */
module JsonText {
  import opened Wrappers

  datatype Json =
    | Null
    | Bool(b: bool)
    | Num(n: int)
    | Str(s: string)
    | Arr(items: seq<Json>)
    | Obj(fields: seq<Field>)

  datatype Field = Field(key: string, value: Json)

  /** What the decoder returns: a value and the unread text, or the reason it stopped. */
  datatype Parsed<+T> = Done(value: T, rest: string) | Fail(error: ParseError) {
    predicate IsFailure() { Fail? }
    function PropagateFailure<U>(): Parsed<U>
      requires Fail?
    {
      Fail(error)
    }
    function Extract(): (T, string)
      requires Done?
    {
      (value, rest)
    }
  }

  datatype ParseError = Syntax | DuplicateKey | NonFinite | FloatNotModelled | LoneSurrogate

  predicate DistinctKeys(fields: seq<Field>) {
    forall i, j :: 0 <= i < j < |fields| ==> fields[i].key != fields[j].key
  }

  /** The value stored under a key of a dict, if any. */
  function Lookup(fields: seq<Field>, key: string): (r: Option<Json>)
    ensures r.Some? ==> Field(key, r.value) in fields
    ensures r.None? ==> forall f :: f in fields ==> f.key != key
  {
    if fields == [] then None
    else
      assert forall f :: f in fields <==> f == fields[0] || f in fields[1..];
      if fields[0].key == key then Some(fields[0].value) else Lookup(fields[1..], key)
  }

  lemma LookupFinds(fields: seq<Field>, f: Field)
    requires DistinctKeys(fields) && f in fields
    ensures Lookup(fields, f.key) == Some(f.value)
  {
  }

  /** Every object inside the value is a possible Python dict. */
  predicate WellFormed(v: Json) {
    match v
    case Arr(items) => forall i :: 0 <= i < |items| ==> WellFormed(items[i])
    case Obj(fields) =>
      && DistinctKeys(fields)
      && forall i :: 0 <= i < |fields| ==> WellFormed(fields[i].value)
    case _ => true
  }

  // ---------- printer: json.dumps(ensure_ascii=ascii, separators=(",", ":")) ----------

  function HexDigit(d: nat): char
    requires d < 16
  {
    if d < 10 then '0' + (d as char) else 'a' + ((d - 10) as char)
  }

  function HexPair(n: nat): string
    requires n < 0x100
  {
    [HexDigit(n / 16), HexDigit(n % 16)]
  }

  /** Four lower-case hexadecimal digits. */
  function HexText(n: nat): string
    requires n < 0x1_0000
  {
    HexPair(n / 256) + HexPair(n % 256)
  }

  /** One code unit, or a surrogate pair, after its backslash and u. */
  function UnicodeDigits(c: char): string {
    var n := c as int;
    if n < 0x1_0000 then HexText(n)
    else HexText(0xD800 + (n - 0x1_0000) / 0x400) + ("\\u" + HexText(0xDC00 + (n - 0x1_0000) % 0x400))
  }

  function Escape(ascii: bool, c: char): string {
    if c == '\"' then "\\\""
    else if c == '\\' then "\\\\"
    else if c == '\n' then "\\n"
    else if c == '\r' then "\\r"
    else if c == '\t' then "\\t"
    else if c == '\U{0C}' then "\\f"
    else if c == '\U{08}' then "\\b"
    else if c < ' ' then "\\u00" + HexPair(c as int)
    else if ascii && c > '~' then "\\u" + UnicodeDigits(c)
    else [c]
  }

  function EscapeAll(ascii: bool, s: string): string {
    if s == [] then [] else Escape(ascii, s[0]) + EscapeAll(ascii, s[1..])
  }

  function PrintString(ascii: bool, s: string): string {
    "\"" + EscapeAll(ascii, s) + "\""
  }

  function Digits(n: nat): string {
    if n < 10 then ['0' + (n as char)] else Digits(n / 10) + ['0' + ((n % 10) as char)]
  }

  function PrintInt(n: int): string {
    if n < 0 then "-" + Digits(-n) else Digits(n)
  }

  function PrintValue(ascii: bool, v: Json): string
    decreases v, 1
  {
    match v
    case Null => "null"
    case Bool(b) => if b then "true" else "false"
    case Num(n) => PrintInt(n)
    case Str(s) => PrintString(ascii, s)
    case Arr(items) => "[" + PrintItems(ascii, items) + "]"
    case Obj(fields) => "{" + PrintFields(ascii, fields) + "}"
  }

  function PrintItems(ascii: bool, items: seq<Json>): string
    decreases items, 0
  {
    if items == [] then ""
    else if |items| == 1 then PrintValue(ascii, items[0])
    else PrintValue(ascii, items[0]) + "," + PrintItems(ascii, items[1..])
  }

  function PrintField(ascii: bool, f: Field): string
    decreases f, 0
  {
    PrintString(ascii, f.key) + ":" + PrintValue(ascii, f.value)
  }

  function PrintFields(ascii: bool, fields: seq<Field>): string
    decreases fields, 0
  {
    if fields == [] then ""
    else if |fields| == 1 then PrintField(ascii, fields[0])
    else PrintField(ascii, fields[0]) + "," + PrintFields(ascii, fields[1..])
  }

  // ---------- decoder: json.loads with the strict object and constant hooks ----------

  predicate IsSpace(c: char) {
    c == ' ' || c == '\t' || c == '\n' || c == '\r'
  }

  function SkipSpace(s: string): (r: string)
    ensures |r| <= |s|
    ensures r != [] ==> !IsSpace(r[0])
  {
    if s != [] && IsSpace(s[0]) then SkipSpace(s[1..]) else s
  }

  predicate IsDigit(c: char) {
    '0' <= c <= '9'
  }

  /** The length of the longest run of digits at the start. */
  function DigitRun(s: string): (n: nat)
    ensures n <= |s|
    ensures forall i :: 0 <= i < n ==> IsDigit(s[i])
    ensures n < |s| ==> !IsDigit(s[n])
  {
    if s != [] && IsDigit(s[0]) then 1 + DigitRun(s[1..]) else 0
  }

  function DecimalValue(ds: string): nat
    requires forall i :: 0 <= i < |ds| ==> IsDigit(ds[i])
  {
    if ds == [] then 0
    else
      assert IsDigit(ds[|ds| - 1]);
      10 * DecimalValue(ds[..|ds| - 1]) + (ds[|ds| - 1] as int - '0' as int)
  }

  /** True when the text after the integer part turns the number into a float. */
  predicate FloatFollows(s: string) {
    || (|s| >= 2 && s[0] == '.' && IsDigit(s[1]))
    || (|s| >= 2 && (s[0] == 'e' || s[0] == 'E') && IsDigit(s[1]))
    || (|s| >= 3 && (s[0] == 'e' || s[0] == 'E') && (s[1] == '+' || s[1] == '-') && IsDigit(s[2]))
  }

  /** The unsigned integer part: a single 0, or a run of digits that starts with another digit. */
  function ParseNat(s: string): (r: Parsed<nat>)
    ensures r.Done? ==> |r.rest| < |s|
  {
    var run := DigitRun(s);
    if run == 0 then Fail(Syntax)
    else
      var n := if s[0] == '0' then 1 else run;
      if FloatFollows(s[n..]) then Fail(FloatNotModelled) else Done(DecimalValue(s[..n]), s[n..])
  }

  function HexValue(c: char): (r: int)
    ensures -1 <= r < 16
  {
    if '0' <= c <= '9' then c as int - '0' as int
    else if 'a' <= c <= 'f' then c as int - 'a' as int + 10
    else if 'A' <= c <= 'F' then c as int - 'A' as int + 10
    else -1
  }

  /** Four hexadecimal digits. */
  function Hex4(s: string): (r: Parsed<nat>)
    ensures r.Done? ==> |r.rest| < |s| && r.value < 0x1_0000
  {
    if |s| < 4 || HexValue(s[0]) < 0 || HexValue(s[1]) < 0 || HexValue(s[2]) < 0 || HexValue(s[3]) < 0
    then Fail(Syntax)
    else Done(((HexValue(s[0]) * 16 + HexValue(s[1])) * 16 + HexValue(s[2])) * 16 + HexValue(s[3]), s[4..])
  }

  /** The text after a backslash and u: one code unit, or a surrogate pair. */
  function ParseUnicodeEscape(s: string): (r: Parsed<char>)
    ensures r.Done? ==> |r.rest| < |s|
  {
    var (unit, rest) :- Hex4(s);
    if unit < 0xD800 || unit >= 0xE000 then Done(unit as char, rest)
    else if unit < 0xDC00 && |rest| >= 2 && rest[0] == '\\' && rest[1] == 'u' then
      var (low, rest') :- Hex4(rest[2..]);
      if 0xDC00 <= low < 0xE000
      then Done((0x1_0000 + (unit - 0xD800) * 0x400 + (low - 0xDC00)) as char, rest')
      else Fail(LoneSurrogate)
    else Fail(LoneSurrogate)
  }

  function SimpleEscape(c: char): Option<char> {
    match c
    case '\"' => Some('\"')
    case '\\' => Some('\\')
    case '/' => Some('/')
    case 'b' => Some('\U{08}')
    case 'f' => Some('\U{0C}')
    case 'n' => Some('\n')
    case 'r' => Some('\r')
    case 't' => Some('\t')
    case _ => None
  }

  /** The characters of a string literal, after its opening quote, up to its closing quote. */
  function ParseChars(s: string): (r: Parsed<string>)
    ensures r.Done? ==> |r.rest| < |s|
  {
    if s == [] then Fail(Syntax)
    else if s[0] == '\"' then Done("", s[1..])
    else if s[0] < ' ' then Fail(Syntax)
    else if s[0] != '\\' then
      var (tail, rest) :- ParseChars(s[1..]);
      Done([s[0]] + tail, rest)
    else if |s| < 2 then Fail(Syntax)
    else if s[1] == 'u' then
      var (c, after) :- ParseUnicodeEscape(s[2..]);
      var (tail, rest) :- ParseChars(after);
      Done([c] + tail, rest)
    else
      match SimpleEscape(s[1])
      case None => Fail(Syntax)
      case Some(c) =>
        var (tail, rest) :- ParseChars(s[2..]);
        Done([c] + tail, rest)
  }

  function ParseLiteral(s: string, word: string, v: Json): (r: Parsed<Json>)
    requires word != []
    ensures r.Done? ==> |r.rest| < |s| && r.value == v
  {
    if word <= s then Done(v, s[|word|..]) else Fail(Syntax)
  }

  /** An optionally negative integer. */
  function ParseNumber(s: string): (r: Parsed<Json>)
    requires s != []
    ensures r.Done? ==> |r.rest| < |s| && r.value.Num?
  {
    if "-Infinity" <= s then Fail(NonFinite)
    else if s[0] == '-' then
      var (n, rest) :- ParseNat(s[1..]);
      Done(Num(-(n as int)), rest)
    else
      var (n, rest) :- ParseNat(s);
      Done(Num(n), rest)
  }

  /** A word or a number. */
  function ParseScalar(s: string): (r: Parsed<Json>)
    requires s != []
    ensures r.Done? ==> |r.rest| < |s| && WellFormed(r.value)
  {
    if s[0] == 'n' then ParseLiteral(s, "null", Null)
    else if s[0] == 't' then ParseLiteral(s, "true", Bool(true))
    else if s[0] == 'f' then ParseLiteral(s, "false", Bool(false))
    else if s[0] == '-' || IsDigit(s[0]) then ParseNumber(s)
    else if "NaN" <= s || "Infinity" <= s then Fail(NonFinite)
    else Fail(Syntax)
  }

  /** One value; its first character decides which kind. */
  function ParseValue(s: string): (r: Parsed<Json>)
    ensures r.Done? ==> |r.rest| < |s| && WellFormed(r.value)
    decreases |s|, 1
  {
    if s == [] then Fail(Syntax)
    else if s[0] == '\"' then
      var (chars, rest) :- ParseChars(s[1..]);
      Done(Str(chars), rest)
    else if s[0] == '{' then ParseObject(s[1..])
    else if s[0] == '[' then ParseArray(s[1..])
    else ParseScalar(s)
  }

  /** An array, after its opening bracket. */
  function ParseArray(s: string): (r: Parsed<Json>)
    ensures r.Done? ==> |r.rest| < |s| && WellFormed(r.value)
    decreases |s|, 4
  {
    var body := SkipSpace(s);
    if body != [] && body[0] == ']' then Done(Arr([]), body[1..])
    else
      var (items, rest) :- ParseItems(body);
      Done(Arr(items), rest)
  }

  /** An object, after its opening brace; a repeated key rejects it. */
  function ParseObject(s: string): (r: Parsed<Json>)
    ensures r.Done? ==> |r.rest| < |s| && WellFormed(r.value)
    decreases |s|, 4
  {
    var body := SkipSpace(s);
    if body != [] && body[0] == '}' then Done(Obj([]), body[1..])
    else
      var (fields, rest) :- ParseFields(body);
      if DistinctKeys(fields) then Done(Obj(fields), rest) else Fail(DuplicateKey)
  }

  /** One or more array elements and the closing bracket. */
  function ParseItems(s: string): (r: Parsed<seq<Json>>)
    ensures r.Done? ==> |r.rest| < |s| && forall i :: 0 <= i < |r.value| ==> WellFormed(r.value[i])
    decreases |s|, 2
  {
    var (item, after) :- ParseValue(s);
    var next := SkipSpace(after);
    if next == [] then Fail(Syntax)
    else if next[0] == ']' then Done([item], next[1..])
    else if next[0] != ',' then Fail(Syntax)
    else
      var (items, rest) :- ParseItems(SkipSpace(next[1..]));
      Done([item] + items, rest)
  }

  /** A key, a colon and a value. */
  function ParseField(s: string): (r: Parsed<Field>)
    ensures r.Done? ==> |r.rest| < |s| && WellFormed(r.value.value)
    decreases |s|, 2
  {
    if s == [] || s[0] != '\"' then Fail(Syntax)
    else
      var (key, afterKey) :- ParseChars(s[1..]);
      var colon := SkipSpace(afterKey);
      if colon == [] || colon[0] != ':' then Fail(Syntax)
      else
        var (value, rest) :- ParseValue(SkipSpace(colon[1..]));
        Done(Field(key, value), rest)
  }

  /** One or more fields and the closing brace. */
  function ParseFields(s: string): (r: Parsed<seq<Field>>)
    ensures r.Done? ==> |r.rest| < |s| && forall i :: 0 <= i < |r.value| ==> WellFormed(r.value[i].value)
    decreases |s|, 3
  {
    var (field, after) :- ParseField(s);
    var next := SkipSpace(after);
    if next == [] then Fail(Syntax)
    else if next[0] == '}' then Done([field], next[1..])
    else if next[0] != ',' then Fail(Syntax)
    else
      var (fields, rest) :- ParseFields(SkipSpace(next[1..]));
      Done([field] + fields, rest)
  }

  /** The whole text is one value, with white space around it allowed. */
  function ParseText(s: string): (r: Parsed<Json>)
    ensures r.Done? ==> r.rest == "" && WellFormed(r.value)
  {
    if s != [] && s[0] == '\U{FEFF}' then Fail(Syntax)
    else
      var (v, after) :- ParseValue(SkipSpace(s));
      if SkipSpace(after) == [] then Done(v, "") else Fail(Syntax)
  }
}
