/** The JSON texts of the Java worker: what its printer writes and what its parser reads. */
module Json {
  import opened Records

  /** A UTF-16 code unit. */
  type Unit = u: int | 0 <= u < 0x10000

  type Text = seq<Unit>

  const quote: Unit := 0x22
  const backslash: Unit := 0x5C
  const comma: Unit := 0x2C
  const colon: Unit := 0x3A
  const openBrace: Unit := 0x7B
  const closeBrace: Unit := 0x7D
  const openBracket: Unit := 0x5B
  const closeBracket: Unit := 0x5D
  const minus: Unit := 0x2D
  const plus: Unit := 0x2B
  const point: Unit := 0x2E
  const zero: Unit := 0x30

  const wordNull: Text := [0x6E, 0x75, 0x6C, 0x6C]
  const wordTrue: Text := [0x74, 0x72, 0x75, 0x65]
  const wordFalse: Text := [0x66, 0x61, 0x6C, 0x73, 0x65]

  const minLong: int := -0x8000_0000_0000_0000
  const maxLong: int := 0x7FFF_FFFF_FFFF_FFFF

  /** A Java value: null, a boolean, a long, a double (by its text), a string, a list or a map. */
  datatype Json =
    | JNull | JBool(b: bool) | JLong(n: int) | JDouble(lexeme: Text) | JStr(s: Text)
    | JArr(a: seq<Json>) | JObj(o: map<Text, Json>)

  // ---- the printer ----

  /** A value together with the order in which its maps are iterated. */
  datatype Doc =
    | DNull | DBool(b: bool) | DLong(n: int) | DStr(s: Text) | DArr(items: seq<Doc>) | DObj(members: seq<Member>)

  datatype Member = Member(key: Text, value: Doc)

  predicate WellFormed(d: Doc) {
    match d
    case DLong(n) => minLong <= n <= maxLong
    case DArr(items) => forall k :: 0 <= k < |items| ==> WellFormed(items[k])
    case DObj(members) =>
      && (forall k :: 0 <= k < |members| ==> WellFormed(members[k].value))
      && (forall k, l :: 0 <= k < l < |members| ==> members[k].key != members[l].key)
    case _ => true
  }

  function Value(d: Doc): Json
    decreases d
  {
    match d
    case DNull => JNull
    case DBool(b) => JBool(b)
    case DLong(n) => JLong(n)
    case DStr(s) => JStr(s)
    case DArr(items) => JArr(Values(items))
    case DObj(members) => JObj(Enter(map[], members))
  }

  function Values(items: seq<Doc>): (r: seq<Json>)
    ensures |r| == |items| && forall k :: 0 <= k < |items| ==> r[k] == Value(items[k])
    decreases items
  {
    if items == [] then [] else [Value(items[0])] + Values(items[1..])
  }

  /** The map with these members put into it, one after the other. */
  function Enter(m: map<Text, Json>, members: seq<Member>): map<Text, Json>
    decreases members
  {
    if members == [] then m else Enter(m[members[0].key := Value(members[0].value)], members[1..])
  }

  function Digit(n: int): Unit
    requires 0 <= n < 16
  {
    if n < 10 then zero + n else 0x61 + n - 10
  }

  function PrintNat(n: nat): Text {
    (if n < 10 then [] else PrintNat(n / 10)) + [Digit(n % 10)]
  }

  function PrintLong(n: int): Text {
    if n < 0 then [minus] + PrintNat(-n) else PrintNat(n)
  }

  function Escape(c: Unit): Text {
    if c == quote then [backslash, quote]
    else if c == backslash then [backslash, backslash]
    else if c == 0x0A then [backslash, 0x6E]
    else if c == 0x0D then [backslash, 0x72]
    else if c == 0x09 then [backslash, 0x74]
    else if c < 0x20 then [backslash, 0x75, Digit(c / 0x1000), Digit(c / 0x100 % 16), Digit(c / 16 % 16), Digit(c % 16)]
    else [c]
  }

  function EscapeAll(s: Text): Text {
    if s == [] then [] else Escape(s[0]) + EscapeAll(s[1..])
  }

  function PrintString(s: Text): Text {
    [quote] + EscapeAll(s) + [quote]
  }

  function Print(d: Doc): Text {
    match d
    case DNull => wordNull
    case DBool(b) => if b then wordTrue else wordFalse
    case DLong(n) => PrintLong(n)
    case DStr(s) => PrintString(s)
    case DArr(items) => [openBracket] + PrintItems(items) + [closeBracket]
    case DObj(members) => [openBrace] + PrintMembers(members) + [closeBrace]
  }

  function PrintItems(items: seq<Doc>): Text {
    if items == [] then []
    else Print(items[0]) + (if |items| == 1 then [] else [comma] + PrintItems(items[1..]))
  }

  function PrintMember(m: Member): Text {
    PrintString(m.key) + [colon] + Print(m.value)
  }

  function PrintMembers(members: seq<Member>): Text {
    if members == [] then []
    else PrintMember(members[0]) + (if |members| == 1 then [] else [comma] + PrintMembers(members[1..]))
  }

  // ---- the parser, on the text that is left ----

  /** What a parsing method leaves: a value, a failure (`ok` is false), or a `NumberFormatException`. */
  datatype Parse<T> = Good(value: T, rest: Text) | Bad(rest: Text) | Threw(rest: Text)

  predicate IsWhitespace(c: Unit) {
    || 0x09 <= c <= 0x0D || 0x1C <= c <= 0x20
    || c == 0x1680 || 0x2000 <= c <= 0x2006 || 0x2008 <= c <= 0x200A
    || c == 0x2028 || c == 0x2029 || c == 0x205F || c == 0x3000
  }

  function SkipWs(t: Text): (r: Text)
    ensures |r| <= |t|
    ensures r != [] ==> !IsWhitespace(r[0])
  {
    if t != [] && IsWhitespace(t[0]) then SkipWs(t[1..]) else t
  }

  predicate IsDigit(c: Unit) { zero <= c <= zero + 9 }

  /** One of `-+0123456789.eE`. */
  predicate IsNumberChar(c: Unit) {
    IsDigit(c) || c == minus || c == plus || c == point || c == 0x65 || c == 0x45
  }

  function Leading(t: Text, of: Unit -> bool): (n: nat)
    ensures n <= |t|
    ensures forall k :: 0 <= k < n ==> of(t[k])
    ensures n < |t| ==> !of(t[n])
  {
    if t == [] || !of(t[0]) then 0 else 1 + Leading(t[1..], of)
  }

  function DigitsValue(ds: Text): nat
    requires AllDigits(ds)
  {
    if ds == [] then 0
    else
      assert IsDigit(ds[|ds| - 1]);
      10 * DigitsValue(ds[..|ds| - 1]) + (ds[|ds| - 1] as int - zero)
  }

  function Unsigned(t: Text): Text {
    if t != [] && (t[0] == minus || t[0] == plus) then t[1..] else t
  }

  predicate AllDigits(t: Text) { forall k :: 0 <= k < |t| ==> IsDigit(t[k]) }

  /** `Long.parseLong`. */
  function ParseLong(t: Text): Option<int> {
    var u := Unsigned(t);
    if u == [] || !AllDigits(u) then None
    else
      var n: int := (if t[0] == minus then -1 else 1) * DigitsValue(u);
      if minLong <= n <= maxLong then Some(n) else None
  }

  /** What `Double.parseDouble` accepts of a text made of number characters. */
  predicate IsDouble(t: Text) {
    var u := Unsigned(t);
    var a := Leading(u, IsDigit);
    AfterWhole(a, u[a..])
  }

  /** What may come after `a` digits: a fraction, or an exponent if there were any. */
  predicate AfterWhole(a: nat, t: Text) {
    if t != [] && t[0] == point then AfterPoint(a, t[1..]) else a > 0 && IsExponent(t)
  }

  predicate AfterPoint(a: nat, t: Text) {
    var b := Leading(t, IsDigit);
    a + b > 0 && IsExponent(t[b..])
  }

  predicate IsExponent(t: Text) {
    t == [] || ((t[0] == 0x65 || t[0] == 0x45) && Unsigned(t[1..]) != [] && AllDigits(Unsigned(t[1..])))
  }

  function ParseNumber(t: Text): Parse<Json> {
    var n := Leading(t, IsNumberChar);
    NumberOf(t[..n], t[n..])
  }

  function NumberOf(num: Text, rest: Text): Parse<Json> {
    if ParseLong(num).Some? then Good(JLong(ParseLong(num).value), rest)
    else if IsDouble(num) then Good(JDouble(num), rest)
    else Bad(rest)
  }

  /** The zeros of the decimal digits outside ASCII that fit into one code unit; nine more digits follow each of them. */
  const otherZeros: set<int> :=
    {0x0660, 0x06F0, 0x07C0, 0x0966, 0x09E6, 0x0A66, 0x0AE6, 0x0B66, 0x0BE6, 0x0C66, 0x0CE6, 0x0D66, 0x0DE6, 0x0E50, 0x0ED0, 0x0F20,
     0x1040, 0x1090, 0x17E0, 0x1810, 0x1946, 0x19D0, 0x1A80, 0x1A90, 0x1B50, 0x1BB0, 0x1C40, 0x1C50,
     0xA620, 0xA8D0, 0xA900, 0xA9D0, 0xA9F0, 0xAA50, 0xABF0, 0xFF10}

  /** A digit of another script: all those zeros end in the hex digit 0 or 6. */
  function OtherDigit(c: Unit): (d: Option<nat>)
    ensures d.Some? ==> d.value < 10
  {
    if c % 16 < 10 && c - c % 16 in otherZeros then Some(c % 16)
    else if c % 16 >= 6 && c - c % 16 + 6 in otherZeros then Some(c % 16 - 6)
    else None
  }

  /** `Character.digit(c, 16)`: decimal digits of any script, and the letters in their two widths. */
  function HexDigit(c: Unit): Option<nat> {
    if IsDigit(c) then Some(c - zero)
    else if 0x61 <= c <= 0x66 then Some(c - 0x61 + 10)
    else if 0x41 <= c <= 0x46 then Some(c - 0x41 + 10)
    else if 0xFF41 <= c <= 0xFF46 then Some(c - 0xFF41 + 10)
    else if 0xFF21 <= c <= 0xFF26 then Some(c - 0xFF21 + 10)
    else OtherDigit(c)
  }

  /** The number in base 16 the digits stand for, by some reading of digits. */
  function HexValue(ds: Text, digit: Unit -> Option<nat>): Option<nat> {
    if ds == [] then Some(0)
    else
      var before, last := HexValue(ds[..|ds| - 1], digit), digit(ds[|ds| - 1]);
      if before.Some? && last.Some? then Some(16 * before.value + last.value) else None
  }

  /** `(char) Integer.parseInt(four units, 16)`: a sign is allowed, and a negative number wraps. */
  function CharOf(t: Text): Option<Unit>
    requires |t| == 4
  {
    CharBy(t, HexDigit)
  }

  function CharBy(t: Text, digit: Unit -> Option<nat>): Option<Unit>
    requires |t| == 4
  {
    var v := HexValue(Unsigned(t), digit);
    if v.None? then None
    else Some((if t[0] == minus then -1 else 1) * v.value % 0x10000)
  }

  /** What stands for an escaped character other than `u`. */
  function Unescape(e: Unit): Unit {
    if e == 0x6E then 0x0A
    else if e == 0x74 then 0x09
    else if e == 0x72 then 0x0D
    else if e == 0x62 then 0x08
    else if e == 0x66 then 0x0C
    else e
  }

  /** What the scan of a string meets next: its end, a unit, an escape that clears `ok`, or one that throws. */
  datatype Piece = End | Char(c: Unit, size: nat) | Broken(size: nat) | Malformed(size: nat)

  function NextPiece(t: Text): (p: Piece)
    requires t != []
    ensures !p.End? ==> 0 < p.size <= |t|
  {
    if t[0] == quote then End
    else if t[0] != backslash then Char(t[0], 1)
    else if |t| == 1 then Broken(1)
    else if t[1] != 0x75 then Char(Unescape(t[1]), 2)
    else if |t| < 6 then Broken(2)
    else if CharOf(t[2..6]).None? then Malformed(2)
    else Char(CharOf(t[2..6]).value, 6)
  }

  /** The units of a string up to its closing quote. A bad escape clears `ok` and the scan goes on. */
  function ParseChars(t: Text, sb: Text, ok: bool): (r: Parse<Text>)
    ensures |r.rest| <= |t| && (r.Good? ==> |r.rest| < |t|)
    decreases |t|
  {
    if t == [] then Bad([])
    else
      match NextPiece(t)
      case End => if ok then Good(sb, t[1..]) else Bad(t[1..])
      case Char(c, n) => ParseChars(t[n..], sb + [c], ok)
      case Broken(n) => ParseChars(t[n..], sb, false)
      case Malformed(n) => Threw(t[n..])
  }

  function ParseString(t: Text): (r: Parse<Text>)
    requires t != []
    ensures |r.rest| < |t|
  {
    ParseChars(t[1..], [], true)
  }

  function Expect(t: Text, word: Text, v: Json): (r: Parse<Json>)
    ensures |r.rest| <= |t|
  {
    if word <= t then Good(v, t[|word|..]) else Bad(t)
  }

  function ParseValue(text: Text): (r: Parse<Json>)
    ensures |r.rest| <= |text|
    decreases |text|, 2
  {
    var t := SkipWs(text);
    if t == [] then Bad(t)
    else if t[0] == openBrace then ParseObject(t)
    else if t[0] == openBracket then ParseArray(t)
    else if t[0] == quote then
      match ParseString(t)
      case Good(s, rest) => Good(JStr(s), rest)
      case Bad(rest) => Bad(rest)
      case Threw(rest) => Threw(rest)
    else if t[0] == wordTrue[0] then Expect(t, wordTrue, JBool(true))
    else if t[0] == wordFalse[0] then Expect(t, wordFalse, JBool(false))
    else if t[0] == wordNull[0] then Expect(t, wordNull, JNull)
    else ParseNumber(t)
  }

  function ParseObject(t: Text): (r: Parse<Json>)
    requires t != []
    ensures |r.rest| <= |t|
    decreases |t|, 1
  {
    var u := SkipWs(t[1..]);
    if u != [] && u[0] == closeBrace then Good(JObj(map[]), u[1..]) else ParseMembers(u, map[])
  }

  /** A key and a colon. */
  function ParseKey(text: Text): (r: Parse<Text>)
    ensures |r.rest| <= |text| && (r.Good? ==> |r.rest| < |text|)
  {
    var t := SkipWs(text);
    if t == [] || t[0] != quote then Bad(t)
    else
      match ParseString(t)
      case Bad(rest) => Bad(rest)
      case Threw(rest) => Threw(rest)
      case Good(key, rest) =>
        var u := SkipWs(rest);
        if u == [] || u[0] != colon then Bad(u) else Good(key, u[1..])
  }

  /** A key, a colon and a value. */
  function ParseMember(t: Text): (r: Parse<(Text, Json)>)
    ensures |r.rest| <= |t| && (r.Good? ==> |r.rest| < |t|)
    decreases |t|, 0
  {
    match ParseKey(t)
    case Bad(rest) => Bad(rest)
    case Threw(rest) => Threw(rest)
    case Good(key, after) =>
      match ParseValue(after)
      case Bad(rest) => Bad(rest)
      case Threw(rest) => Threw(rest)
      case Good(v, rest) => Good((key, v), rest)
  }

  /** One turn of the loop over members, and those after it. */
  function ParseMembers(t: Text, m: map<Text, Json>): (r: Parse<Json>)
    ensures |r.rest| <= |t|
    decreases |t|, 1
  {
    match ParseMember(t)
    case Bad(rest) => Bad(rest)
    case Threw(rest) => Threw(rest)
    case Good(kv, rest) =>
      var w := SkipWs(rest);
      if w == [] then Bad(w)
      else if w[0] == closeBrace then Good(JObj(m[kv.0 := kv.1]), w[1..])
      else if w[0] != comma then Bad(w[1..])
      else ParseMembers(w[1..], m[kv.0 := kv.1])
  }

  function ParseArray(t: Text): (r: Parse<Json>)
    requires t != []
    ensures |r.rest| <= |t|
    decreases |t|, 1
  {
    var u := SkipWs(t[1..]);
    if u != [] && u[0] == closeBracket then Good(JArr([]), u[1..]) else ParseItems(u, [])
  }

  /** One turn of the loop over items, and those after it. */
  function ParseItems(t: Text, l: seq<Json>): (r: Parse<Json>)
    ensures |r.rest| <= |t|
    decreases |t|, 3
  {
    match ParseValue(t)
    case Bad(rest) => Bad(rest)
    case Threw(rest) => Threw(rest)
    case Good(v, rest) =>
      var w := SkipWs(rest);
      if w == [] then Bad(w)
      else if w[0] == closeBracket then Good(JArr(l + [v]), w[1..])
      else if w[0] != comma then Bad(w[1..])
      else ParseItems(w[1..], l + [v])
  }

  /** `parseJson`: an object and nothing after it, or null; an exception goes through. */
  datatype Answer = Parsed(o: map<Text, Json>) | Null | Exception

  function ParseText(text: Text): Answer {
    match ParseValue(text)
    case Good(v, rest) => if rest == [] && v.JObj? then Parsed(v.o) else Null
    case Bad(_) => Null
    case Threw(_) => Exception
  }
}
