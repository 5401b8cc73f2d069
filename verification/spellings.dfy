/**
 * Which texts the worker's parser takes, and for what: a grammar of its own, with the texts of section 2 to 7 of RFC 8259
 * among them. A syntax tree holds every unit of its text, white space included.
 */
module Spellings {
  import opened Records
  import opened Json

  // ---- the grammar ----

  /** One unit of a string, and the text that spells it. */
  datatype Spelt = Spelt(text: Text, unit: Unit)

  /** The parts of a number. */
  datatype Exponent = Exponent(letter: Unit, sign: Text, digits: Text)

  datatype Number = Number(sign: Text, whole: Text, dotted: bool, frac: Text, exponent: Option<Exponent>)

  datatype Syntax =
    | SNull | SBool(b: bool) | SNumber(n: Number) | SString(s: seq<Spelt>)
    | SArray(items: seq<Item>, blank: Text) | SObject(pairs: seq<Pair>, blank: Text)

  /** An item with the white space around it. */
  datatype Item = Item(before: Text, value: Syntax, after: Text)

  /** A member with the white space before its key, around its colon and after its value. */
  datatype Pair = Pair(before: Text, key: seq<Spelt>, middle: Text, between: Text, value: Syntax, after: Text)

  function Spelled(s: seq<Spelt>): Text {
    if s == [] then [] else s[0].text + Spelled(s[1..])
  }

  function Units(s: seq<Spelt>): Text {
    if s == [] then [] else [s[0].unit] + Units(s[1..])
  }

  function Quoted(s: seq<Spelt>): Text {
    [quote] + Spelled(s) + [quote]
  }

  function ExponentText(e: Option<Exponent>): Text {
    if e.None? then [] else [e.value.letter] + e.value.sign + e.value.digits
  }

  function Fraction(n: Number): Text {
    if n.dotted then [point] + n.frac else []
  }

  function NumberText(n: Number): Text {
    n.sign + (n.whole + (Fraction(n) + ExponentText(n.exponent)))
  }

  function TextOf(c: Syntax): Text {
    match c
    case SNull => wordNull
    case SBool(b) => if b then wordTrue else wordFalse
    case SNumber(n) => NumberText(n)
    case SString(s) => Quoted(s)
    case SArray(items, blank) => [openBracket] + ((if items == [] then blank else ItemsText(items)) + [closeBracket])
    case SObject(pairs, blank) => [openBrace] + ((if pairs == [] then blank else PairsText(pairs)) + [closeBrace])
  }

  function ItemText(i: Item): Text {
    i.before + (TextOf(i.value) + i.after)
  }

  function ItemsText(items: seq<Item>): Text
    requires items != []
  {
    ItemText(items[0]) + if |items| == 1 then [] else [comma] + ItemsText(items[1..])
  }

  function PairText(p: Pair): Text {
    p.before + (Quoted(p.key) + (p.middle + ([colon] + (p.between + (TextOf(p.value) + p.after)))))
  }

  function PairsText(pairs: seq<Pair>): Text
    requires pairs != []
  {
    PairText(pairs[0]) + if |pairs| == 1 then [] else [comma] + PairsText(pairs[1..])
  }

  /** The number the digits stand for, read from the left. */
  function Amount(ds: Text, sofar: nat): nat
    requires AllDigits(ds)
  {
    if ds == [] then sofar else assert IsDigit(ds[0]); Amount(ds[1..], 10 * sofar + (ds[0] - zero) as nat)
  }

  function Signed(sign: Text, n: int): int {
    if sign == [minus] then -n else n
  }

  /** A whole number in the range of a long is that long; any other number is a double. */
  function NumberValue(n: Number): Json
    requires IsNumber(n)
  {
    if !n.dotted && n.exponent.None? && minLong <= Signed(n.sign, Amount(n.whole, 0)) <= maxLong
    then JLong(Signed(n.sign, Amount(n.whole, 0)))
    else JDouble(NumberText(n))
  }

  function ValueOf(c: Syntax): Json
    requires Taken(c)
    decreases c
  {
    match c
    case SNull => JNull
    case SBool(b) => JBool(b)
    case SNumber(n) => NumberValue(n)
    case SString(s) => JStr(Units(s))
    case SArray(items, _) => JArr(ItemValues(items))
    case SObject(pairs, _) => JObj(PutAll(map[], pairs))
  }

  function ItemValues(items: seq<Item>): seq<Json>
    requires forall k :: 0 <= k < |items| ==> Taken(items[k].value)
    decreases items
  {
    if items == [] then [] else [ValueOf(items[0].value)] + ItemValues(items[1..])
  }

  /** The members put into a map one after the other: of equal keys the last one stays. */
  function PutAll(m: map<Text, Json>, pairs: seq<Pair>): map<Text, Json>
    requires forall k :: 0 <= k < |pairs| ==> Taken(pairs[k].value)
    decreases pairs
  {
    if pairs == [] then m else PutAll(m[Units(pairs[0].key) := ValueOf(pairs[0].value)], pairs[1..])
  }

  // ---- what the parser takes ----

  predicate White(t: Text) { forall k :: 0 <= k < |t| ==> IsWhitespace(t[k]) }

  predicate IsSign(t: Text) { t == [] || t == [plus] || t == [minus] }

  /** The four units after `\u`: hex digits, the first of which may be a sign; a negative number wraps. */
  predicate IsHexOf(t: Text, unit: Unit)
    requires |t| == 4
  {
    IsHexBy(t, unit, HexDigit)
  }

  predicate IsHexBy(t: Text, unit: Unit, digit: Unit -> Option<nat>)
    requires |t| == 4
  {
    var a, b, c, d := digit(t[0]), digit(t[1]), digit(t[2]), digit(t[3]);
    && b.Some? && c.Some? && d.Some?
    && (if t[0] == plus then unit == 0x100 * b.value + 0x10 * c.value + d.value
        else if t[0] == minus then
          var n := 0x100 * b.value + 0x10 * c.value + d.value; unit == if n == 0 then 0 else 0x10000 - n
        else a.Some? && unit == 0x1000 * a.value + 0x100 * b.value + 0x10 * c.value + d.value)
  }

  /** What `\` and this unit stand for; a unit that is no letter of an escape stands for itself. */
  predicate IsEscapeOf(e: Unit, unit: Unit) {
    match e as int
    case 0x62 => unit == 0x08
    case 0x66 => unit == 0x0C
    case 0x6E => unit == 0x0A
    case 0x72 => unit == 0x0D
    case 0x74 => unit == 0x09
    case _ => unit == e
  }

  predicate IsSpelt(s: Spelt) {
    || (s.text == [s.unit] && s.unit != quote && s.unit != backslash)
    || (|s.text| == 2 && s.text[0] == backslash && s.text[1] != 0x75 && IsEscapeOf(s.text[1], s.unit))
    || (|s.text| == 6 && s.text[0] == backslash && s.text[1] == 0x75 && IsHexOf(s.text[2..], s.unit))
  }

  predicate AreSpelt(s: seq<Spelt>) { forall k :: 0 <= k < |s| ==> IsSpelt(s[k]) }

  predicate IsExponentOf(e: Exponent) {
    (e.letter == 0x65 || e.letter == 0x45) && IsSign(e.sign) && e.digits != [] && AllDigits(e.digits)
  }

  predicate IsNumber(n: Number) {
    && IsSign(n.sign) && AllDigits(n.whole) && AllDigits(n.frac) && (n.whole != [] || n.frac != []) && (!n.dotted ==> n.frac == [])
    && (n.exponent.Some? ==> IsExponentOf(n.exponent.value))
  }

  predicate Taken(c: Syntax) {
    match c
    case SNumber(n) => IsNumber(n)
    case SString(s) => AreSpelt(s)
    case SArray(items, blank) =>
      White(blank) && forall k :: 0 <= k < |items| ==> White(items[k].before) && White(items[k].after) && Taken(items[k].value)
    case SObject(pairs, blank) =>
      White(blank) && forall k :: 0 <= k < |pairs| ==> PairWhite(pairs[k]) && AreSpelt(pairs[k].key) && Taken(pairs[k].value)
    case _ => true
  }

  predicate PairWhite(p: Pair) { White(p.before) && White(p.middle) && White(p.between) && White(p.after) }

  // ---- what RFC 8259 allows ----

  /** Space, horizontal tab, line feed and carriage return. */
  predicate JsonWhite(t: Text) { forall k :: 0 <= k < |t| ==> t[k] in {0x20, 0x09, 0x0A, 0x0D} }

  /** A hex digit of either case. */
  predicate JsonHex(u: Unit, n: int) {
    (0x30 <= u <= 0x39 && n == u - 0x30) || (0x41 <= u <= 0x46 && n == u - 0x37) || (0x61 <= u <= 0x66 && n == u - 0x57)
  }

  /** The unit itself unless it must be escaped, one of the eight short escapes, or `\u` with four hex digits. */
  ghost predicate JsonSpelt(s: Spelt) {
    || (s.text == [s.unit] && s.unit >= 0x20 && s.unit != 0x22 && s.unit != 0x5C)
    || (s.text, s.unit) in {([0x5C, 0x22], 0x22), ([0x5C, 0x5C], 0x5C), ([0x5C, 0x2F], 0x2F), ([0x5C, 0x62], 0x08),
                            ([0x5C, 0x66], 0x0C), ([0x5C, 0x6E], 0x0A), ([0x5C, 0x72], 0x0D), ([0x5C, 0x74], 0x09)}
    || exists a, b, c, d :: IsFourHex(s.text, a, b, c, d) && s.unit == 0x1000 * a + 0x100 * b + 0x10 * c + d
  }

  predicate IsFourHex(t: Text, a: int, b: int, c: int, d: int) {
    && |t| == 6 && t[0] == 0x5C && t[1] == 0x75
    && JsonHex(t[2], a) && JsonHex(t[3], b) && JsonHex(t[4], c) && JsonHex(t[5], d)
  }

  /** No plus sign, no leading zero, digits before the point and after it. */
  predicate JsonNumber(n: Number) {
    && IsNumber(n) && n.sign != [plus] && n.whole != [] && (|n.whole| > 1 ==> n.whole[0] != 0x30) && (n.dotted ==> n.frac != [])
  }

  ghost predicate IsJson(c: Syntax) {
    match c
    case SNumber(n) => JsonNumber(n)
    case SString(s) => JsonString(s)
    case SArray(items, blank) =>
      JsonWhite(blank) && forall k :: 0 <= k < |items| ==> JsonWhite(items[k].before) && JsonWhite(items[k].after) && IsJson(items[k].value)
    case SObject(pairs, blank) =>
      JsonWhite(blank) && forall k :: 0 <= k < |pairs| ==> JsonPair(pairs[k]) && IsJson(pairs[k].value)
    case _ => true
  }

  ghost predicate JsonString(s: seq<Spelt>) { forall k :: 0 <= k < |s| ==> JsonSpelt(s[k]) }

  ghost predicate JsonPair(p: Pair) {
    JsonWhite(p.before) && JsonWhite(p.middle) && JsonWhite(p.between) && JsonWhite(p.after) && JsonString(p.key)
  }

  lemma JsonHexIs(u: Unit, n: int)
    requires JsonHex(u, n)
    ensures 0 <= n < 16 && HexDigit(u) == Some(n) && u != plus && u != minus
  {
  }

  lemma JsonSpeltIs(s: Spelt)
    requires JsonSpelt(s)
    ensures IsSpelt(s)
  {
    if a, b, c, d :| IsFourHex(s.text, a, b, c, d) && s.unit == 0x1000 * a + 0x100 * b + 0x10 * c + d {
      JsonHexIs(s.text[2], a);
      JsonHexIs(s.text[3], b);
      JsonHexIs(s.text[4], c);
      JsonHexIs(s.text[5], d);
    }
  }

  lemma JsonWhiteIs(t: Text)
    requires JsonWhite(t)
    ensures White(t)
  {
  }

  /** Every text of the standard is one the parser takes. */
  lemma {:induction false} JsonIsTaken(c: Syntax)
    requires IsJson(c)
    ensures Taken(c)
  {
    match c
    case SString(s) => forall k | 0 <= k < |s| { JsonSpeltIs(s[k]); }
    case SArray(items, _) => forall k | 0 <= k < |items| { JsonIsTaken(items[k].value); }
    case SObject(pairs, _) =>
      forall k | 0 <= k < |pairs| ensures PairWhite(pairs[k]) && AreSpelt(pairs[k].key) && Taken(pairs[k].value) {
        JsonIsTaken(pairs[k].value);
        forall j | 0 <= j < |pairs[k].key| { JsonSpeltIs(pairs[k].key[j]); }
      }
    case _ =>
  }
}
