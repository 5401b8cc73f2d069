/** Strings and numbers: the parser takes exactly the texts of the grammar, and throws exactly at malformed escapes. */
module Tokens {
  import opened Records
  import opened Json
  import opened JsonProofs
  import opened Spellings

  // ---- strings ----

  type Reading = Unit -> Option<nat>

  lemma HexNext(t: Text, digit: Reading)
    requires t != []
    ensures var before, last := HexValue(t[..|t| - 1], digit), digit(t[|t| - 1]);
            HexValue(t, digit) == if before.Some? && last.Some? then Some(16 * before.value + last.value) else None
  {
  }

  lemma ThreeDigits(t: Text, digit: Reading)
    requires |t| == 3
    ensures var a, b, c := digit(t[0]), digit(t[1]), digit(t[2]);
            HexValue(t, digit) == if a.Some? && b.Some? && c.Some? then Some(0x100 * a.value + 0x10 * b.value + c.value) else None
  {
    HexNext(t, digit);
    HexNext(t[..2], digit);
    HexNext(t[..1], digit);
    assert t[..2][..1] == t[..1] && t[..1][..0] == [] && HexValue([], digit) == Some(0);
  }

  lemma FourValues(t: Text, digit: Reading)
    requires |t| == 4
    ensures var a, b, c, d := digit(t[0]), digit(t[1]), digit(t[2]), digit(t[3]);
            HexValue(t, digit)
            == if a.Some? && b.Some? && c.Some? && d.Some? then Some(0x1000 * a.value + 0x100 * b.value + 0x10 * c.value + d.value) else None
  {
    assert t[..3][0] == t[0] && t[..3][1] == t[1] && t[..3][2] == t[2];
    HexNext(t, digit);
    ThreeDigits(t[..3], digit);
  }

  lemma CharIs(t: Text, digit: Reading)
    requires |t| == 4 && (HexValue(Unsigned(t), digit).Some? ==> HexValue(Unsigned(t), digit).value < 0x10000)
    ensures var v := HexValue(Unsigned(t), digit);
            CharBy(t, digit) == if v.None? then None
                                else if t[0] == minus && v.value > 0 then Some(0x10000 - v.value) else Some(v.value)
  {
  }

  lemma PiecesBy(t: Text, unit: Unit, digit: Reading)
    requires |t| == 4 && forall c: Unit :: digit(c).Some? ==> digit(c).value < 16
    ensures CharBy(t, digit) == Some(unit) <==> IsHexBy(t, unit, digit)
  {
    if t[0] == plus || t[0] == minus {
      ThreeDigits(t[1..], digit);
    } else {
      FourValues(t, digit);
    }
    CharIs(t, digit);
  }

  lemma HexIsSmall(c: Unit)
    ensures HexDigit(c).Some? ==> HexDigit(c).value < 16
  {
  }

  lemma HexPieces(t: Text, unit: Unit)
    requires |t| == 4
    ensures CharOf(t) == Some(unit) <==> IsHexOf(t, unit)
  {
    forall c: Unit ensures HexDigit(c).Some? ==> HexDigit(c).value < 16 {
      HexIsSmall(c);
    }
    PiecesBy(t, unit, HexDigit);
  }

  /** The scan takes one spelled unit. */
  lemma SpeltPiece(s: Spelt, rest: Text)
    requires IsSpelt(s)
    ensures s.text + rest != [] && NextPiece(s.text + rest) == Char(s.unit, |s.text|)
  {
    var t := s.text + rest;
    if |s.text| == 6 && s.text[1] == 0x75 && s.text[0] == backslash {
      assert t[2..6] == s.text[2..];
      HexPieces(s.text[2..], s.unit);
    }
  }

  lemma SpeltUnit(s: Spelt, sb: Text, rest: Text)
    requires IsSpelt(s)
    ensures ParseChars(s.text + rest, sb, true) == ParseChars(rest, sb + [s.unit], true)
  {
    SpeltPiece(s, rest);
    assert (s.text + rest)[|s.text|..] == rest;
  }

  lemma {:induction false} CharsTaken(s: seq<Spelt>, sb: Text, rest: Text)
    requires AreSpelt(s)
    ensures ParseChars(Spelled(s) + ([quote] + rest), sb, true) == Good(sb + Units(s), rest)
    decreases |s|
  {
    if s == [] {
      Closing(sb, rest);
      assert Spelled(s) + ([quote] + rest) == [quote] + rest && sb + Units(s) == sb;
    } else {
      assert Spelled(s) + ([quote] + rest) == s[0].text + (Spelled(s[1..]) + ([quote] + rest));
      SpeltUnit(s[0], sb, Spelled(s[1..]) + ([quote] + rest));
      CharsTaken(s[1..], sb + [s[0].unit], rest);
      assert sb + [s[0].unit] + Units(s[1..]) == sb + Units(s);
    }
  }

  lemma StringTaken(s: seq<Spelt>, rest: Text)
    requires AreSpelt(s)
    ensures ParseString(Quoted(s) + rest) == Good(Units(s), rest)
  {
    assert (Quoted(s) + rest)[1..] == Spelled(s) + ([quote] + rest);
    CharsTaken(s, [], rest);
    assert [] + Units(s) == Units(s);
  }

  /** Once a bad escape has cleared `ok` the string fails. */
  lemma {:induction false} BrokenStays(t: Text, sb: Text)
    ensures !ParseChars(t, sb, false).Good?
    decreases |t|
  {
    if t != [] {
      match NextPiece(t)
      case End =>
      case Char(c, n) => BrokenStays(t[n..], sb + [c]);
      case Broken(n) => BrokenStays(t[n..], sb);
      case Malformed(_) =>
    }
  }

  /** What the scan takes as one unit is a spelling of it. */
  lemma PieceIsSpelt(t: Text)
    requires t != [] && NextPiece(t).Char?
    ensures IsSpelt(Spelt(t[..NextPiece(t).size], NextPiece(t).c))
  {
    if t[0] == backslash && t[1] == 0x75 {
      assert t[..6][2..] == t[2..6];
      HexPieces(t[2..6], NextPiece(t).c);
    }
  }

  lemma Onward(t: Text, sb: Text, c: Unit, n: nat, s: seq<Spelt>, more: seq<Spelt>, p: Parse<Text>)
    requires n <= |t| && s == [Spelt(t[..n], c)] + more && p.Good?
    requires t[n..] == Spelled(more) + ([quote] + p.rest) && p.value == sb + [c] + Units(more)
    ensures t == Spelled(s) + ([quote] + p.rest) && p.value == sb + Units(s)
  {
    assert s[1..] == more;
    SpelledLater(t, n, s, more, [quote] + p.rest);
    Reassociate(sb, [c], Units(more));
  }

  lemma {:induction false} CharsAreSpelled(t: Text, sb: Text) returns (s: seq<Spelt>)
    requires ParseChars(t, sb, true).Good?
    ensures var p := ParseChars(t, sb, true);
            AreSpelt(s) && t == Spelled(s) + ([quote] + p.rest) && p.value == sb + Units(s)
    decreases |t|
  {
    match NextPiece(t)
    case End =>
      s := [];
      assert t == [] + ([quote] + t[1..]);
    case Char(c, n) =>
      PieceIsSpelt(t);
      var more := CharsAreSpelled(t[n..], sb + [c]);
      s := [Spelt(t[..n], c)] + more;
      Onward(t, sb, c, n, s, more, ParseChars(t, sb, true));
    case Broken(n) => BrokenStays(t[n..], sb);
    case Malformed(_) =>
  }

  lemma QuotedText(s: seq<Spelt>, rest: Text)
    ensures Quoted(s) + rest == [quote] + (Spelled(s) + ([quote] + rest))
  {
  }

  lemma StringIsSpelled(t: Text) returns (s: seq<Spelt>)
    requires t != [] && t[0] == quote && ParseString(t).Good?
    ensures AreSpelt(s) && t == Quoted(s) + ParseString(t).rest && ParseString(t).value == Units(s)
  {
    s := CharsAreSpelled(t[1..], []);
    QuotedText(s, ParseString(t).rest);
    assert t == [quote] + t[1..];
    assert [] + Units(s) == Units(s);
  }

  /** A string that throws: after well-spelled units, `\u` and four units that are no hex number. */
  ghost predicate IsMalformed(t: Text, s: seq<Spelt>, bad: Text, rest: Text) {
    AreSpelt(s) && |bad| == 4 && (forall unit :: !IsHexOf(bad, unit)) && t == Spelled(s) + ([backslash, 0x75] + (bad + rest))
  }

  lemma {:induction false} MalformedThrows(t: Text, s: seq<Spelt>, bad: Text, rest: Text, sb: Text)
    requires IsMalformed(t, s, bad, rest)
    ensures ParseChars(t, sb, true).Threw?
    decreases |s|
  {
    if s == [] {
      assert t == [backslash, 0x75] + (bad + rest);
      assert t[2..6] == bad;
      if CharOf(bad).Some? { HexPieces(bad, CharOf(bad).value); }
    } else {
      var t' := Spelled(s[1..]) + ([backslash, 0x75] + (bad + rest));
      assert t == s[0].text + t';
      SpeltUnit(s[0], sb, t');
      MalformedThrows(t', s[1..], bad, rest, sb + [s[0].unit]);
    }
  }

  lemma SpelledLater(t: Text, n: nat, s: seq<Spelt>, more: seq<Spelt>, end: Text)
    requires n <= |t| && t[n..] == Spelled(more) + end && s != [] && s[1..] == more && s[0].text == t[..n]
    ensures t == Spelled(s) + end
  {
    assert t == t[..n] + (Spelled(more) + end);
    Reassociate(t[..n], Spelled(more), end);
  }

  lemma Reassociate(a: Text, b: Text, c: Text)
    ensures a + (b + c) == a + b + c
  {
  }

  lemma MalformedLater(t: Text, n: nat, s: seq<Spelt>, more: seq<Spelt>, bad: Text, rest: Text)
    requires n <= |t| && IsMalformed(t[n..], more, bad, rest) && s != [] && s[1..] == more && s[0].text == t[..n] && IsSpelt(s[0])
    ensures IsMalformed(t, s, bad, rest)
  {
    SpelledLater(t, n, s, more, [backslash, 0x75] + (bad + rest));
  }

  lemma {:induction false} ThrowsOnlyMalformed(t: Text, sb: Text) returns (s: seq<Spelt>, bad: Text, rest: Text)
    requires ParseChars(t, sb, true).Threw?
    ensures IsMalformed(t, s, bad, rest)
    decreases |t|
  {
    s, bad, rest := [], [], [];
    match NextPiece(t)
    case End =>
    case Char(c, n) =>
      PieceIsSpelt(t);
      var more;
      more, bad, rest := ThrowsOnlyMalformed(t[n..], sb + [c]);
      s := [Spelt(t[..n], c)] + more;
      MalformedLater(t, n, s, more, bad, rest);
    case Broken(n) => NearTheEnd(t[n..], sb);
    case Malformed(_) =>
      bad, rest := t[2..6], t[6..];
      assert t == [] + ([backslash, 0x75] + (bad + rest));
      forall unit ensures !IsHexOf(bad, unit) { HexPieces(bad, unit); }
  }

  /** Fewer than four units after `\u` cannot hold another malformed escape. */
  lemma {:induction false} NearTheEnd(t: Text, sb: Text)
    requires |t| < 4
    ensures !ParseChars(t, sb, false).Threw?
    decreases |t|
  {
    if t != [] {
      match NextPiece(t)
      case End =>
      case Char(c, n) => NearTheEnd(t[n..], sb + [c]);
      case Broken(n) => NearTheEnd(t[n..], sb);
      case Malformed(_) =>
    }
  }

  /** The parser throws in a string exactly at a malformed escape. */
  lemma StringThrowsIff(t: Text)
    requires t != []
    ensures ParseString(t).Threw? <==> exists s, bad, rest :: IsMalformed(t[1..], s, bad, rest)
  {
    if ParseString(t).Threw? {
      var s, bad, rest := ThrowsOnlyMalformed(t[1..], []);
    }
    if s, bad, rest :| IsMalformed(t[1..], s, bad, rest) {
      MalformedThrows(t[1..], s, bad, rest, []);
    }
  }

  // ---- numbers ----

  lemma {:induction false} AmountIs(ds: Text, before: Text)
    requires AllDigits(ds) && AllDigits(before)
    ensures Amount(ds, DigitsValue(before)) == DigitsValue(before + ds)
    decreases |ds|
  {
    if ds == [] {
      assert before + ds == before;
    } else {
      var more := before + [ds[0]];
      assert more[..|more| - 1] == before;
      AmountIs(ds[1..], more);
      assert more + ds[1..] == before + ds;
    }
  }

  /** A number without its sign. */
  function Body(n: Number): Text {
    n.whole + (Fraction(n) + ExponentText(n.exponent))
  }

  lemma BodyStarts(n: Number)
    requires IsNumber(n)
    ensures Body(n) != [] && (IsDigit(Body(n)[0]) || Body(n)[0] == point)
    ensures Unsigned(NumberText(n)) == Body(n) && NumberText(n)[0] == (if n.sign == [] then Body(n)[0] else n.sign[0])
  {
    if n.whole == [] { assert Body(n)[0] == point; }
    assert NumberText(n) == n.sign + Body(n);
  }

  lemma NumberUnits(n: Number)
    requires IsNumber(n)
    ensures forall k :: 0 <= k < |NumberText(n)| ==> IsNumberChar(NumberText(n)[k])
  {
    var f, e := Fraction(n), ExponentText(n.exponent);
    assert forall k :: 0 <= k < |f| ==> IsNumberChar(f[k]);
    assert forall k :: 0 <= k < |e| ==> IsNumberChar(e[k]);
  }

  lemma NotAllDigits(n: Number)
    requires IsNumber(n)
    ensures AllDigits(Body(n)) <==> !n.dotted && n.exponent.None?
  {
    if n.dotted { assert Body(n)[|n.whole|] == point; }
    if n.exponent.Some? { assert Body(n)[|n.whole| + |Fraction(n)|] == n.exponent.value.letter; }
    if !n.dotted && n.exponent.None? { assert Body(n) == n.whole; }
  }

  lemma LongOf(t: Text, u: Text, sign: Text)
    requires t != [] && Unsigned(t) == u && u != [] && AllDigits(u) && (t[0] == minus <==> sign == [minus])
    ensures var v := Signed(sign, DigitsValue(u)); ParseLong(t) == if minLong <= v <= maxLong then Some(v) else None
  {
  }

  lemma WholeAmount(ds: Text)
    requires AllDigits(ds)
    ensures Amount(ds, 0) == DigitsValue(ds)
  {
    AmountIs(ds, []);
    assert [] + ds == ds;
  }

  lemma PlainLong(n: Number)
    requires IsNumber(n) && !n.dotted && n.exponent.None?
    ensures var v := Signed(n.sign, Amount(n.whole, 0));
            ParseLong(NumberText(n)) == if minLong <= v <= maxLong then Some(v) else None
  {
    BodyStarts(n);
    assert Body(n) == n.whole;
    WholeAmount(n.whole);
    LongOf(NumberText(n), n.whole, n.sign);
  }

  lemma NoLong(n: Number)
    requires IsNumber(n) && (n.dotted || n.exponent.Some?)
    ensures ParseLong(NumberText(n)) == None
  {
    BodyStarts(n);
    NotAllDigits(n);
  }

  lemma LongIs(n: Number)
    requires IsNumber(n)
    ensures NumberValue(n) == if ParseLong(NumberText(n)).Some? then JLong(ParseLong(NumberText(n)).value) else JDouble(NumberText(n))
  {
    if n.dotted || n.exponent.Some? { NoLong(n); } else { PlainLong(n); }
  }

  lemma ExponentIs(e: Option<Exponent>)
    requires e.Some? ==> IsExponentOf(e.value)
    ensures IsExponent(ExponentText(e))
    ensures ExponentText(e) != [] ==> !IsDigit(ExponentText(e)[0]) && ExponentText(e)[0] != point
  {
    if e.Some? {
      var t := ExponentText(e);
      assert t[1..] == e.value.sign + e.value.digits;
      assert IsDigit(e.value.digits[0]);
      assert Unsigned(t[1..]) == e.value.digits;
    }
  }

  lemma PointTaken(a: nat, frac: Text, e: Text)
    requires AllDigits(frac) && a + |frac| > 0 && IsExponent(e) && (e != [] ==> !IsDigit(e[0]))
    ensures AfterPoint(a, frac + e)
  {
    LeadingIs(frac, e, IsDigit);
    assert (frac + e)[|frac|..] == e;
  }

  lemma AfterThePoint(a: nat, v: Text, t: Text)
    requires v != [] && v[0] == point && v[1..] == t && AfterPoint(a, t)
    ensures AfterWhole(a, v)
  {
  }

  lemma DottedTaken(a: nat, frac: Text, e: Text)
    requires AllDigits(frac) && a + |frac| > 0 && IsExponent(e) && (e != [] ==> !IsDigit(e[0]))
    ensures AfterWhole(a, [point] + frac + e)
  {
    PointTaken(a, frac, e);
    Tail(point, frac, e);
    AfterThePoint(a, [point] + frac + e, frac + e);
  }

  lemma Tail(head: Unit, s: Text, t: Text)
    ensures ([head] + s + t)[1..] == s + t && [head] + s + t != [] && ([head] + s + t)[0] == head
  {
  }

  lemma WholeTaken(n: Number)
    requires IsNumber(n)
    ensures AfterWhole(|n.whole|, Fraction(n) + ExponentText(n.exponent))
    ensures var v := Fraction(n) + ExponentText(n.exponent); v != [] ==> !IsDigit(v[0])
  {
    var e := ExponentText(n.exponent);
    ExponentIs(n.exponent);
    if n.dotted { DottedTaken(|n.whole|, n.frac, e); } else { assert Fraction(n) + e == e; }
  }

  lemma DoubleOf(t: Text, u: Text, a: nat, v: Text)
    requires Unsigned(t) == u && Leading(u, IsDigit) == a && u[a..] == v && AfterWhole(a, v)
    ensures IsDouble(t)
  {
  }

  lemma DoubleIs(n: Number)
    requires IsNumber(n)
    ensures IsDouble(NumberText(n))
  {
    var v := Fraction(n) + ExponentText(n.exponent);
    BodyStarts(n);
    WholeTaken(n);
    LeadingIs(n.whole, v, IsDigit);
    DoubleOf(NumberText(n), Body(n), |n.whole|, v);
  }

  lemma NumberTaken(n: Number, rest: Text)
    requires IsNumber(n) && Stops(rest)
    ensures ParseNumber(NumberText(n) + rest) == Good(NumberValue(n), rest)
  {
    NumberUnits(n);
    LeadingIs(NumberText(n), rest, IsNumberChar);
    assert (NumberText(n) + rest)[..|NumberText(n)|] == NumberText(n);
    LongIs(n);
    DoubleIs(n);
  }

  lemma SignOf(t: Text) returns (sign: Text)
    ensures IsSign(sign) && t == sign + Unsigned(t)
  {
    sign := if t != [] && (t[0] == minus || t[0] == plus) then [t[0]] else [];
  }

  lemma ExponentFrom(t: Text) returns (e: Option<Exponent>)
    requires IsExponent(t)
    ensures t == ExponentText(e) && (e.Some? ==> IsExponentOf(e.value))
  {
    if t == [] {
      e := None;
    } else {
      var sign := SignOf(t[1..]);
      var digits := Unsigned(t[1..]);
      e := Some(Exponent(t[0], sign, digits));
      Pieces(t, sign, digits);
    }
  }

  lemma Pieces(t: Text, sign: Text, digits: Text)
    requires t != [] && t[1..] == sign + digits
    ensures t == [t[0]] + sign + digits
  {
  }

  lemma PointFrom(a: nat, t: Text) returns (frac: Text, e: Option<Exponent>)
    requires AfterPoint(a, t)
    ensures t == frac + ExponentText(e) && AllDigits(frac) && a + |frac| > 0 && (e.Some? ==> IsExponentOf(e.value))
  {
    var b := Leading(t, IsDigit);
    frac := t[..b];
    e := ExponentFrom(t[b..]);
  }

  lemma DottedNumber(sign: Text, whole: Text, frac: Text, e: Option<Exponent>) returns (n: Number)
    requires IsSign(sign) && AllDigits(whole) && AllDigits(frac) && |whole| + |frac| > 0 && (e.Some? ==> IsExponentOf(e.value))
    ensures IsNumber(n) && n.sign == sign && n.whole == whole && Fraction(n) == [point] + frac && n.exponent == e
  {
    n := Number(sign, whole, true, frac, e);
  }

  lemma PlainNumber(sign: Text, whole: Text, e: Option<Exponent>) returns (n: Number)
    requires IsSign(sign) && AllDigits(whole) && whole != [] && (e.Some? ==> IsExponentOf(e.value))
    ensures IsNumber(n) && n.sign == sign && n.whole == whole && Fraction(n) == [] && n.exponent == e
  {
    n := Number(sign, whole, false, [], e);
  }

  lemma Ends(t: Text, head: Unit, frac: Text, e: Text)
    requires t != [] && t[0] == head && t[1..] == frac + e
    ensures t == [head] + frac + e
  {
  }

  /** What comes after the sign and the digits of a double makes a number of them. */
  lemma WholeFrom(sign: Text, whole: Text, t: Text) returns (n: Number)
    requires IsSign(sign) && AllDigits(whole) && AfterWhole(|whole|, t)
    ensures IsNumber(n) && n.sign == sign && n.whole == whole && t == Fraction(n) + ExponentText(n.exponent)
  {
    if t != [] && t[0] == point {
      var frac, e := PointFrom(|whole|, t[1..]);
      n := DottedNumber(sign, whole, frac, e);
      Ends(t, point, frac, ExponentText(e));
    } else {
      var e := ExponentFrom(t);
      n := PlainNumber(sign, whole, e);
      assert t == [] + t;
    }
  }

  lemma SignAndBody(t: Text, sign: Text, u: Text, a: nat, n: Number)
    requires t == sign + u && a <= |u| && n.sign == sign && n.whole == u[..a] && u[a..] == Fraction(n) + ExponentText(n.exponent)
    ensures NumberText(n) == t
  {
    assert u == u[..a] + u[a..];
  }

  /** Every text of a double is that of a number; so is every text of a long. */
  lemma DoubleFrom(t: Text) returns (n: Number)
    requires IsDouble(t)
    ensures IsNumber(n) && NumberText(n) == t
  {
    var u, a := Unsigned(t), Leading(Unsigned(t), IsDigit);
    var sign := SignOf(t);
    n := WholeFrom(sign, u[..a], u[a..]);
    SignAndBody(t, sign, u, a, n);
  }

  lemma LongFrom(t: Text) returns (n: Number)
    requires ParseLong(t).Some?
    ensures IsNumber(n) && NumberText(n) == t
  {
    var sign := SignOf(t);
    n := Number(sign, Unsigned(t), false, [], None);
    assert Unsigned(t) + ([] + []) == Unsigned(t);
  }

  lemma NumberFrom(t: Text) returns (n: Number)
    requires ParseLong(t).Some? || IsDouble(t)
    ensures IsNumber(n) && NumberText(n) == t
  {
    if ParseLong(t).Some? { n := LongFrom(t); } else { n := DoubleFrom(t); }
  }

  lemma NumberIsSpelled(t: Text) returns (n: Number)
    requires ParseNumber(t).Good?
    ensures IsNumber(n) && t == NumberText(n) + ParseNumber(t).rest && ParseNumber(t).value == NumberValue(n) && Stops(ParseNumber(t).rest)
  {
    var k := Leading(t, IsNumberChar);
    n := NumberFrom(t[..k]);
    LongIs(n);
    assert t == t[..k] + t[k..];
  }
}
