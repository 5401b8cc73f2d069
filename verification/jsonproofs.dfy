/** The printer and the parser of the Java worker undo each other. */
module JsonProofs {
  import opened Records
  import opened Json

  // ---- numbers ----

  lemma {:induction false} LeadingIs(a: Text, rest: Text, of: Unit -> bool)
    requires (forall k :: 0 <= k < |a| ==> of(a[k])) && (rest != [] ==> !of(rest[0]))
    ensures Leading(a + rest, of) == |a|
  {
    if a == [] {
      assert a + rest == rest;
    } else {
      assert (a + rest)[1..] == a[1..] + rest;
      LeadingIs(a[1..], rest, of);
    }
  }

  lemma {:induction false} NatRound(n: nat)
    ensures PrintNat(n) != [] && AllDigits(PrintNat(n)) && DigitsValue(PrintNat(n)) == n
  {
    if n >= 10 { NatRound(n / 10); }
    var p := PrintNat(n);
    assert p[..|p| - 1] == if n < 10 then [] else PrintNat(n / 10);
  }

  lemma LongRound(n: int)
    requires minLong <= n <= maxLong
    ensures ParseLong(PrintLong(n)) == Some(n)
    ensures PrintLong(n) != [] && forall k :: 0 <= k < |PrintLong(n)| ==> IsNumberChar(PrintLong(n)[k])
    ensures IsDigit(PrintLong(n)[0]) || PrintLong(n)[0] == minus
  {
    var m := if n < 0 then -n else n;
    NatRound(m);
    assert IsDigit(PrintNat(m)[0]);
    assert Unsigned(PrintLong(n)) == PrintNat(m);
  }

  /** A text at which a number ends. */
  predicate Stops(rest: Text) {
    rest != [] ==> !IsNumberChar(rest[0])
  }

  lemma NumberRound(n: int, rest: Text)
    requires minLong <= n <= maxLong && Stops(rest)
    ensures ParseNumber(PrintLong(n) + rest) == Good(JLong(n), rest)
  {
    LongRound(n);
    LeadingIs(PrintLong(n), rest, IsNumberChar);
    assert (PrintLong(n) + rest)[..|PrintLong(n)|] == PrintLong(n);
  }

  // ---- strings ----

  lemma HexDigitRound(n: nat)
    requires n < 16
    ensures HexDigit(Digit(n)) == Some(n) && Digit(n) != minus && Digit(n) != plus
  {
  }

  lemma FourDigits(t: Text, digit: Unit -> Option<nat>, a: nat, b: nat, x: nat, y: nat)
    requires |t| == 4 && digit(t[0]) == Some(a) && digit(t[1]) == Some(b) && digit(t[2]) == Some(x) && digit(t[3]) == Some(y)
    ensures HexValue(t, digit) == Some(16 * (16 * (16 * a + b) + x) + y)
  {
    assert t[..3][..2] == t[..2] && t[..2][..1] == t[..1] && t[..1][..0] == [];
    assert HexValue(t[..1], digit) == Some(a);
    assert HexValue(t[..2], digit) == Some(16 * a + b);
    assert HexValue(t[..3], digit) == Some(16 * (16 * a + b) + x);
  }

  lemma HexRound(c: Unit)
    ensures var t := [Digit(c / 0x1000), Digit(c / 0x100 % 16), Digit(c / 16 % 16), Digit(c % 16)];
            CharOf(t) == Some(c)
  {
    var a, b, x, y := c / 0x1000, c / 0x100 % 16, c / 16 % 16, c % 16;
    HexDigitRound(a);
    HexDigitRound(b);
    HexDigitRound(x);
    HexDigitRound(y);
    FourDigits([Digit(a), Digit(b), Digit(x), Digit(y)], HexDigit, a, b, x, y);
    HexParts(c);
  }

  lemma HexParts(c: Unit)
    ensures 16 * (16 * (16 * (c / 0x1000) + c / 0x100 % 16) + c / 16 % 16) + c % 16 == c
  {
    assert c / 16 / 16 == c / 0x100 && c / 0x100 / 16 == c / 0x1000;
  }

  /** The scan reads one escaped unit back as that unit. */
  lemma EscapeRound(c: Unit, rest: Text)
    ensures Escape(c) + rest != [] && NextPiece(Escape(c) + rest) == Char(c, |Escape(c)|)
  {
    var t := Escape(c) + rest;
    if c < 0x20 && c != 0x0A && c != 0x0D && c != 0x09 {
      HexRound(c);
      assert t[2..6] == Escape(c)[2..];
    }
  }

  lemma Closing(sb: Text, rest: Text)
    ensures ParseChars([quote] + rest, sb, true) == Good(sb, rest)
  {
    assert ([quote] + rest)[1..] == rest;
  }

  lemma FirstEscape(s: Text, rest: Text)
    requires s != []
    ensures EscapeAll(s) + rest == Escape(s[0]) + (EscapeAll(s[1..]) + rest)
  {
  }

  lemma OneUnit(c: Unit, sb: Text, rest: Text)
    ensures ParseChars(Escape(c) + rest, sb, true) == ParseChars(rest, sb + [c], true)
  {
    EscapeRound(c, rest);
    assert (Escape(c) + rest)[|Escape(c)|..] == rest;
  }

  lemma {:induction false} CharsRound(s: Text, sb: Text, rest: Text)
    ensures ParseChars(EscapeAll(s) + ([quote] + rest), sb, true) == Good(sb + s, rest)
    decreases |s|
  {
    if s == [] {
      Closing(sb, rest);
      assert EscapeAll(s) + ([quote] + rest) == [quote] + rest && sb + s == sb;
    } else {
      FirstEscape(s, [quote] + rest);
      OneUnit(s[0], sb, EscapeAll(s[1..]) + ([quote] + rest));
      CharsRound(s[1..], sb + [s[0]], rest);
      Shift(sb, s);
    }
  }

  lemma Shift(sb: Text, s: Text)
    requires s != []
    ensures sb + [s[0]] + s[1..] == sb + s
  {
  }

  lemma StringRound(s: Text, rest: Text)
    ensures ParseString(PrintString(s) + rest) == Good(s, rest)
  {
    assert (PrintString(s) + rest)[1..] == EscapeAll(s) + ([quote] + rest);
    CharsRound(s, [], rest);
    assert [] + s == s;
  }

  // ---- values ----

  /** A printed value starts with a character that is neither white nor a closing bracket. */
  lemma FirstUnit(d: Doc)
    requires WellFormed(d)
    ensures Print(d) != [] && !IsWhitespace(Print(d)[0]) && Print(d)[0] != closeBracket
  {
    if d.DLong? { LongRound(d.n); }
  }

  lemma NoWs(t: Text)
    requires t != [] ==> !IsWhitespace(t[0])
    ensures SkipWs(t) == t
  {
  }

  lemma WordRound(word: Text, rest: Text, v: Json)
    ensures Expect(word + rest, word, v) == Good(v, rest)
  {
    assert (word + rest)[..|word|] == word;
  }

  lemma LiteralRound(d: Doc, rest: Text)
    requires d.DNull? || d.DBool?
    ensures ParseValue(Print(d) + rest) == Good(Value(d), rest)
  {
    NoWs(Print(d) + rest);
    WordRound(Print(d), rest, Value(d));
    assert (Print(d) + rest)[0] == Print(d)[0];
  }

  lemma LongValueRound(n: int, rest: Text)
    requires minLong <= n <= maxLong && Stops(rest)
    ensures ParseValue(PrintLong(n) + rest) == Good(JLong(n), rest)
  {
    LongRound(n);
    NumberRound(n, rest);
    var t := PrintLong(n) + rest;
    assert t[0] == PrintLong(n)[0];
    NotAWord(t[0]);
    NoWs(t);
  }

  lemma NotAWord(c: Unit)
    requires IsDigit(c) || c == minus
    ensures !IsWhitespace(c) && c !in {openBrace, openBracket, quote, wordTrue[0], wordFalse[0], wordNull[0]}
  {
  }

  lemma StringValueRound(s: Text, rest: Text)
    ensures ParseValue(PrintString(s) + rest) == Good(JStr(s), rest)
  {
    assert (PrintString(s) + rest)[0] == quote;
    NoWs(PrintString(s) + rest);
    StringRound(s, rest);
  }

  /** At any position, before any text that does not go on with a number character, exactly the printed text is consumed. */
  lemma {:induction false} ValueRound(d: Doc, rest: Text)
    requires WellFormed(d) && Stops(rest)
    ensures ParseValue(Print(d) + rest) == Good(Value(d), rest)
    decreases d, 1
  {
    match d
    case DNull => LiteralRound(d, rest);
    case DBool(b) => LiteralRound(d, rest);
    case DLong(n) => LongValueRound(n, rest);
    case DStr(s) => StringValueRound(s, rest);
    case DArr(items) =>
      ArrayRound(items, rest);
      Opens(d, rest);
    case DObj(members) =>
      ObjectRound(members, rest);
      Opens(d, rest);
  }

  lemma Opens(d: Doc, rest: Text)
    requires d.DArr? || d.DObj?
    ensures var t := Print(d) + rest; ParseValue(t) == if d.DArr? then ParseArray(t) else ParseObject(t)
  {
    var t := Print(d) + rest;
    assert t[0] == if d.DArr? then openBracket else openBrace;
    NoWs(t);
  }

  lemma {:induction false} ArrayRound(items: seq<Doc>, rest: Text)
    requires forall k :: 0 <= k < |items| ==> WellFormed(items[k])
    ensures ParseArray(Print(DArr(items)) + rest) == Good(Value(DArr(items)), rest)
    decreases items, 1
  {
    var end := [closeBracket] + rest;
    var u := PrintItems(items) + end;
    assert (Print(DArr(items)) + rest)[1..] == u;
    if items == [] {
      assert u == end;
      NoWs(u);
    } else {
      FirstUnit(items[0]);
      assert u[0] == Print(items[0])[0];
      NoWs(u);
      ItemsRound(items, [], rest);
      assert [] + Values(items) == Values(items);
    }
  }

  /** One turn of the loop over items. */
  lemma ListTurn(t: Text, l: seq<Json>, v: Json, r: Text)
    requires ParseValue(t) == Good(v, r) && r != [] && !IsWhitespace(r[0])
    ensures r[0] == closeBracket ==> ParseItems(t, l) == Good(JArr(l + [v]), r[1..])
    ensures r[0] == comma ==> ParseItems(t, l) == ParseItems(r[1..], l + [v])
  {
    NoWs(r);
  }

  lemma {:induction false} ItemRound(item: Doc, l: seq<Json>, r: Text)
    requires WellFormed(item) && r != [] && r[0] in {comma, closeBracket}
    ensures ParseItems(Print(item) + r, l)
         == if r[0] == comma then ParseItems(r[1..], l + [Value(item)]) else Good(JArr(l + [Value(item)]), r[1..])
    decreases item, 2
  {
    ValueRound(item, r);
    ListTurn(Print(item) + r, l, Value(item), r);
  }

  lemma ItemAndMore(items: seq<Doc>, x: Text)
    requires |items| > 1
    ensures PrintItems(items) + x == Print(items[0]) + ([comma] + (PrintItems(items[1..]) + x))
  {
  }

  lemma MoreItems(items: seq<Doc>, l: seq<Json>)
    requires items != []
    ensures l + [Value(items[0])] + Values(items[1..]) == l + Values(items)
  {
  }

  lemma {:induction false} ItemsRound(items: seq<Doc>, l: seq<Json>, rest: Text)
    requires items != [] && forall k :: 0 <= k < |items| ==> WellFormed(items[k])
    ensures ParseItems(PrintItems(items) + ([closeBracket] + rest), l) == Good(JArr(l + Values(items)), rest)
    decreases items, 0
  {
    var end := [closeBracket] + rest;
    if |items| == 1 {
      ItemRound(items[0], l, end);
      assert PrintItems(items) == Print(items[0]) && Values(items) == [Value(items[0])];
    } else {
      ItemRound(items[0], l, [comma] + (PrintItems(items[1..]) + end));
      ItemAndMore(items, end);
      ItemsRound(items[1..], l + [Value(items[0])], rest);
      MoreItems(items, l);
    }
  }

  lemma {:induction false} ObjectRound(members: seq<Member>, rest: Text)
    requires forall k :: 0 <= k < |members| ==> WellFormed(members[k].value)
    ensures ParseObject(Print(DObj(members)) + rest) == Good(Value(DObj(members)), rest)
    decreases members, 2
  {
    var t := Print(DObj(members)) + rest;
    var u := PrintMembers(members) + [closeBrace] + rest;
    assert t[1..] == u;
    if members == [] {
      assert u == [closeBrace] + rest;
      NoWs(u);
    } else {
      FirstMember(members, [closeBrace] + rest);
      assert u == PrintMembers(members) + ([closeBrace] + rest);
      NoWs(u);
      MembersRound(members, map[], rest);
    }
  }

  lemma KeyRound(key: Text, rest: Text)
    ensures ParseKey(PrintString(key) + ([colon] + rest)) == Good(key, rest)
  {
    var t := PrintString(key) + ([colon] + rest);
    assert t[0] == quote;
    NoWs(t);
    StringRound(key, [colon] + rest);
    NoWs([colon] + rest);
    assert ([colon] + rest)[1..] == rest;
  }

  lemma Entry(key: Text, value: Text, rest: Text)
    ensures key + [colon] + value + rest == key + ([colon] + (value + rest))
  {
  }

  lemma {:induction false} MemberRound(m: Member, rest: Text)
    requires WellFormed(m.value) && Stops(rest)
    ensures ParseMember(PrintMember(m) + rest) == Good((m.key, Value(m.value)), rest)
    decreases m, 0
  {
    Entry(PrintString(m.key), Print(m.value), rest);
    KeyRound(m.key, Print(m.value) + rest);
    ValueRound(m.value, rest);
  }

  lemma Regroup(a: Text, b: Text, rest: Text)
    ensures a + ([comma] + b) + rest == a + ([comma] + (b + rest))
    ensures a + [] + rest == a + rest
  {
  }

  lemma FirstMember(members: seq<Member>, rest: Text)
    requires members != []
    ensures PrintMembers(members) + rest
         == PrintMember(members[0]) + (if |members| == 1 then rest else [comma] + (PrintMembers(members[1..]) + rest))
    ensures (PrintMembers(members) + rest)[0] == quote
  {
    Regroup(PrintMember(members[0]), PrintMembers(members[1..]), rest);
    StartsQuoted(members[0]);
  }

  lemma StartsQuoted(m: Member)
    ensures PrintMember(m)[0] == quote
  {
    assert PrintString(m.key)[0] == quote;
  }

  lemma {:induction false} MembersRound(members: seq<Member>, m: map<Text, Json>, rest: Text)
    requires members != [] && forall k :: 0 <= k < |members| ==> WellFormed(members[k].value)
    ensures ParseMembers(PrintMembers(members) + ([closeBrace] + rest), m) == Good(JObj(Enter(m, members)), rest)
    decreases members, 1
  {
    var v, end := Value(members[0].value), [closeBrace] + rest;
    FirstMember(members, end);
    if |members| == 1 {
      MemberRound(members[0], end);
      NoWs(end);
      assert Enter(m, members) == m[members[0].key := v];
    } else {
      var after := [comma] + (PrintMembers(members[1..]) + end);
      MemberRound(members[0], after);
      NoWs(after);
      assert after[1..] == PrintMembers(members[1..]) + end;
      MembersRound(members[1..], m[members[0].key := v], rest);
    }
  }

  /** What `parseJson` gives back for a printed map. */
  lemma RoundTrip(d: Doc)
    requires WellFormed(d) && d.DObj?
    ensures ParseText(Print(d)) == Parsed(Value(d).o)
  {
    ValueRound(d, []);
    assert Print(d) + [] == Print(d);
  }

  /** Nothing may follow the object, not even white space. */
  lemma NothingMayFollow(d: Doc, rest: Text)
    requires WellFormed(d) && d.DObj? && rest != []
    ensures ParseText(Print(d) + rest) == Null
  {
    ObjectRound(d.members, rest);
    assert (Print(d) + rest)[0] == openBrace;
    NoWs(Print(d) + rest);
  }

  /** White space before a value is skipped. */
  lemma {:induction false} WhitespaceBefore(white: Text, t: Text)
    requires forall k :: 0 <= k < |white| ==> IsWhitespace(white[k])
    ensures ParseValue(white + t) == ParseValue(t)
    decreases |white|
  {
    SkipAll(white, t);
  }

  lemma {:induction false} SkipAll(white: Text, t: Text)
    requires forall k :: 0 <= k < |white| ==> IsWhitespace(white[k])
    ensures SkipWs(white + t) == SkipWs(t)
    decreases |white|
  {
    if white == [] {
      assert white + t == t;
    } else {
      assert (white + t)[1..] == white[1..] + t;
      SkipAll(white[1..], t);
    }
  }

  /** Two values that print alike are equal, whatever the order of their maps. */
  lemma PrintIsInjective(c: Doc, d: Doc)
    requires WellFormed(c) && WellFormed(d) && Print(c) == Print(d)
    ensures Value(c) == Value(d)
  {
    ValueRound(c, []);
    ValueRound(d, []);
    assert Print(c) + [] == Print(c);
  }

  /** Keys that no member has are left alone. */
  lemma {:induction false} EnterKeeps(m: map<Text, Json>, members: seq<Member>, key: Text)
    requires forall k :: 0 <= k < |members| ==> members[k].key != key
    ensures var r := Enter(m, members); (key in r <==> key in m) && (key in r ==> r[key] == m[key])
    decreases |members|
  {
    if members != [] { EnterKeeps(m[members[0].key := Value(members[0].value)], members[1..], key); }
  }

  /** A document of distinct keys stands for the map of its members. */
  lemma {:induction false} EnterHas(m: map<Text, Json>, members: seq<Member>, k: nat)
    requires k < |members| && forall i, j :: 0 <= i < j < |members| ==> members[i].key != members[j].key
    ensures var r := Enter(m, members); members[k].key in r && r[members[k].key] == Value(members[k].value)
    decreases |members|
  {
    var m' := m[members[0].key := Value(members[0].value)];
    if k == 0 { EnterKeeps(m', members[1..], members[0].key); } else { EnterHas(m', members[1..], k - 1); }
  }
}
