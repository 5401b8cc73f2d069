/** The parser takes exactly the texts of the grammar, and gives for each the value it spells. */
module ParserProofs {
  import opened Records
  import opened Json
  import opened JsonProofs
  import opened Spellings
  import opened Tokens

  // ---- every text of the grammar is taken ----

  lemma FirstOf(c: Syntax)
    requires Taken(c)
    ensures TextOf(c) != [] && !IsWhitespace(TextOf(c)[0]) && TextOf(c)[0] != closeBracket
  {
    if c.SNumber? { BodyStarts(c.n); }
  }

  /** What comes after a value, white space and then a delimiter, ends a number. */
  lemma Delimits(after: Text, x: Text)
    requires White(after) && x != [] && x[0] in {comma, colon, closeBracket, closeBrace}
    ensures Stops(after + x) && SkipWs(after + x) == x
  {
    SkipAll(after, x);
    NoWs(x);
    if after != [] { assert IsWhitespace(after[0]); }
  }

  lemma SkipValue(white: Text, t: Text)
    requires White(white)
    ensures ParseValue(white + t) == ParseValue(t)
  {
    WhitespaceBefore(white, t);
  }

  lemma NoOther(c: Unit)
    requires IsDigit(c) || c == minus || c == plus || c == point
    ensures !IsWhitespace(c) && c !in {openBrace, openBracket, quote, wordTrue[0], wordFalse[0], wordNull[0]}
  {
  }

  lemma ReadsNumber(t: Text)
    requires t != [] && !IsWhitespace(t[0]) && t[0] !in {openBrace, openBracket, quote, wordTrue[0], wordFalse[0], wordNull[0]}
    ensures ParseValue(t) == ParseNumber(t)
  {
    NoWs(t);
  }

  lemma NumberStarts(n: Number, rest: Text)
    requires IsNumber(n)
    ensures var t := NumberText(n) + rest; t != [] && (IsDigit(t[0]) || t[0] == minus || t[0] == plus || t[0] == point)
  {
    BodyStarts(n);
    assert (NumberText(n) + rest)[0] == NumberText(n)[0];
  }

  lemma NumberValueTaken(n: Number, rest: Text)
    requires IsNumber(n) && Stops(rest)
    ensures ParseValue(NumberText(n) + rest) == Good(NumberValue(n), rest)
  {
    NumberStarts(n, rest);
    NoOther((NumberText(n) + rest)[0]);
    ReadsNumber(NumberText(n) + rest);
    NumberTaken(n, rest);
  }

  lemma StringValueTaken(s: seq<Spelt>, rest: Text)
    requires AreSpelt(s)
    ensures ParseValue(Quoted(s) + rest) == Good(JStr(Units(s)), rest)
  {
    assert (Quoted(s) + rest)[0] == quote;
    NoWs(Quoted(s) + rest);
    StringTaken(s, rest);
  }

  lemma WordTaken(c: Syntax, rest: Text)
    requires c.SNull? || c.SBool?
    ensures ParseValue(TextOf(c) + rest) == Good(ValueOf(c), rest)
  {
    var d := if c.SNull? then DNull else DBool(c.b);
    LiteralRound(d, rest);
  }

  /** Before anything that does not go on with a number character, the parser takes exactly the text of a value. */
  lemma {:induction false} ValueTaken(c: Syntax, rest: Text)
    requires Taken(c) && (c.SNumber? ==> Stops(rest))
    ensures ParseValue(TextOf(c) + rest) == Good(ValueOf(c), rest)
    decreases c, 1
  {
    match c
    case SNull => WordTaken(c, rest);
    case SBool(_) => WordTaken(c, rest);
    case SNumber(n) => NumberValueTaken(n, rest);
    case SString(s) => StringValueTaken(s, rest);
    case SArray(items, blank) => ArrayTaken(c, rest);
    case SObject(pairs, blank) => ObjectTaken(c, rest);
  }

  lemma ItemParts(i: Item, x: Text)
    ensures ItemText(i) + x == i.before + (TextOf(i.value) + (i.after + x))
  {
    Reassociate(TextOf(i.value), i.after, x);
    Reassociate(i.before, TextOf(i.value) + i.after, x);
  }

  lemma {:induction false} ItemTaken(i: Item, x: Text)
    requires White(i.before) && White(i.after) && Taken(i.value) && x != [] && x[0] in {comma, closeBracket}
    ensures ParseValue(ItemText(i) + x) == Good(ValueOf(i.value), i.after + x) && SkipWs(i.after + x) == x
    decreases i, 2
  {
    Delimits(i.after, x);
    ValueTaken(i.value, i.after + x);
    ItemParts(i, x);
    SkipValue(i.before, TextOf(i.value) + (i.after + x));
  }

  lemma ItemsNext(items: seq<Item>, x: Text)
    requires |items| > 1
    ensures ItemsText(items) + x == ItemText(items[0]) + ([comma] + (ItemsText(items[1..]) + x))
  {
  }

  /** One turn of the loop over items, on a text with the item and what follows it. */
  lemma ItemTurn(t: Text, l: seq<Json>, v: Json, r: Text, w: Text)
    requires ParseValue(t) == Good(v, r) && SkipWs(r) == w && w != []
    ensures w[0] == closeBracket ==> ParseItems(t, l) == Good(JArr(l + [v]), w[1..])
    ensures w[0] == comma ==> ParseItems(t, l) == ParseItems(w[1..], l + [v])
  {
  }

  /** An item, and what follows it: the end of the list, or the rest of it. */
  lemma {:induction false} ItemFirst(i: Item, l: seq<Json>, x: Text)
    requires White(i.before) && White(i.after) && Taken(i.value) && x != [] && x[0] in {comma, closeBracket}
    ensures ParseItems(ItemText(i) + x, l)
         == if x[0] == comma then ParseItems(x[1..], l + [ValueOf(i.value)]) else Good(JArr(l + [ValueOf(i.value)]), x[1..])
    decreases i, 3
  {
    ItemTaken(i, x);
    ItemTurn(ItemText(i) + x, l, ValueOf(i.value), i.after + x, x);
  }

  lemma {:induction false} ItemsTaken(items: seq<Item>, l: seq<Json>, rest: Text)
    requires items != []
    requires forall k :: 0 <= k < |items| ==> White(items[k].before) && White(items[k].after) && Taken(items[k].value)
    ensures ParseItems(ItemsText(items) + ([closeBracket] + rest), l) == Good(JArr(l + ItemValues(items)), rest)
    decreases items, 3
  {
    var end, v := [closeBracket] + rest, ValueOf(items[0].value);
    if |items| == 1 {
      ItemFirst(items[0], l, end);
      assert ItemsText(items) == ItemText(items[0]) && ItemValues(items) == [v];
    } else {
      ItemFirst(items[0], l, [comma] + (ItemsText(items[1..]) + end));
      ItemsNext(items, end);
      ItemsTaken(items[1..], l + [v], rest);
      MoreValues(l, v, items);
    }
  }

  lemma MoreValues(l: seq<Json>, v: Json, items: seq<Item>)
    requires items != [] && (forall k :: 0 <= k < |items| ==> Taken(items[k].value)) && v == ValueOf(items[0].value)
    ensures l + [v] + ItemValues(items[1..]) == l + ItemValues(items)
  {
  }

  /** White space at the start of a list of items is skipped. */
  lemma ItemsSkip(t: Text, l: seq<Json>)
    ensures ParseItems(SkipWs(t), l) == ParseItems(t, l)
  {
    NoWs(SkipWs(t));
  }

  lemma ArrayOpens(t: Text, u: Text)
    requires t == [openBracket] + u
    ensures ParseValue(t) == ParseArray(t)
    ensures ParseArray(t) == if SkipWs(u) != [] && SkipWs(u)[0] == closeBracket then Good(JArr([]), SkipWs(u)[1..]) else ParseItems(u, [])
  {
    NoWs(t);
    assert t[1..] == u;
    ItemsSkip(u, []);
  }

  lemma ItemsStart(items: seq<Item>, x: Text)
    requires items != [] && White(items[0].before) && Taken(items[0].value)
    ensures SkipWs(ItemsText(items) + x) != [] && SkipWs(ItemsText(items) + x)[0] != closeBracket
  {
    var i := items[0];
    var more := if |items| == 1 then [] else [comma] + ItemsText(items[1..]);
    assert ItemsText(items) + x == i.before + (TextOf(i.value) + (i.after + more + x));
    SkipAll(i.before, TextOf(i.value) + (i.after + more + x));
    FirstOf(i.value);
    NoWs(TextOf(i.value) + (i.after + more + x));
  }

  lemma {:induction false} ArrayTaken(c: Syntax, rest: Text)
    requires Taken(c) && c.SArray?
    ensures ParseValue(TextOf(c) + rest) == Good(ValueOf(c), rest)
    decreases c, 0
  {
    var end := [closeBracket] + rest;
    var u := (if c.items == [] then c.blank else ItemsText(c.items)) + end;
    assert TextOf(c) + rest == [openBracket] + u;
    ArrayOpens(TextOf(c) + rest, u);
    if c.items == [] {
      Delimits(c.blank, end);
    } else {
      ItemsStart(c.items, end);
      ItemsTaken(c.items, [], rest);
      assert [] + ItemValues(c.items) == ItemValues(c.items);
    }
  }

  lemma KeyTaken(p: Pair, y: Text)
    requires PairWhite(p) && AreSpelt(p.key)
    ensures ParseKey(p.before + (Quoted(p.key) + (p.middle + ([colon] + y)))) == Good(Units(p.key), y)
  {
    var after := p.middle + ([colon] + y);
    SkipAll(p.before, Quoted(p.key) + after);
    assert (Quoted(p.key) + after)[0] == quote;
    NoWs(Quoted(p.key) + after);
    StringTaken(p.key, after);
    Delimits(p.middle, [colon] + y);
  }

  lemma PairParts(p: Pair, x: Text)
    ensures PairText(p) + x == p.before + (Quoted(p.key) + (p.middle + ([colon] + (p.between + (TextOf(p.value) + (p.after + x))))))
  {
    var v := TextOf(p.value) + p.after;
    assert p.between + v + x == p.between + (TextOf(p.value) + (p.after + x));
    assert p.middle + ([colon] + (p.between + v)) + x == p.middle + ([colon] + (p.between + v + x));
  }

  lemma {:induction false} PairTaken(p: Pair, x: Text)
    requires PairWhite(p) && AreSpelt(p.key) && Taken(p.value) && x != [] && x[0] in {comma, closeBrace}
    ensures ParseMember(PairText(p) + x) == Good((Units(p.key), ValueOf(p.value)), p.after + x) && SkipWs(p.after + x) == x
    decreases p, 2
  {
    var y := p.between + (TextOf(p.value) + (p.after + x));
    PairParts(p, x);
    KeyTaken(p, y);
    Delimits(p.after, x);
    ValueTaken(p.value, p.after + x);
    SkipValue(p.between, TextOf(p.value) + (p.after + x));
  }

  lemma MemberTurn(t: Text, m: map<Text, Json>, key: Text, v: Json, r: Text, w: Text)
    requires ParseMember(t) == Good((key, v), r) && SkipWs(r) == w && w != []
    ensures w[0] == closeBrace ==> ParseMembers(t, m) == Good(JObj(m[key := v]), w[1..])
    ensures w[0] == comma ==> ParseMembers(t, m) == ParseMembers(w[1..], m[key := v])
  {
  }

  lemma PairsNext(pairs: seq<Pair>, x: Text)
    requires |pairs| > 1
    ensures PairsText(pairs) + x == PairText(pairs[0]) + ([comma] + (PairsText(pairs[1..]) + x))
  {
  }

  /** A member, and what follows it. */
  lemma {:induction false} PairFirst(p: Pair, m: map<Text, Json>, x: Text)
    requires PairWhite(p) && AreSpelt(p.key) && Taken(p.value) && x != [] && x[0] in {comma, closeBrace}
    ensures var m' := m[Units(p.key) := ValueOf(p.value)];
            ParseMembers(PairText(p) + x, m) == if x[0] == comma then ParseMembers(x[1..], m') else Good(JObj(m'), x[1..])
    decreases p, 3
  {
    PairTaken(p, x);
    MemberTurn(PairText(p) + x, m, Units(p.key), ValueOf(p.value), p.after + x, x);
  }

  lemma {:induction false} PairsTaken(pairs: seq<Pair>, m: map<Text, Json>, rest: Text)
    requires pairs != []
    requires forall k :: 0 <= k < |pairs| ==> PairWhite(pairs[k]) && AreSpelt(pairs[k].key) && Taken(pairs[k].value)
    ensures ParseMembers(PairsText(pairs) + ([closeBrace] + rest), m) == Good(JObj(PutAll(m, pairs)), rest)
    decreases pairs, 3
  {
    var end, m' := [closeBrace] + rest, m[Units(pairs[0].key) := ValueOf(pairs[0].value)];
    if |pairs| == 1 {
      PairFirst(pairs[0], m, end);
      assert PairsText(pairs) == PairText(pairs[0]) && PutAll(m, pairs) == m';
    } else {
      PairFirst(pairs[0], m, [comma] + (PairsText(pairs[1..]) + end));
      PairsNext(pairs, end);
      PairsTaken(pairs[1..], m', rest);
    }
  }

  lemma MembersSkip(t: Text, m: map<Text, Json>)
    ensures ParseMembers(SkipWs(t), m) == ParseMembers(t, m)
  {
    NoWs(SkipWs(t));
  }

  lemma ObjectOpens(t: Text, u: Text)
    requires t == [openBrace] + u
    ensures ParseValue(t) == ParseObject(t)
    ensures ParseObject(t) == if SkipWs(u) != [] && SkipWs(u)[0] == closeBrace then Good(JObj(map[]), SkipWs(u)[1..]) else ParseMembers(u, map[])
  {
    NoWs(t);
    assert t[1..] == u;
    MembersSkip(u, map[]);
  }

  lemma PairsStart(pairs: seq<Pair>, x: Text)
    requires pairs != [] && White(pairs[0].before)
    ensures SkipWs(PairsText(pairs) + x) != [] && SkipWs(PairsText(pairs) + x)[0] == quote
  {
    var p := pairs[0];
    var more := if |pairs| == 1 then [] else [comma] + PairsText(pairs[1..]);
    var after := p.middle + ([colon] + (p.between + (TextOf(p.value) + (p.after + (more + x)))));
    PairParts(p, more + x);
    assert PairsText(pairs) + x == PairText(p) + (more + x);
    SkipAll(p.before, Quoted(p.key) + after);
    assert (Quoted(p.key) + after)[0] == quote;
    NoWs(Quoted(p.key) + after);
  }

  lemma {:induction false} ObjectTaken(c: Syntax, rest: Text)
    requires Taken(c) && c.SObject?
    ensures ParseValue(TextOf(c) + rest) == Good(ValueOf(c), rest)
    decreases c, 0
  {
    var end := [closeBrace] + rest;
    var u := (if c.pairs == [] then c.blank else PairsText(c.pairs)) + end;
    assert TextOf(c) + rest == [openBrace] + u;
    ObjectOpens(TextOf(c) + rest, u);
    if c.pairs == [] {
      Delimits(c.blank, end);
    } else {
      PairsStart(c.pairs, end);
      PairsTaken(c.pairs, map[], rest);
    }
  }

  // ---- nothing else is taken ----

  lemma {:induction false} WhiteBefore(t: Text) returns (white: Text)
    ensures White(white) && t == white + SkipWs(t)
    decreases |t|
  {
    if t != [] && IsWhitespace(t[0]) {
      var more := WhiteBefore(t[1..]);
      white := [t[0]] + more;
      Reassociate([t[0]], more, SkipWs(t));
      assert t == [t[0]] + t[1..];
    } else {
      white := [];
    }
  }

  /** A text starts with white space and a value. */
  predicate StartsWith(t: Text, white: Text, c: Syntax, v: Json, rest: Text) {
    White(white) && Taken(c) && t == white + (TextOf(c) + rest) && ValueOf(c) == v && (c.SNumber? ==> Stops(rest))
  }

  lemma WordIsSpelled(t: Text, word: Text, c: Syntax)
    requires (c.SNull? || c.SBool?) && word == TextOf(c) && Expect(t, word, ValueOf(c)).Good?
    ensures t == TextOf(c) + Expect(t, word, ValueOf(c)).rest
  {
    assert t == t[..|word|] + t[|word|..];
  }

  /** Whatever the parser takes for a value is the text of that value in the grammar. */
  lemma {:induction false} ValueIsSpelled(t: Text) returns (white: Text, c: Syntax)
    requires ParseValue(t).Good?
    ensures StartsWith(t, white, c, ParseValue(t).value, ParseValue(t).rest)
    decreases |t|, 2
  {
    white := WhiteBefore(t);
    var u := SkipWs(t);
    if u[0] == openBrace {
      c := ObjectIsSpelled(u);
    } else if u[0] == openBracket {
      c := ArrayIsSpelled(u);
    } else if u[0] == quote {
      var s := StringIsSpelled(u);
      c := SString(s);
    } else if u[0] == wordTrue[0] {
      c := SBool(true);
      WordIsSpelled(u, wordTrue, c);
    } else if u[0] == wordFalse[0] {
      c := SBool(false);
      WordIsSpelled(u, wordFalse, c);
    } else if u[0] == wordNull[0] {
      c := SNull;
      WordIsSpelled(u, wordNull, c);
    } else {
      var n := NumberIsSpelled(u);
      c := SNumber(n);
    }
  }

  lemma Enclosed(t: Text, open: Unit, inner: Text, close: Unit, rest: Text)
    requires t != [] && t[0] == open && t[1..] == inner + ([close] + rest)
    ensures t == [open] + (inner + [close]) + rest
  {
    assert t == [open] + t[1..];
    assert inner + ([close] + rest) == inner + [close] + rest;
  }

  lemma EmptyArray(t: Text, u: Text) returns (c: Syntax)
    requires t != [] && t[0] == openBracket && SkipWs(t[1..]) == u && u != [] && u[0] == closeBracket
    ensures Taken(c) && c.SArray? && t == TextOf(c) + u[1..] && ValueOf(c) == JArr([])
  {
    var blank := WhiteBefore(t[1..]);
    c := SArray([], blank);
    Closes(u, closeBracket);
    Enclosed(t, openBracket, blank, closeBracket, u[1..]);
  }

  lemma Closes(u: Text, close: Unit)
    requires u != [] && u[0] == close
    ensures u == [close] + u[1..]
  {
  }

  lemma FullArray(t: Text, items: seq<Item>, rest: Text) returns (c: Syntax)
    requires t != [] && t[0] == openBracket && items != [] && ItemsOk(items) && t[1..] == ItemsText(items) + ([closeBracket] + rest)
    ensures Taken(c) && c.SArray? && t == TextOf(c) + rest && ValueOf(c) == JArr(ItemValues(items))
  {
    c := SArray(items, []);
    Enclosed(t, openBracket, ItemsText(items), closeBracket, rest);
  }

  lemma {:induction false} ArrayIsSpelled(t: Text) returns (c: Syntax)
    requires t != [] && t[0] == openBracket && ParseArray(t).Good?
    ensures Taken(c) && c.SArray? && t == TextOf(c) + ParseArray(t).rest && ValueOf(c) == ParseArray(t).value
    decreases |t|, 1
  {
    ArrayOpens(t, t[1..]);
    if SkipWs(t[1..]) != [] && SkipWs(t[1..])[0] == closeBracket {
      c := EmptyArray(t, SkipWs(t[1..]));
    } else {
      var items := ItemsAreSpelled(t[1..], []);
      c := FullArray(t, items, ParseArray(t).rest);
      assert [] + ItemValues(items) == ItemValues(items);
    }
  }

  predicate ItemsOk(items: seq<Item>) {
    forall k :: 0 <= k < |items| ==> White(items[k].before) && White(items[k].after) && Taken(items[k].value)
  }

  /** A turn of the loop that does not fail: a value, and then the end or a comma. */
  lemma GoodTurn(t: Text, l: seq<Json>)
    requires ParseItems(t, l).Good?
    ensures ParseValue(t).Good?
    ensures var w := SkipWs(ParseValue(t).rest);
            && w != [] && (w[0] == closeBracket || w[0] == comma) && |w| <= |t|
            && (w[0] == closeBracket ==> ParseItems(t, l) == Good(JArr(l + [ParseValue(t).value]), w[1..]))
            && (w[0] == comma ==> ParseItems(t, l) == ParseItems(w[1..], l + [ParseValue(t).value]))
  {
  }

  lemma {:induction false} ItemIsSpelled(t: Text) returns (i: Item)
    requires ParseValue(t).Good?
    ensures White(i.before) && White(i.after) && Taken(i.value) && ValueOf(i.value) == ParseValue(t).value
    ensures t == ItemText(i) + SkipWs(ParseValue(t).rest)
    decreases |t|, 3
  {
    var before, c := ValueIsSpelled(t);
    var after := WhiteBefore(ParseValue(t).rest);
    i := Item(before, c, after);
    ItemParts(i, SkipWs(ParseValue(t).rest));
  }

  lemma {:induction false} ItemsAreSpelled(t: Text, l: seq<Json>) returns (items: seq<Item>)
    requires ParseItems(t, l).Good?
    ensures items != [] && ItemsOk(items) && t == ItemsText(items) + ([closeBracket] + ParseItems(t, l).rest)
    ensures ParseItems(t, l).value == JArr(l + ItemValues(items))
    decreases |t|, 4
  {
    GoodTurn(t, l);
    var i := ItemIsSpelled(t);
    var w := SkipWs(ParseValue(t).rest);
    if w[0] == closeBracket {
      items := [i];
      Closes(w, closeBracket);
      assert ItemsText(items) == ItemText(i) && ItemValues(items) == [ValueOf(i.value)];
    } else {
      var more := ItemsAreSpelled(w[1..], l + [ValueOf(i.value)]);
      items := [i] + more;
      ItemsGrow(t, items, more, w, [closeBracket] + ParseItems(t, l).rest);
      MoreValues(l, ValueOf(i.value), items);
    }
  }

  lemma ItemsGrow(t: Text, items: seq<Item>, more: seq<Item>, w: Text, end: Text)
    requires more != [] && items != [] && items == [items[0]] + more
    requires t == ItemText(items[0]) + w && w != [] && w[0] == comma && w[1..] == ItemsText(more) + end
    ensures t == ItemsText(items) + end && items[1..] == more
  {
    assert items[1..] == more;
    ItemsNext(items, end);
    assert w == [comma] + w[1..];
  }

  lemma EmptyObject(t: Text, u: Text) returns (c: Syntax)
    requires t != [] && t[0] == openBrace && SkipWs(t[1..]) == u && u != [] && u[0] == closeBrace
    ensures Taken(c) && c.SObject? && t == TextOf(c) + u[1..] && ValueOf(c) == JObj(map[])
  {
    var blank := WhiteBefore(t[1..]);
    c := SObject([], blank);
    Closes(u, closeBrace);
    Enclosed(t, openBrace, blank, closeBrace, u[1..]);
  }

  lemma FullObject(t: Text, pairs: seq<Pair>, rest: Text) returns (c: Syntax)
    requires t != [] && t[0] == openBrace && pairs != [] && PairsOk(pairs) && t[1..] == PairsText(pairs) + ([closeBrace] + rest)
    ensures Taken(c) && c.SObject? && t == TextOf(c) + rest && ValueOf(c) == JObj(PutAll(map[], pairs))
  {
    c := SObject(pairs, []);
    Enclosed(t, openBrace, PairsText(pairs), closeBrace, rest);
  }

  lemma {:induction false} ObjectIsSpelled(t: Text) returns (c: Syntax)
    requires t != [] && t[0] == openBrace && ParseObject(t).Good?
    ensures Taken(c) && c.SObject? && t == TextOf(c) + ParseObject(t).rest && ValueOf(c) == ParseObject(t).value
    decreases |t|, 1
  {
    ObjectOpens(t, t[1..]);
    if SkipWs(t[1..]) != [] && SkipWs(t[1..])[0] == closeBrace {
      c := EmptyObject(t, SkipWs(t[1..]));
    } else {
      var pairs := PairsAreSpelled(t[1..], map[]);
      c := FullObject(t, pairs, ParseObject(t).rest);
    }
  }

  predicate PairsOk(pairs: seq<Pair>) {
    forall k :: 0 <= k < |pairs| ==> PairWhite(pairs[k]) && AreSpelt(pairs[k].key) && Taken(pairs[k].value)
  }

  lemma KeyIsSpelled(t: Text) returns (before: Text, key: seq<Spelt>, middle: Text)
    requires ParseKey(t).Good?
    ensures White(before) && AreSpelt(key) && White(middle) && Units(key) == ParseKey(t).value
    ensures t == before + (Quoted(key) + (middle + ([colon] + ParseKey(t).rest)))
  {
    before := WhiteBefore(t);
    var u := SkipWs(t);
    key := StringIsSpelled(u);
    var r := ParseString(u).rest;
    middle := WhiteBefore(r);
    assert SkipWs(r) == [colon] + ParseKey(t).rest;
  }

  lemma {:induction false} PairIsSpelled(t: Text) returns (p: Pair)
    requires ParseMember(t).Good?
    ensures var kv, r := ParseMember(t).value, ParseMember(t).rest;
            && PairWhite(p) && AreSpelt(p.key) && Taken(p.value) && kv == (Units(p.key), ValueOf(p.value))
            && t == PairText(p) + SkipWs(r)
    decreases |t|, 3
  {
    var before, key, middle := KeyIsSpelled(t);
    var y := ParseKey(t).rest;
    var between, c := ValueIsSpelled(y);
    var after := WhiteBefore(ParseValue(y).rest);
    p := Pair(before, key, middle, between, c, after);
    PairParts(p, SkipWs(ParseValue(y).rest));
  }

  lemma GoodMember(t: Text, m: map<Text, Json>)
    requires ParseMembers(t, m).Good?
    ensures ParseMember(t).Good?
    ensures var w, kv := SkipWs(ParseMember(t).rest), ParseMember(t).value;
            && w != [] && (w[0] == closeBrace || w[0] == comma) && |w| <= |t|
            && (w[0] == closeBrace ==> ParseMembers(t, m) == Good(JObj(m[kv.0 := kv.1]), w[1..]))
            && (w[0] == comma ==> ParseMembers(t, m) == ParseMembers(w[1..], m[kv.0 := kv.1]))
  {
  }

  lemma {:induction false} PairsAreSpelled(t: Text, m: map<Text, Json>) returns (pairs: seq<Pair>)
    requires ParseMembers(t, m).Good?
    ensures pairs != [] && PairsOk(pairs) && t == PairsText(pairs) + ([closeBrace] + ParseMembers(t, m).rest)
    ensures ParseMembers(t, m).value == JObj(PutAll(m, pairs))
    decreases |t|, 4
  {
    GoodMember(t, m);
    var p := PairIsSpelled(t);
    var w := SkipWs(ParseMember(t).rest);
    var m' := m[Units(p.key) := ValueOf(p.value)];
    if w[0] == closeBrace {
      pairs := [p];
      Closes(w, closeBrace);
      assert PairsText(pairs) == PairText(p) && PutAll(m, pairs) == m';
    } else {
      var more := PairsAreSpelled(w[1..], m');
      pairs := [p] + more;
      PairsGrow(t, pairs, more, w, [closeBrace] + ParseMembers(t, m).rest);
    }
  }

  lemma PairsGrow(t: Text, pairs: seq<Pair>, more: seq<Pair>, w: Text, end: Text)
    requires more != [] && pairs != [] && pairs == [pairs[0]] + more
    requires t == PairText(pairs[0]) + w && w != [] && w[0] == comma && w[1..] == PairsText(more) + end
    ensures t == PairsText(pairs) + end && pairs[1..] == more
  {
    assert pairs[1..] == more;
    PairsNext(pairs, end);
    assert w == [comma] + w[1..];
  }

  // ---- exactly ----

  /** An object in the grammar, after white space. */
  ghost predicate Spells(t: Text, o: map<Text, Json>) {
    exists white, c :: White(white) && Taken(c) && c.SObject? && t == white + TextOf(c) && ValueOf(c) == JObj(o)
  }

  /** A text of the standard for an object, after white space. */
  ghost predicate JsonSpells(t: Text, o: map<Text, Json>) {
    exists white, c :: JsonWhite(white) && IsJson(c) && Taken(c) && c.SObject? && t == white + TextOf(c) && ValueOf(c) == JObj(o)
  }

  /** The worker gets a map from a text if and only if the text spells it in the grammar. */
  lemma ParsesIffSpelled(t: Text, o: map<Text, Json>)
    ensures ParseText(t) == Parsed(o) <==> Spells(t, o)
  {
    if ParseText(t) == Parsed(o) {
      var white, c := ValueIsSpelled(t);
      assert t == white + TextOf(c) by { assert TextOf(c) + [] == TextOf(c); }
    }
    if white, c :| White(white) && Taken(c) && c.SObject? && t == white + TextOf(c) && ValueOf(c) == JObj(o) {
      ValueTaken(c, []);
      assert TextOf(c) + [] == TextOf(c);
      SkipValue(white, TextOf(c));
    }
  }

  /** Every RFC 8259 spelling of an object, with any white space before it and around its tokens, gives that object. */
  lemma EveryJsonIsParsed(t: Text, o: map<Text, Json>)
    requires JsonSpells(t, o)
    ensures ParseText(t) == Parsed(o)
  {
    var white, c :| JsonWhite(white) && IsJson(c) && Taken(c) && c.SObject? && t == white + TextOf(c) && ValueOf(c) == JObj(o);
    JsonWhiteIs(white);
    ParsesIffSpelled(t, o);
  }

  // ---- what the printer writes is JSON ----

  function SpeltOf(s: Text): seq<Spelt> {
    if s == [] then [] else [Spelt(Escape(s[0]), s[0])] + SpeltOf(s[1..])
  }

  function NumberOf(n: int): Number {
    Number(if n < 0 then [minus] else [], PrintNat(if n < 0 then -n else n), false, [], None)
  }

  /** The syntax tree of a printed value: no white space anywhere. */
  function SyntaxOf(d: Doc): Syntax
    decreases d
  {
    match d
    case DNull => SNull
    case DBool(b) => SBool(b)
    case DLong(n) => SNumber(NumberOf(n))
    case DStr(s) => SString(SpeltOf(s))
    case DArr(items) => SArray(ItemsOf(items), [])
    case DObj(members) => SObject(PairsOf(members), [])
  }

  function ItemsOf(items: seq<Doc>): (r: seq<Item>)
    ensures |r| == |items|
    decreases items
  {
    if items == [] then [] else [Item([], SyntaxOf(items[0]), [])] + ItemsOf(items[1..])
  }

  function PairsOf(members: seq<Member>): (r: seq<Pair>)
    ensures |r| == |members|
    decreases members
  {
    if members == [] then []
    else [Pair([], SpeltOf(members[0].key), [], [], SyntaxOf(members[0].value), [])] + PairsOf(members[1..])
  }

  /** The text of an escape is a spelling of the standard, as short as can be, with small letters in hex digits. */
  lemma EscapeIsJson(c: Unit)
    ensures JsonSpelt(Spelt(Escape(c), c))
    ensures |Escape(c)| == if c >= 0x20 && c != 0x22 && c != 0x5C then 1 else if c in {0x22, 0x5C, 0x09, 0x0A, 0x0D} then 2 else 6
    ensures |Escape(c)| == 6 ==> forall k :: 2 <= k < 6 ==> !(0x41 <= Escape(c)[k] <= 0x46)
  {
    if |Escape(c)| == 6 {
      assert IsFourHex(Escape(c), 0, 0, c / 16, c % 16);
    }
  }

  lemma {:induction false} StringIsJson(s: Text)
    ensures JsonString(SpeltOf(s)) && Spelled(SpeltOf(s)) == EscapeAll(s)
    decreases |s|
  {
    if s != [] {
      EscapeIsJson(s[0]);
      StringIsJson(s[1..]);
      assert SpeltOf(s)[1..] == SpeltOf(s[1..]);
    }
  }

  lemma {:induction false} NoLeadingZero(n: nat)
    ensures AllDigits(PrintNat(n)) && PrintNat(n) != [] && (n > 0 ==> PrintNat(n)[0] != zero) && (n < 10 ==> |PrintNat(n)| == 1)
  {
    if n >= 10 { NoLeadingZero(n / 10); }
  }

  lemma LongIsJson(n: int)
    ensures JsonNumber(NumberOf(n)) && NumberText(NumberOf(n)) == PrintLong(n)
  {
    var m := if n < 0 then -n else n;
    NoLeadingZero(m);
    assert PrintNat(m) + ([] + []) == PrintNat(m);
  }

  /** What the printer writes is a text of the standard, without white space. */
  lemma {:induction false} PrintIsJson(d: Doc)
    requires WellFormed(d)
    ensures IsJson(SyntaxOf(d)) && TextOf(SyntaxOf(d)) == Print(d)
    decreases d, 0
  {
    match d
    case DLong(n) => LongIsJson(n);
    case DStr(s) => StringIsJson(s);
    case DArr(items) =>
      if items != [] { ItemsAreJson(items); }
      Bracketed(openBracket, PrintItems(items), closeBracket);
    case DObj(members) =>
      if members != [] { PairsAreJson(members); }
      Bracketed(openBrace, PrintMembers(members), closeBrace);
    case _ =>
  }

  lemma Bracketed(open: Unit, inner: Text, close: Unit)
    ensures [open] + inner + [close] == [open] + (inner + [close])
  {
  }

  lemma {:induction false} ItemsAreJson(items: seq<Doc>)
    requires items != [] && forall k :: 0 <= k < |items| ==> WellFormed(items[k])
    ensures var r := ItemsOf(items);
            && (forall k :: 0 <= k < |r| ==> JsonWhite(r[k].before) && JsonWhite(r[k].after) && IsJson(r[k].value))
            && ItemsText(r) == PrintItems(items)
    decreases items, 1
  {
    var r := ItemsOf(items);
    PrintIsJson(items[0]);
    assert ItemText(r[0]) == Print(items[0]) by { Unpadded(Print(items[0])); }
    if |items| > 1 {
      ItemsAreJson(items[1..]);
      assert r[1..] == ItemsOf(items[1..]);
    }
  }

  lemma Unpadded(t: Text)
    ensures [] + (t + []) == t
  {
  }

  lemma PairTextIs(p: Pair, m: Member)
    requires p.before == [] && p.middle == [] && p.between == [] && p.after == []
    requires Quoted(p.key) == PrintString(m.key) && TextOf(p.value) == Print(m.value)
    ensures PairText(p) == PrintMember(m)
  {
    Unpadded(Print(m.value));
    var rest := [colon] + Print(m.value);
    assert [] + ([colon] + Print(m.value)) == rest;
    assert PrintString(m.key) + rest == PrintMember(m);
  }

  lemma {:induction false} PairsAreJson(members: seq<Member>)
    requires members != [] && forall k :: 0 <= k < |members| ==> WellFormed(members[k].value)
    ensures var r := PairsOf(members);
            (forall k :: 0 <= k < |r| ==> JsonPair(r[k]) && IsJson(r[k].value)) && PairsText(r) == PrintMembers(members)
    decreases members, 1
  {
    var r, m := PairsOf(members), members[0];
    PrintIsJson(m.value);
    StringIsJson(m.key);
    PairTextIs(r[0], m);
    if |members| > 1 {
      PairsAreJson(members[1..]);
      assert r[1..] == PairsOf(members[1..]);
    }
  }
}
