/** The printer and the parser of the Java worker as they run: a string builder, and a parser that moves an index. */
module Worker {
  import opened Records
  import opened Keys
  import opened Json
  import opened JsonProofs
  import ParserProofs
  import Spellings

  // ---- printing ----

  /** A value the printer writes without loss: its numbers are longs. */
  ghost predicate Printable(v: Json) {
    match v
    case JLong(n) => minLong <= n <= maxLong
    case JDouble(_) => false
    case JArr(a) => forall k :: 0 <= k < |a| ==> Printable(a[k])
    case JObj(o) => forall key :: key in o ==> Printable(o[key])
    case _ => true
  }

  lemma {:induction false} EscapeNext(s: Text, c: Unit)
    ensures EscapeAll(s + [c]) == EscapeAll(s) + Escape(c)
    decreases |s|
  {
    if s == [] {
      assert s + [c] == [c] && [c][1..] == [];
      assert EscapeAll([c]) == Escape(c) + [];
    } else {
      assert (s + [c])[1..] == s[1..] + [c];
      EscapeNext(s[1..], c);
    }
  }

  /** Where a separated list grows by one. */
  function Separated(list: Text, isEmpty: bool, last: Text): Text {
    if isEmpty then last else list + ([comma] + last)
  }

  lemma Glue(a: Text, b: Text, c: Text)
    ensures a + ([comma] + (b + ([comma] + c))) == a + ([comma] + b) + ([comma] + c)
    ensures a + [] == a
  {
  }

  lemma {:induction false} ItemsNext(items: seq<Doc>, d: Doc)
    ensures PrintItems(items + [d]) == Separated(PrintItems(items), items == [], Print(d))
    decreases |items|
  {
    if items == [] {
      assert items + [d] == [d];
      Glue(Print(d), [], []);
    } else {
      assert (items + [d])[1..] == items[1..] + [d];
      ItemsNext(items[1..], d);
      Glue(Print(items[0]), PrintItems(items[1..]), Print(d));
    }
  }

  lemma {:induction false} MembersNext(members: seq<Member>, m: Member)
    ensures PrintMembers(members + [m]) == Separated(PrintMembers(members), members == [], PrintMember(m))
    decreases |members|
  {
    if members == [] {
      assert members + [m] == [m];
      Glue(PrintMember(m), [], []);
    } else {
      assert (members + [m])[1..] == members[1..] + [m];
      MembersNext(members[1..], m);
      Glue(PrintMember(members[0]), PrintMembers(members[1..]), PrintMember(m));
    }
  }

  class StringBuilder {
    var text: Text

    constructor ()
      ensures text == []
    {
      text := [];
    }

    method Append(t: Text)
      modifies this
      ensures text == old(text) + t
    {
      text := text + t;
    }
  }

  method WriteUnit(sb: StringBuilder, c: Unit)
    modifies sb
    ensures sb.text == old(sb.text) + Escape(c)
  {
    if c == quote {
      sb.Append([backslash, quote]);
    } else if c == backslash {
      sb.Append([backslash, backslash]);
    } else if c == 0x0A {
      sb.Append([backslash, 0x6E]);
    } else if c == 0x0D {
      sb.Append([backslash, 0x72]);
    } else if c == 0x09 {
      sb.Append([backslash, 0x74]);
    } else if c < 0x20 {
      sb.Append([backslash, 0x75, zero, zero, Digit(c / 16), Digit(c % 16)]);
    } else {
      sb.Append([c]);
    }
  }

  method WriteJsonString(sb: StringBuilder, s: Text)
    modifies sb
    ensures sb.text == old(sb.text) + PrintString(s)
  {
    ghost var before := sb.text;
    sb.Append([quote]);
    var i := 0;
    while i < |s|
      invariant 0 <= i <= |s| && sb.text == before + [quote] + EscapeAll(s[..i])
    {
      EscapeNext(s[..i], s[i]);
      assert s[..i + 1] == s[..i] + [s[i]];
      Join(before + [quote], EscapeAll(s[..i]), Escape(s[i]));
      WriteUnit(sb, s[i]);
      i := i + 1;
    }
    assert s[..i] == s;
    sb.Append([quote]);
    Join(before, [quote], EscapeAll(s));
    Join(before, [quote] + EscapeAll(s), [quote]);
  }

  lemma Join(a: Text, b: Text, c: Text)
    ensures a + b + c == a + (b + c)
  {
  }

  /** Appends the text of a value whose maps are iterated in some order, which `d` records. */
  method WriteJson(sb: StringBuilder, v: Json) returns (ghost d: Doc)
    requires Printable(v)
    modifies sb
    ensures WellFormed(d) && Value(d) == v && sb.text == old(sb.text) + Print(d)
    decreases v
  {
    match v
    case JNull =>
      sb.Append(wordNull);
      d := DNull;
    case JStr(s) =>
      WriteJsonString(sb, s);
      d := DStr(s);
    case JBool(b) =>
      sb.Append(if b then wordTrue else wordFalse);
      d := DBool(b);
    case JLong(n) =>
      sb.Append(PrintLong(n));
      d := DLong(n);
    case JObj(o) =>
      d := WriteMap(sb, v);
    case JArr(a) =>
      d := WriteList(sb, v);
  }

  method WriteList(sb: StringBuilder, v: Json) returns (ghost d: Doc)
    requires Printable(v) && v.JArr?
    modifies sb
    ensures WellFormed(d) && Value(d) == v && sb.text == old(sb.text) + Print(d)
    decreases v, 0
  {
    ghost var before := sb.text;
    sb.Append([openBracket]);
    ghost var items: seq<Doc> := [];
    var first, n := true, 0;
    while n < |v.a|
      invariant 0 <= n <= |v.a| && first == (n == 0)
      invariant AreItems(v.a, items, n)
      invariant sb.text == before + [openBracket] + PrintItems(items)
    {
      if !first {
        sb.Append([comma]);
      }
      first := false;
      ghost var item := WriteJson(sb, v.a[n]);
      ListTurn(before + [openBracket], items, item);
      items := items + [item];
      n := n + 1;
    }
    sb.Append([closeBracket]);
    d := DArr(items);
    AllItems(v.a, items);
    Join(before, [openBracket], PrintItems(items));
    Join(before, [openBracket] + PrintItems(items), [closeBracket]);
  }

  lemma ListTurn(before: Text, items: seq<Doc>, item: Doc)
    ensures before + PrintItems(items) + (if items == [] then [] else [comma]) + Print(item) == before + PrintItems(items + [item])
  {
    ItemsNext(items, item);
    Append(before, PrintItems(items), items == [], Print(item));
  }

  lemma Append(before: Text, list: Text, isEmpty: bool, last: Text)
    requires isEmpty ==> list == []
    ensures before + list + (if isEmpty then [] else [comma]) + last == before + Separated(list, isEmpty, last)
  {
  }

  ghost predicate AreItems(a: seq<Json>, items: seq<Doc>, n: nat) {
    |items| == n <= |a| && forall k :: 0 <= k < n ==> WellFormed(items[k]) && Value(items[k]) == a[k]
  }

  lemma AllItems(a: seq<Json>, items: seq<Doc>)
    requires AreItems(a, items, |a|)
    ensures WellFormed(DArr(items)) && Value(DArr(items)) == JArr(a)
  {
    assert Values(items) == a;
  }

  method WriteMap(sb: StringBuilder, v: Json) returns (ghost d: Doc)
    requires Printable(v) && v.JObj?
    modifies sb
    ensures WellFormed(d) && Value(d) == v && sb.text == old(sb.text) + Print(d)
    decreases v, 0, 1
  {
    ghost var before := sb.text;
    sb.Append([openBrace]);
    ghost var members: seq<Member> := [];
    var order := KeysOf(v.o);
    var first, n := true, 0;
    while n < |order|
      invariant 0 <= n <= |order| && first == (n == 0) && AreMembers(v.o, order, members, n)
      invariant sb.text == before + [openBrace] + PrintMembers(members)
    {
      if !first {
        sb.Append([comma]);
      }
      first := false;
      ghost var value := WriteEntry(sb, v, order[n]);
      MapTurn(before + [openBrace], members, Member(order[n], value));
      members := members + [Member(order[n], value)];
      n := n + 1;
    }
    sb.Append([closeBrace]);
    d := DObj(members);
    AllMembers(v.o, order, members);
    Join(before, [openBrace], PrintMembers(members));
    Join(before, [openBrace] + PrintMembers(members), [closeBrace]);
  }

  method WriteEntry(sb: StringBuilder, v: Json, key: Text) returns (ghost value: Doc)
    requires Printable(v) && v.JObj? && key in v.o
    modifies sb
    ensures WellFormed(value) && Value(value) == v.o[key]
    ensures sb.text == old(sb.text) + PrintMember(Member(key, value))
    decreases v, 0, 0
  {
    ghost var before := sb.text;
    WriteJsonString(sb, key);
    sb.Append([colon]);
    value := WriteJson(sb, v.o[key]);
    Join(before, PrintString(key), [colon]);
    Join(before, PrintString(key) + [colon], Print(value));
  }

  lemma MapTurn(before: Text, members: seq<Member>, m: Member)
    ensures before + PrintMembers(members) + (if members == [] then [] else [comma]) + PrintMember(m)
         == before + PrintMembers(members + [m])
  {
    MembersNext(members, m);
    Append(before, PrintMembers(members), members == [], PrintMember(m));
  }

  /** Well-formed members for the first keys of the map. */
  ghost predicate AreMembers(o: map<Text, Json>, order: seq<Text>, members: seq<Member>, n: nat) {
    && |members| == n <= |order|
    && forall k :: 0 <= k < n ==>
         members[k].key == order[k] && WellFormed(members[k].value) && order[k] in o && Value(members[k].value) == o[order[k]]
  }

  lemma AllMembers(o: map<Text, Json>, order: seq<Text>, members: seq<Member>)
    requires IsOrder(o, order) && AreMembers(o, order, members, |order|)
    ensures WellFormed(DObj(members)) && Value(DObj(members)) == JObj(o)
  {
    var m := Enter(map[], members);
    forall key ensures key in m <==> key in o
               ensures key in o ==> key in m && m[key] == o[key] {
      if key in o {
        var k :| 0 <= k < |order| && order[k] == key;
        assert members[k].key == key;
        EnterHas(map[], members, k);
      } else {
        EnterKeeps(map[], members, key);
      }
    }
    assert m == o;
  }

  /** A text of the value, for some order of its maps. */
  ghost predicate IsTextOf(text: Text, v: Json) {
    exists d :: WellFormed(d) && Value(d) == v && text == Print(d)
  }

  method ToJson(v: Json) returns (text: Text)
    requires Printable(v)
    ensures IsTextOf(text, v)
    ensures exists c :: Spellings.IsJson(c) && text == Spellings.TextOf(c)
  {
    var sb := new StringBuilder();
    ghost var d := WriteJson(sb, v);
    text := sb.text;
    ParserProofs.PrintIsJson(d);
  }

  // ---- parsing ----

  class Parser {
    const s: Text
    var i: nat
    var ok: bool
    /** A `NumberFormatException` is on its way out. */
    var threw: bool

    constructor (s: Text)
      ensures this.s == s && i == 0 && ok && !threw
    {
      this.s := s;
      i, ok, threw := 0, true, false;
    }

    ghost predicate Live()
      reads this
    {
      ok && !threw && i <= |s|
    }

    /** The fields are what the outcome says. */
    ghost predicate At<T>(r: Parse<T>)
      reads this
    {
      && i <= |s| && s[i..] == r.rest && (threw <==> r.Threw?)
      && (r.Good? ==> ok) && (r.Bad? ==> !ok)
    }

    method SkipWhitespace()
      requires i <= |s|
      modifies this`i
      ensures old(i) <= i <= |s| && s[i..] == SkipWs(old(s[i..]))
    {
      while i < |s| && IsWhitespace(s[i])
        invariant old(i) <= i <= |s| && SkipWs(s[i..]) == SkipWs(old(s[i..]))
      {
        assert s[i..][1..] == s[i + 1..];
        i := i + 1;
      }
    }

    method ExpectWord(word: Text)
      requires Live()
      modifies this`i, this`ok
      ensures old(i) <= i && forall v :: At(Expect(old(s[i..]), word, v))
    {
      if word <= s[i..] {
        assert s[i..][|word|..] == s[i + |word|..];
        i := i + |word|;
      } else {
        ok := false;
      }
    }

    method Number() returns (v: Json)
      requires Live()
      modifies this`i, this`ok
      ensures old(i) <= i && At(ParseNumber(old(s[i..])))
      ensures ParseNumber(old(s[i..])).Good? ==> v == ParseNumber(old(s[i..])).value
    {
      var start := i;
      while i < |s| && IsNumberChar(s[i])
        invariant start <= i <= |s| && ok && Leading(s[start..], IsNumberChar) == i - start + Leading(s[i..], IsNumberChar)
      {
        assert s[i..][1..] == s[i + 1..];
        i := i + 1;
      }
      NumberAt(s, start, i);
      var num := s[start..i];
      v := JNull;
      if ParseLong(num).Some? {
        v := JLong(ParseLong(num).value);
      } else if IsDouble(num) {
        v := JDouble(num);
      } else {
        ok := false;
      }
    }

    /** One turn of the scan of a string; `more` is false once it is over. */
    method Scan(sb: Text) returns (r: Text, more: bool)
      requires !threw && i < |s|
      modifies this
      ensures old(i) < i <= |s|
      ensures more ==> !threw && ParseChars(s[i..], r, ok) == ParseChars(old(s[i..]), sb, old(ok))
      ensures !more ==> var p := ParseChars(old(s[i..]), sb, old(ok)); At(p) && (p.Good? ==> r == p.value)
    {
      CharsAt(s, i, sb, ok);
      var c := s[i];
      i := i + 1;
      r, more := sb, true;
      if c == quote {
        return r, false;
      }
      if c == backslash && i < |s| {
        var e := s[i];
        i := i + 1;
        if e == 0x75 {
          if i + 4 <= |s| {
            var u := CharOf(s[i..i + 4]);
            if u.None? {
              threw := true;
              return r, false;
            }
            r := r + [u.value];
            i := i + 4;
          } else {
            ok := false;
          }
        } else {
          r := r + [Unescape(e)];
        }
      } else if c == backslash {
        ok := false;
      } else {
        r := r + [c];
      }
    }

    method String() returns (r: Text)
      requires Live() && i < |s|
      modifies this
      ensures old(i) < i && At(ParseString(old(s[i..])))
      ensures ParseString(old(s[i..])).Good? ==> r == ParseString(old(s[i..])).value
    {
      ghost var spec := ParseString(s[i..]);
      assert s[i..][1..] == s[i + 1..];
      r := [];
      i := i + 1;
      while i < |s|
        invariant old(i) < i <= |s| && !threw && ParseChars(s[i..], r, ok) == spec
      {
        var more;
        r, more := Scan(r);
        if !more {
          return;
        }
      }
      ok := false;
    }

    method Value() returns (v: Json)
      requires Live()
      modifies this
      ensures old(i) <= i && At(ParseValue(old(s[i..])))
      ensures ParseValue(old(s[i..])).Good? ==> v == ParseValue(old(s[i..])).value
      decreases |s| - i, 4
    {
      SkipWhitespace();
      v := JNull;
      if i >= |s| {
        ok := false;
        return;
      }
      var c := s[i];
      if c == openBrace {
        v := Object();
      } else if c == openBracket {
        v := Array();
      } else if c == quote {
        var str := String();
        v := JStr(str);
      } else if c == wordTrue[0] {
        ExpectWord(wordTrue);
        v := JBool(true);
      } else if c == wordFalse[0] {
        ExpectWord(wordFalse);
        v := JBool(false);
      } else if c == wordNull[0] {
        ExpectWord(wordNull);
      } else {
        v := Number();
      }
    }

    method Object() returns (v: Json)
      requires Live() && i < |s|
      modifies this
      ensures old(i) <= i && At(ParseObject(old(s[i..])))
      ensures ParseObject(old(s[i..])).Good? ==> v == ParseObject(old(s[i..])).value
      decreases |s| - i, 3
    {
      ObjectAt(s, i);
      var m: map<Text, Json> := map[];
      i := i + 1;
      SkipWhitespace();
      if i < |s| && s[i] == closeBrace {
        i := i + 1;
        return JObj(m);
      }
      v := Members(m);
    }

    /** The loop over members. */
    method Members(start: map<Text, Json>) returns (v: Json)
      requires Live()
      modifies this
      ensures old(i) <= i && At(ParseMembers(old(s[i..]), start))
      ensures ParseMembers(old(s[i..]), start).Good? ==> v == ParseMembers(old(s[i..]), start).value
      decreases |s| - i, 7
    {
      ghost var spec := ParseMembers(s[i..], start);
      var m, more := start, true;
      v := JNull;
      while more
        invariant old(i) <= i && (more ==> Live() && ParseMembers(s[i..], m) == spec)
        invariant !more ==> At(spec) && (spec.Good? ==> v == JObj(m) == spec.value)
        decreases more, |s| - i
      {
        m, more := MembersTurn(m);
        v := JObj(m);
      }
    }

    /** One turn: a member, and then a comma or the end. */
    method MembersTurn(m: map<Text, Json>) returns (m': map<Text, Json>, more: bool)
      requires Live()
      modifies this
      ensures old(i) <= i && (more ==> Live() && old(i) < i && ParseMembers(s[i..], m') == ParseMembers(old(s[i..]), m))
      ensures !more ==> var p := ParseMembers(old(s[i..]), m); At(p) && (p.Good? ==> JObj(m') == p.value)
      decreases |s| - i, 6
    {
      m', more := m, false;
      var key, val := MemberAt();
      if threw || !ok {
        return;
      }
      m' := m[key := val];
      var c := Delimiter();
      if c.None? || (c.value != closeBrace && c.value != comma) {
        ok := false;
        return;
      }
      more := c.value == comma;
    }

    /** The character after an item, if there is one. */
    method Delimiter() returns (c: Option<Unit>)
      requires Live()
      modifies this`i
      ensures old(i) <= i <= |s|
      ensures var w := SkipWs(old(s[i..]));
              if w == [] then c == None && s[i..] == [] else c == Some(w[0]) && s[i..] == w[1..] && old(i) < i
    {
      SkipWhitespace();
      if i >= |s| {
        return None;
      }
      assert s[i..][1..] == s[i + 1..];
      c := Some(s[i]);
      i := i + 1;
    }

    /** The part of a turn of the member loop that reads a key and a colon. */
    method KeyAt() returns (key: Text)
      requires Live()
      modifies this
      ensures old(i) <= i && At(ParseKey(old(s[i..]))) && (ok && !threw ==> old(i) < i)
      ensures ParseKey(old(s[i..])).Good? ==> key == ParseKey(old(s[i..])).value
    {
      key := [];
      SkipWhitespace();
      if i >= |s| || s[i] != quote {
        ok := false;
        return;
      }
      key := String();
      if threw || !ok {
        return;
      }
      SkipWhitespace();
      if i >= |s| || s[i] != colon {
        ok := false;
        return;
      }
      assert s[i..][1..] == s[i + 1..];
      i := i + 1;
    }

    method MemberAt() returns (key: Text, val: Json)
      requires Live()
      modifies this
      ensures old(i) <= i && At(ParseMember(old(s[i..])))
      ensures ParseMember(old(s[i..])).Good? ==> (key, val) == ParseMember(old(s[i..])).value
      decreases |s| - i, 5
    {
      val := JNull;
      key := KeyAt();
      if threw || !ok {
        return;
      }
      val := Value();
    }

    method Array() returns (v: Json)
      requires Live() && i < |s|
      modifies this
      ensures old(i) <= i && At(ParseArray(old(s[i..])))
      ensures ParseArray(old(s[i..])).Good? ==> v == ParseArray(old(s[i..])).value
      decreases |s| - i, 3
    {
      ArrayAt(s, i);
      i := i + 1;
      SkipWhitespace();
      if i < |s| && s[i] == closeBracket {
        i := i + 1;
        return JArr([]);
      }
      v := Items();
    }

    /** The loop over items. */
    method Items() returns (v: Json)
      requires Live()
      modifies this
      ensures old(i) <= i && At(ParseItems(old(s[i..]), []))
      ensures ParseItems(old(s[i..]), []).Good? ==> v == ParseItems(old(s[i..]), []).value
      decreases |s| - i, 6
    {
      ghost var spec := ParseItems(s[i..], []);
      var l: seq<Json>, more := [], true;
      v := JNull;
      while more
        invariant old(i) <= i && (more ==> Live() && ParseItems(s[i..], l) == spec)
        invariant !more ==> At(spec) && (spec.Good? ==> v == JArr(l) == spec.value)
        decreases more, |s| - i
      {
        l, more := ItemsTurn(l);
        v := JArr(l);
      }
    }

    method ItemsTurn(l: seq<Json>) returns (l': seq<Json>, more: bool)
      requires Live()
      modifies this
      ensures old(i) <= i && (more ==> Live() && old(i) < i && ParseItems(s[i..], l') == ParseItems(old(s[i..]), l))
      ensures !more ==> var p := ParseItems(old(s[i..]), l); At(p) && (p.Good? ==> JArr(l') == p.value)
      decreases |s| - i, 5
    {
      l', more := l, false;
      var val := Value();
      if threw || !ok {
        return;
      }
      l' := l + [val];
      var c := Delimiter();
      if c.None? || (c.value != closeBracket && c.value != comma) {
        ok := false;
        return;
      }
      more := c.value == comma;
    }
  }

  lemma NumberAt(s: Text, start: nat, i: nat)
    requires start <= i <= |s| && Leading(s[start..], IsNumberChar) == i - start
    ensures ParseNumber(s[start..]) == NumberOf(s[start..i], s[i..])
  {
    assert s[start..][..i - start] == s[start..i];
    assert s[start..][i - start..] == s[i..];
  }

  /** One turn of the scan, by the units at the index. */
  lemma CharsAt(s: Text, i: nat, sb: Text, ok: bool)
    requires i < |s|
    ensures ParseChars(s[i..], sb, ok)
         == if s[i] == quote then (if ok then Good(sb, s[i + 1..]) else Bad(s[i + 1..]))
            else if s[i] != backslash then ParseChars(s[i + 1..], sb + [s[i]], ok)
            else if i + 1 == |s| then ParseChars(s[i + 1..], sb, false)
            else if s[i + 1] != 0x75 then ParseChars(s[i + 2..], sb + [Unescape(s[i + 1])], ok)
            else if i + 6 > |s| then ParseChars(s[i + 2..], sb, false)
            else if CharOf(s[i + 2..i + 6]).None? then Threw(s[i + 2..])
            else ParseChars(s[i + 6..], sb + [CharOf(s[i + 2..i + 6]).value], ok)
  {
    var t := s[i..];
    assert t[1..] == s[i + 1..];
    if i + 2 <= |s| { assert t[2..] == s[i + 2..]; }
    if i + 6 <= |s| { assert t[2..6] == s[i + 2..i + 6] && t[6..] == s[i + 6..]; }
  }

  lemma ObjectAt(s: Text, i: nat)
    requires i < |s|
    ensures var u := SkipWs(s[i + 1..]);
            ParseObject(s[i..]) == if u != [] && u[0] == closeBrace then Good(JObj(map[]), u[1..]) else ParseMembers(u, map[])
  {
    assert s[i..][1..] == s[i + 1..];
  }

  lemma ArrayAt(s: Text, i: nat)
    requires i < |s|
    ensures var u := SkipWs(s[i + 1..]);
            ParseArray(s[i..]) == if u != [] && u[0] == closeBracket then Good(JArr([]), u[1..]) else ParseItems(u, [])
  {
    assert s[i..][1..] == s[i + 1..];
  }

  /** Strict: no error, nothing left over, and an object at the top. */
  method ParseJson(text: Text) returns (r: Answer)
    ensures r == ParseText(text)
    ensures forall o :: r == Parsed(o) <==> ParserProofs.Spells(text, o)
  {
    forall o ensures ParseText(text) == Parsed(o) <==> ParserProofs.Spells(text, o) {
      ParserProofs.ParsesIffSpelled(text, o);
    }
    var p := new Parser(text);
    assert p.s[p.i..] == text;
    var v := p.Value();
    if p.threw {
      return Exception;
    }
    if !p.ok || p.i < |p.s| {
      return Null;
    }
    r := if v.JObj? then Parsed(v.o) else Null;
  }

  /** What goes out through the printer comes back through the parser. */
  method SendAndReceive(o: map<Text, Json>) returns (r: Answer)
    requires Printable(JObj(o))
    ensures r == Parsed(o)
  {
    var text := ToJson(JObj(o));
    ghost var d :| WellFormed(d) && Value(d) == JObj(o) && text == Print(d);
    RoundTrip(d);
    r := ParseJson(text);
  }
}
