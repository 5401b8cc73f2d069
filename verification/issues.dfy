/** What the issues of the schema checker say: each names a node of the value and the keyword that node breaks. */
module IssueProofs {
  import opened Records
  import opened Schemas
  import opened SchemaProofs

  /** A limit on the size of a value: the number itself, or the length of a string or a list. */
  predicate Misses(low: Option<real>, size: real, high: Option<real>, kind: Kind) {
    if kind.TooLow? then low.Some? && size < low.value else kind.TooHigh? && high.Some? && size > high.value
  }

  /** The node's value is outside the limits that go with the node's type. */
  predicate OutOfBounds(s: Schema, v: Value, kind: Kind) {
    || (s.typ == Some(TString) && v.Str? && Misses(s.bounds.minLength, |v.s| as real, s.bounds.maxLength, kind))
    || (s.typ in {Some(TNumber), Some(TInteger)} && v.Num? && Misses(s.bounds.minimum, v.n, s.bounds.maximum, kind))
    || (s.typ == Some(TArray) && v.Arr? && Misses(s.bounds.minItems, |v.a| as real, s.bounds.maxItems, kind))
  }

  /** The literal is listed, and is no object and no array: these are compared by identity. */
  predicate InEnum(s: Schema, v: Value) {
    s.enum.None? || (v in s.enum.value && !v.Obj? && !v.Arr?)
  }

  predicate RightType(s: Schema, v: Value) {
    match s.typ
    case None => true
    case Some(TString) => v.Str?
    case Some(TNumber) => v.Num?
    case Some(TInteger) => v.Num? && v.n == v.n.Floor as real
    case Some(TBoolean) => v.Bool?
    case Some(TNull) => v.Null?
    case Some(TArray) => v.Arr?
    case Some(TObject) => v.Obj?
  }

  /** The node's own keyword that its value breaks: the first of `enum`, `type` and the limits. */
  predicate BreaksHere(s: Schema, v: Value, kind: Kind) {
    match kind
    case NotInEnum => !InEnum(s, v)
    case WrongType => InEnum(s, v) && !RightType(s, v)
    case TooLow => InEnum(s, v) && RightType(s, v) && OutOfBounds(s, v, kind)
    case TooHigh => InEnum(s, v) && RightType(s, v) && OutOfBounds(s, v, kind)
    case Missing => false
    case Unknown => false
  }

  /** The node looks at the members of its value. */
  predicate LooksAtMembers(s: Schema, v: Value) {
    InEnum(s, v) && RightType(s, v) && v.Obj? && (s.typ == Some(TObject) || (s.typ.None? && s.properties.Declared?))
  }

  predicate LooksAtItems(s: Schema, v: Value) {
    InEnum(s, v) && RightType(s, v) && v.Arr? && s.items.Some? && (s.typ.None? || s.typ == Some(TArray))
  }

  /**
   * Going down this path from the node, through members that are declared and items that have a schema, one gets to a
   * value that breaks this keyword. A required member that is missing, or one that is not declared where that is not
   * allowed, is reported at the path it has or would have.
   */
  predicate Breaks(s: Schema, v: Value, path: Path, kind: Kind)
    decreases |path|
  {
    if path == [] then BreaksHere(s, v, kind)
    else
      match path[0]
      case Key(key) =>
        && LooksAtMembers(s, v)
        && (|| (|path| == 1 && kind.Missing? && key in s.required && key !in v.o)
            || (|path| == 1 && kind.Unknown? && s.closed && key in v.o && !(s.properties.Declared? && key in s.properties.of))
            || (s.properties.Declared? && key in s.properties.of && key in v.o && Breaks(s.properties.of[key], v.o[key], path[1..], kind)))
      case Index(i) =>
        LooksAtItems(s, v) && i < |v.a| && Breaks(s.items.value, v.a[i], path[1..], kind)
  }

  // ---- the checker reports exactly these ----

  lemma SameTests(s: Schema, v: Value)
    ensures Allowed(s, v) <==> InEnum(s, v)
    ensures s.typ.None? || HasType(s.typ.value, v) <==> RightType(s, v)
    ensures TooLowFor(s, v) <==> OutOfBounds(s, v, TooLow)
    ensures TooHighFor(s, v) <==> OutOfBounds(s, v, TooHigh)
  {
    if s.enum.Some? && v in s.enum.value {
      var k :| 0 <= k < |s.enum.value| && s.enum.value[k] == v;
      assert StrictlyEqual(s.enum.value[k], v) <==> !v.Obj? && !v.Arr?;
    }
  }

  lemma ReportedHere(s: Schema, v: Value, path: Path, kind: Kind)
    ensures Issue(path, kind) in Issues(s, v, path, false) <==> BreaksHere(s, v, kind)
  {
    SameTests(s, v);
    if OpensObject(s, v) { NothingAbove(s, v.o, path, kind); }
    if OpensArray(s, v) { NoItemAbove(s, v.a, path, kind); }
  }

  /** What is below a node is not reported at it. */
  lemma NothingAbove(s: Schema, o: map<string, Value>, path: Path, kind: Kind)
    ensures Issue(path, kind) !in ObjectIssues(s, o, path, false)
  {
    var issue := Issue(path, kind);
    forall key ensures |path + [Key(key)]| == |path| + 1 {}
    assert issue !in MissingIssues(s, o, path) && issue !in UnknownIssues(s, o, path);
    if issue in PropertyIssues(s, o, path, false) {
      var key :| key in s.properties.of && key in o && issue in Issues(s.properties.of[key], o[key], path + [Key(key)], false);
      IssuesUnder(s.properties.of[key], o[key], path + [Key(key)], false, issue);
    }
  }

  lemma NoItemAbove(s: Schema, a: seq<Value>, path: Path, kind: Kind)
    requires s.items.Some?
    ensures Issue(path, kind) !in ItemIssues(s, a, path, false)
  {
    if i :| 0 <= i < |a| && Issue(path, kind) in Issues(s.items.value, a[i], path + [Index(i)], false) {
      IssuesUnder(s.items.value, a[i], path + [Index(i)], false, Issue(path, kind));
    }
  }

  /** An issue below a node is one of its members' or its items'. */
  lemma Below(s: Schema, v: Value, path: Path, issue: Issue)
    requires |issue.path| > |path|
    ensures issue in Issues(s, v, path, false) <==>
            || (LooksAtMembers(s, v) && issue in ObjectIssues(s, v.o, path, false))
            || (LooksAtItems(s, v) && issue in ItemIssues(s, v.a, path, false))
  {
    SameTests(s, v);
  }

  lemma MemberIssue(s: Schema, o: map<string, Value>, path: Path, key: string, rest: Path, kind: Kind)
    ensures Issue(path + ([Key(key)] + rest), kind) in ObjectIssues(s, o, path, false) <==>
            || (rest == [] && kind.Missing? && key in s.required && key !in o)
            || (rest == [] && kind.Unknown? && s.closed && key in o && !Declares(s, key))
            || (Declares(s, key) && key in o && Issue(path + [Key(key)] + rest, kind) in Issues(s.properties.of[key], o[key], path + [Key(key)], false))
  {
    var issue := Issue(path + ([Key(key)] + rest), kind);
    assert path + ([Key(key)] + rest) == path + [Key(key)] + rest;
    MissingIs(s, o, path, key, rest, kind);
    UnknownIs(s, o, path, key, rest, kind);
    if s.properties.Declared? { PropertyIs(s, o, path, key, rest, kind); }
  }

  lemma KeysDiffer(path: Path, key: string, rest: Path, other: string, tail: Path)
    requires path + ([Key(key)] + rest) == path + [Key(other)] + tail
    ensures key == other && rest == tail
  {
    var p := path + ([Key(key)] + rest);
    assert p[|path|] == Key(key) && p[|path|] == Key(other);
    assert p[|path| + 1..] == rest && p[|path| + 1..] == tail;
  }

  lemma MissingIs(s: Schema, o: map<string, Value>, path: Path, key: string, rest: Path, kind: Kind)
    ensures Issue(path + ([Key(key)] + rest), kind) in MissingIssues(s, o, path)
       <==> rest == [] && kind.Missing? && key in s.required && key !in o
  {
    var issue := Issue(path + ([Key(key)] + rest), kind);
    if issue in MissingIssues(s, o, path) {
      var other :| other in s.required && other !in o && issue == Issue(path + [Key(other)], Missing);
      assert path + [Key(other)] == path + [Key(other)] + [];
      KeysDiffer(path, key, rest, other, []);
    }
    if rest == [] { assert path + ([Key(key)] + rest) == path + [Key(key)]; }
  }

  lemma UnknownIs(s: Schema, o: map<string, Value>, path: Path, key: string, rest: Path, kind: Kind)
    ensures Issue(path + ([Key(key)] + rest), kind) in UnknownIssues(s, o, path)
       <==> rest == [] && kind.Unknown? && s.closed && key in o && !Declares(s, key)
  {
    var issue := Issue(path + ([Key(key)] + rest), kind);
    if issue in UnknownIssues(s, o, path) {
      var other :| other in o && !Declares(s, other) && issue == Issue(path + [Key(other)], Unknown);
      assert path + [Key(other)] == path + [Key(other)] + [];
      KeysDiffer(path, key, rest, other, []);
    }
    if rest == [] { assert path + ([Key(key)] + rest) == path + [Key(key)]; }
  }

  lemma PropertyIs(s: Schema, o: map<string, Value>, path: Path, key: string, rest: Path, kind: Kind)
    requires s.properties.Declared?
    ensures Issue(path + ([Key(key)] + rest), kind) in PropertyIssues(s, o, path, false)
       <==> Declares(s, key) && key in o
            && Issue(path + [Key(key)] + rest, kind) in Issues(s.properties.of[key], o[key], path + [Key(key)], false)
  {
    var issue := Issue(path + ([Key(key)] + rest), kind);
    assert path + ([Key(key)] + rest) == path + [Key(key)] + rest;
    if issue in PropertyIssues(s, o, path, false) {
      var other :| other in s.properties.of && other in o && issue in Issues(s.properties.of[other], o[other], path + [Key(other)], false);
      IssuesUnder(s.properties.of[other], o[other], path + [Key(other)], false, issue);
      StepBelow(issue.path, path, Key(other));
      assert issue.path[|path|] == Key(key);
    }
  }

  lemma ItemIssue(s: Schema, a: seq<Value>, path: Path, i: nat, rest: Path, kind: Kind)
    requires s.items.Some?
    ensures Issue(path + ([Index(i)] + rest), kind) in ItemIssues(s, a, path, false)
       <==> i < |a| && Issue(path + [Index(i)] + rest, kind) in Issues(s.items.value, a[i], path + [Index(i)], false)
  {
    var issue := Issue(path + ([Index(i)] + rest), kind);
    assert path + ([Index(i)] + rest) == path + [Index(i)] + rest;
    if issue in ItemIssues(s, a, path, false) {
      var j :| 0 <= j < |a| && issue in Issues(s.items.value, a[j], path + [Index(j)], false);
      IssuesUnder(s.items.value, a[j], path + [Index(j)], false, issue);
      StepBelow(issue.path, path, Index(j));
      assert issue.path[|path|] == Index(i);
    }
  }

  /** Members are reported by key, items by index. */
  lemma MembersByKey(s: Schema, o: map<string, Value>, path: Path, issue: Issue)
    requires issue in ObjectIssues(s, o, path, false)
    ensures |issue.path| > |path| && issue.path[|path|].Key?
  {
    if issue in MissingIssues(s, o, path) {
      var key :| key in s.required && issue == Issue(path + [Key(key)], Missing);
    } else if issue in UnknownIssues(s, o, path) {
      var key :| key in o && issue == Issue(path + [Key(key)], Unknown);
    } else {
      var key :| key in s.properties.of && key in o && issue in Issues(s.properties.of[key], o[key], path + [Key(key)], false);
      IssuesUnder(s.properties.of[key], o[key], path + [Key(key)], false, issue);
      StepBelow(issue.path, path, Key(key));
    }
  }

  lemma ItemsByIndex(s: Schema, a: seq<Value>, path: Path, issue: Issue)
    requires s.items.Some? && issue in ItemIssues(s, a, path, false)
    ensures |issue.path| > |path| && issue.path[|path|].Index?
  {
    var i :| 0 <= i < |a| && issue in Issues(s.items.value, a[i], path + [Index(i)], false);
    IssuesUnder(s.items.value, a[i], path + [Index(i)], false, issue);
    StepBelow(issue.path, path, Index(i));
  }

  lemma RightSegment(s: Schema, v: Value, path: Path, step: Segment, rest: Path, kind: Kind)
    ensures LooksAtMembers(s, v) && Issue(path + ([step] + rest), kind) in ObjectIssues(s, v.o, path, false) ==> step.Key?
    ensures LooksAtItems(s, v) && Issue(path + ([step] + rest), kind) in ItemIssues(s, v.a, path, false) ==> step.Index?
  {
    var issue := Issue(path + ([step] + rest), kind);
    assert issue.path[|path|] == step;
    if LooksAtMembers(s, v) && issue in ObjectIssues(s, v.o, path, false) { MembersByKey(s, v.o, path, issue); }
    if LooksAtItems(s, v) && issue in ItemIssues(s, v.a, path, false) { ItemsByIndex(s, v.a, path, issue); }
  }

  /** An issue is reported at a path if and only if the value there breaks that keyword. */
  lemma {:induction false} IssuesAreBreaks(s: Schema, v: Value, prefix: Path, path: Path, kind: Kind)
    ensures Issue(prefix + path, kind) in Issues(s, v, prefix, false) <==> Breaks(s, v, path, kind)
    decreases |path|
  {
    if path == [] {
      assert prefix + path == prefix;
      ReportedHere(s, v, prefix, kind);
    } else {
      var step, rest := path[0], path[1..];
      assert path == [step] + rest;
      Below(s, v, prefix, Issue(prefix + path, kind));
      RightSegment(s, v, prefix, step, rest, kind);
      if step.Key? {
        if LooksAtMembers(s, v) {
          MemberIssue(s, v.o, prefix, step.key, rest, kind);
          if Declares(s, step.key) && step.key in v.o { IssuesAreBreaks(s.properties.of[step.key], v.o[step.key], prefix + [step], rest, kind); }
        }
      } else if LooksAtItems(s, v) {
        ItemIssue(s, v.a, prefix, step.index, rest, kind);
        if step.index < |v.a| { IssuesAreBreaks(s.items.value, v.a[step.index], prefix + [step], rest, kind); }
      }
    }
  }

  // ---- with defaults ----

  /** The issues found while defaults are filled in are those of the filled value. */
  lemma {:induction false} FillingIsChecking(s: Schema, v: Value, path: Path)
    ensures Issues(s, v, path, true) == Issues(s, Fill(s, v), path, false)
    decreases s
  {
    FillShape(s, v);
    var w := Fill(s, v);
    if Allowed(s, v) && OpensObject(s, v) {
      FilledMembers(s, v);
      if s.properties.Declared? {
        forall key | key in s.properties.of && key in w.o
          ensures Issues(s.properties.of[key], Defaulted(s, v.o)[key], path + [Key(key)], true)
               == Issues(s.properties.of[key], w.o[key], path + [Key(key)], false)
        {
          FillingIsChecking(s.properties.of[key], Defaulted(s, v.o)[key], path + [Key(key)]);
        }
      }
      SameMembers(s, Defaulted(s, v.o), w.o, path);
    } else if Allowed(s, v) && OpensArray(s, v) {
      forall i | 0 <= i < |v.a|
        ensures Issues(s.items.value, v.a[i], path + [Index(i)], true) == Issues(s.items.value, w.a[i], path + [Index(i)], false)
      {
        FillingIsChecking(s.items.value, v.a[i], path + [Index(i)]);
      }
      assert ItemIssues(s, v.a, path, true) == ItemIssues(s, w.a, path, false);
    }
    SameBounds(s, v, path);
  }

  lemma SameMembers(s: Schema, base: map<string, Value>, o: map<string, Value>, path: Path)
    requires o.Keys == base.Keys
    requires s.properties.Declared? ==>
               forall key :: key in s.properties.of && key in o ==>
                 Issues(s.properties.of[key], base[key], path + [Key(key)], true) == Issues(s.properties.of[key], o[key], path + [Key(key)], false)
    ensures ObjectIssues(s, base, path, true) == ObjectIssues(s, o, path, false)
  {
    assert MissingIssues(s, base, path) == MissingIssues(s, o, path);
    assert UnknownIssues(s, base, path) == UnknownIssues(s, o, path);
    assert PropertyIssues(s, base, path, true) == PropertyIssues(s, o, path, false);
  }

  lemma SameBounds(s: Schema, v: Value, path: Path)
    ensures BoundIssues(s, Fill(s, v), path) == BoundIssues(s, v, path)
  {
    FillShape(s, v);
  }

  /** What is reported with the defaults filled in, and what without: the keywords broken by the filled value, and by the value. */
  lemma ReportedIssues(s: Schema, v: Value, path: Path, kind: Kind)
    ensures Issue(path, kind) in Issues(s, v, [], true) <==> Breaks(s, Fill(s, v), path, kind)
    ensures Issue(path, kind) in Issues(s, v, [], false) <==> Breaks(s, v, path, kind)
  {
    assert [] + path == path;
    FillingIsChecking(s, v, []);
    IssuesAreBreaks(s, v, [], path, kind);
    IssuesAreBreaks(s, Fill(s, v), [], path, kind);
  }

  // ---- the load-time check ----

  /** The schema of a declared property, or that of the items. */
  datatype Turn = Property(key: string) | Items

  function NodeAt(s: Schema, turns: seq<Turn>): Option<Schema>
    decreases |turns|
  {
    if turns == [] then Some(s)
    else
      match turns[0]
      case Property(key) => if s.properties.Declared? && key in s.properties.of then NodeAt(s.properties.of[key], turns[1..]) else None
      case Items => if s.items.Some? then NodeAt(s.items.value, turns[1..]) else None
  }

  /** With declared properties all required names are among them, and a default, filled, is valid at its own node. */
  ghost predicate NodeIsSound(s: Schema) {
    && (s.properties.Declared? ==> forall key :: key in s.required ==> key in s.properties.of)
    && (s.default.Some? ==> Valid(s, Fill(s, s.default.value)))
  }

  ghost predicate Sound(s: Schema) {
    forall turns, node :: NodeAt(s, turns) == Some(node) ==> NodeIsSound(node)
  }

  /** The load-time check accepts a schema if and only if all its nodes are sound. */
  lemma {:induction false} AcceptedIffSound(s: Schema)
    ensures Accepted(s) <==> Sound(s)
    decreases s
  {
    if s.default.Some? { CheckerIsValidity(s, s.default.value, [], true); }
    if s.properties.Declared? {
      forall key | key in s.properties.of { AcceptedIffSound(s.properties.of[key]); }
    }
    if s.items.Some? { AcceptedIffSound(s.items.value); }
    SoundIs(s);
  }

  lemma SoundIs(s: Schema)
    ensures Sound(s) <==>
            && NodeIsSound(s) && (s.properties.Declared? ==> forall key :: key in s.properties.of ==> Sound(s.properties.of[key]))
            && (s.items.Some? ==> Sound(s.items.value))
  {
    if Sound(s) {
      SoundBelow(s);
    } else {
      var turns, node :| NodeAt(s, turns) == Some(node) && !NodeIsSound(node);
      if turns != [] { StepDown(s, turns); }
    }
  }

  lemma StepDown(s: Schema, turns: seq<Turn>)
    requires turns != [] && NodeAt(s, turns).Some?
    ensures turns[0].Property? ==>
              s.properties.Declared? && turns[0].key in s.properties.of && NodeAt(s, turns) == NodeAt(s.properties.of[turns[0].key], turns[1..])
    ensures turns[0].Items? ==> s.items.Some? && NodeAt(s, turns) == NodeAt(s.items.value, turns[1..])
  {
  }

  lemma SoundBelow(s: Schema)
    requires Sound(s)
    ensures NodeIsSound(s)
    ensures s.properties.Declared? ==> forall key :: key in s.properties.of ==> Sound(s.properties.of[key])
    ensures s.items.Some? ==> Sound(s.items.value)
  {
    assert NodeAt(s, []) == Some(s);
    if s.properties.Declared? {
      forall key, turns, node | key in s.properties.of && NodeAt(s.properties.of[key], turns) == Some(node) ensures NodeIsSound(node) {
        assert ([Property(key)] + turns)[1..] == turns;
        assert NodeAt(s, [Property(key)] + turns) == Some(node);
      }
    }
    if s.items.Some? {
      forall turns, node | NodeAt(s.items.value, turns) == Some(node) ensures NodeIsSound(node) {
        assert ([Items] + turns)[1..] == turns;
        assert NodeAt(s, [Items] + turns) == Some(node);
      }
    }
  }
}
