/** Theorems about the schema checker: refinement, idempotent filling, minimal extension, waived issues. */
module SchemaProofs {
  import opened Records
  import opened Schemas

  /** Filling changes neither the kind of a value nor the length of an array nor a scalar. */
  lemma FillShape(s: Schema, v: Value)
    ensures Allowed(s, Fill(s, v)) <==> Allowed(s, v)
    ensures s.typ.Some? ==> (HasType(s.typ.value, Fill(s, v)) <==> HasType(s.typ.value, v))
    ensures TooLowFor(s, Fill(s, v)) <==> TooLowFor(s, v)
    ensures TooHighFor(s, Fill(s, v)) <==> TooHighFor(s, v)
    ensures OpensObject(s, Fill(s, v)) <==> OpensObject(s, v)
    ensures OpensArray(s, Fill(s, v)) <==> OpensArray(s, v)
    ensures v.Obj? <==> Fill(s, v).Obj?
    ensures v.Arr? <==> Fill(s, v).Arr?
    ensures !v.Obj? && !v.Arr? ==> Fill(s, v) == v
  {
    FillKind(s, v);
    if s.enum.Some? && Allowed(s, v) { EnumIsScalar(s, v); }
  }

  lemma FillKind(s: Schema, v: Value)
    ensures v.Obj? <==> Fill(s, v).Obj?
    ensures v.Arr? <==> Fill(s, v).Arr?
    ensures v.Arr? ==> |Fill(s, v).a| == |v.a|
    ensures !v.Obj? && !v.Arr? ==> Fill(s, v) == v
    ensures !Allowed(s, v) ==> Fill(s, v) == v
  {
  }

  lemma EnumIsScalar(s: Schema, v: Value)
    requires s.enum.Some? && Allowed(s, v)
    ensures !v.Obj? && !v.Arr?
  {
  }

  lemma FilledMembers(s: Schema, v: Value)
    requires Allowed(s, v) && OpensObject(s, v)
    ensures Fill(s, v).Obj? && Fill(s, v).o.Keys == Defaulted(s, v.o).Keys
    ensures forall key :: key in Defaulted(s, v.o) ==>
              Fill(s, v).o[key] == if Declares(s, key) then Fill(s.properties.of[key], Defaulted(s, v.o)[key]) else Defaulted(s, v.o)[key]
  {
  }

  // ---- the checker refines the keywords ----

  ghost predicate MembersFit(s: Schema, o: map<string, Value>) {
    && (forall key :: key in s.required ==> key in o)
    && (s.closed ==> forall key :: key in o ==> Declares(s, key))
  }

  lemma NoMemberIssues(s: Schema, o: map<string, Value>, path: Path)
    ensures MissingIssues(s, o, path) + UnknownIssues(s, o, path) == {} <==> MembersFit(s, o)
  {
    if key :| key in s.required && key !in o { assert Issue(path + [Key(key)], Missing) in MissingIssues(s, o, path); }
    if key :| s.closed && key in o && !Declares(s, key) { assert Issue(path + [Key(key)], Unknown) in UnknownIssues(s, o, path); }
  }

  lemma NoObjectIssues(s: Schema, o: map<string, Value>, path: Path, fill: bool)
    ensures ObjectIssues(s, o, path, fill) == {}
       <==> MembersFit(s, o)
            && (s.properties.Declared? ==>
                  forall key :: key in s.properties.of && key in o ==> Issues(s.properties.of[key], o[key], path + [Key(key)], fill) == {})
  {
    NoMemberIssues(s, o, path);
    if s.properties.Declared? {
      if key :| key in s.properties.of && key in o && Issues(s.properties.of[key], o[key], path + [Key(key)], fill) != {} {
        var issue :| issue in Issues(s.properties.of[key], o[key], path + [Key(key)], fill);
        assert issue in PropertyIssues(s, o, path, fill);
      }
    }
  }

  lemma NoItemIssues(s: Schema, a: seq<Value>, path: Path, fill: bool)
    requires s.items.Some?
    ensures ItemIssues(s, a, path, fill) == {} <==> forall i :: 0 <= i < |a| ==> Issues(s.items.value, a[i], path + [Index(i)], fill) == {}
  {
    if i :| 0 <= i < |a| && Issues(s.items.value, a[i], path + [Index(i)], fill) != {} {
      var issue :| issue in Issues(s.items.value, a[i], path + [Index(i)], fill);
      assert issue in ItemIssues(s, a, path, fill);
    }
  }

  /** The value the checker returns. */
  function Effective(s: Schema, v: Value, fill: bool): Value {
    if fill then Fill(s, v) else v
  }

  /** The accumulating checker finds nothing exactly when the value it returns is valid. */
  lemma {:induction false} CheckerIsValidity(s: Schema, v: Value, path: Path, fill: bool)
    ensures Issues(s, v, path, fill) == {} <==> Valid(s, Effective(s, v, fill))
    decreases s, 1
  {
    FillShape(s, v);
    KeywordByKeyword(s, Effective(s, v, fill));
    if Allowed(s, v) && OpensObject(s, v) {
      ObjectIsValidity(s, v, path, fill);
    } else if Allowed(s, v) && OpensArray(s, v) {
      ArrayIsValidity(s, v, path, fill);
    }
  }

  /** The tests the checker makes at a node add up to validity. */
  lemma KeywordByKeyword(s: Schema, v: Value)
    ensures Valid(s, v) <==>
            && Allowed(s, v) && (s.typ.Some? ==> HasType(s.typ.value, v)) && !TooLowFor(s, v) && !TooHighFor(s, v)
            && (OpensObject(s, v) ==> ValidMembers(s, v.o)) && (OpensArray(s, v) ==> ValidItems(s, v.a))
  {
    if s.enum.Some? && v in s.enum.value {
      var k :| 0 <= k < |s.enum.value| && s.enum.value[k] == v;
      assert StrictlyEqual(s.enum.value[k], v) <==> !v.Obj? && !v.Arr?;
    }
  }

  lemma {:induction false} ObjectIsValidity(s: Schema, v: Value, path: Path, fill: bool)
    requires Allowed(s, v) && OpensObject(s, v)
    ensures var w := Effective(s, v, fill);
            && w.Obj?
            && (ObjectIssues(s, if fill then Defaulted(s, v.o) else v.o, path, fill) == {}
                <==> ValidMembers(s, w.o))
    decreases s, 0
  {
    var base, w := if fill then Defaulted(s, v.o) else v.o, Effective(s, v, fill);
    FilledMembers(s, v);
    NoObjectIssues(s, base, path, fill);
    if s.properties.Declared? {
      forall key | key in s.properties.of && key in base
        ensures Issues(s.properties.of[key], base[key], path + [Key(key)], fill) == {} <==> Valid(s.properties.of[key], w.o[key])
      {
        CheckerIsValidity(s.properties.of[key], base[key], path + [Key(key)], fill);
      }
    }
  }

  lemma {:induction false} ArrayIsValidity(s: Schema, v: Value, path: Path, fill: bool)
    requires Allowed(s, v) && OpensArray(s, v)
    ensures var w := Effective(s, v, fill);
            w.Arr? && (ItemIssues(s, v.a, path, fill) == {} <==> ValidItems(s, w.a))
    decreases s, 0
  {
    NoItemIssues(s, v.a, path, fill);
    FillKind(s, v);
    forall i | 0 <= i < |v.a|
      ensures Issues(s.items.value, v.a[i], path + [Index(i)], fill) == {} <==> Valid(s.items.value, Effective(s, v, fill).a[i])
    {
      CheckerIsValidity(s.items.value, v.a[i], path + [Index(i)], fill);
    }
  }

  // ---- filling is idempotent ----

  /** Filling a filled value changes nothing, and the checker says the same of both. */
  lemma {:induction false} FillIsIdempotent(s: Schema, v: Value)
    ensures Fill(s, Fill(s, v)) == Fill(s, v)
    decreases s
  {
    FillShape(s, v);
    var w := Fill(s, v);
    if Allowed(s, v) && OpensObject(s, v) {
      FilledMembers(s, v);
      FilledMembers(s, w);
      DefaultedOnce(s, v.o, w.o);
      forall key | key in w.o ensures Fill(s, w).o[key] == w.o[key] {
        if Declares(s, key) { FillIsIdempotent(s.properties.of[key], Defaulted(s, v.o)[key]); }
      }
      assert Fill(s, w).o == w.o;
    } else if Allowed(s, v) && OpensArray(s, v) {
      forall i | 0 <= i < |v.a| ensures Fill(s.items.value, w.a[i]) == w.a[i] {
        FillIsIdempotent(s.items.value, v.a[i]);
      }
      assert Fill(s, w).a == w.a;
    }
  }

  /** Once every default is in place there is none left to fill in. */
  lemma DefaultedOnce(s: Schema, o: map<string, Value>, p: map<string, Value>)
    requires p.Keys == Defaulted(s, o).Keys
    ensures Defaulted(s, p) == p
  {
    if s.properties.Declared? {
      assert forall key :: key in s.properties.of && s.properties.of[key].default.Some? ==> key in Defaulted(s, o);
    }
  }

  /** An accepted value is accepted again, as it is. */
  lemma AcceptedAgain(s: Schema, v: Value)
    requires Issues(s, v, [], true) == {}
    ensures Issues(s, Fill(s, v), [], true) == {} && Fill(s, Fill(s, v)) == Fill(s, v)
  {
    FillIsIdempotent(s, v);
    CheckerIsValidity(s, v, [], true);
    CheckerIsValidity(s, Fill(s, v), [], true);
  }

  // ---- filling is a minimal extension ----

  /** Nothing present is changed, lengths are kept, and what is added is the filled default its schema declares. */
  ghost predicate Extends(s: Schema, v: Value, w: Value)
    decreases s
  {
    v == w
    || (&& v.Obj? && w.Obj?
        && (forall key :: key in v.o ==>
              key in w.o && (if Declares(s, key) then Extends(s.properties.of[key], v.o[key], w.o[key]) else w.o[key] == v.o[key]))
        && (forall key :: key in w.o && key !in v.o ==>
              DeclaresDefault(s, key) && Extends(s.properties.of[key], s.properties.of[key].default.value, w.o[key])))
    || (&& v.Arr? && w.Arr? && |v.a| == |w.a| && s.items.Some?
        && forall i :: 0 <= i < |v.a| ==> Extends(s.items.value, v.a[i], w.a[i]))
  }

  lemma {:induction false} FillExtends(s: Schema, v: Value)
    ensures Extends(s, v, Fill(s, v))
    decreases s
  {
    var w := Fill(s, v);
    if Allowed(s, v) && OpensObject(s, v) {
      FilledMembers(s, v);
      if s.properties.Declared? {
        forall key | key in s.properties.of && key in Defaulted(s, v.o)
          ensures Extends(s.properties.of[key], Defaulted(s, v.o)[key], w.o[key])
        {
          FillExtends(s.properties.of[key], Defaulted(s, v.o)[key]);
        }
      }
    } else if Allowed(s, v) && OpensArray(s, v) {
      forall i | 0 <= i < |v.a| ensures Extends(s.items.value, v.a[i], w.a[i]) {
        FillExtends(s.items.value, v.a[i]);
      }
    }
  }

  /**
   * Exactly what filling does: an object of a node that looks into members gets every declared default it lacks, and only
   * those, and its declared members are filled in turn; the items of an array are filled; nothing else changes.
   */
  ghost predicate IsFilled(s: Schema, v: Value, w: Value)
    decreases s
  {
    if s.enum.Some? && !(v in s.enum.value && !v.Obj? && !v.Arr?) then w == v
    else if v.Obj? && (s.typ == Some(TObject) || (s.typ.None? && s.properties.Declared?)) then
      && w.Obj?
      && (forall key :: key in w.o <==> key in v.o || (s.properties.Declared? && key in s.properties.of && s.properties.of[key].default.Some?))
      && (forall key :: key in w.o && !(s.properties.Declared? && key in s.properties.of) ==> key in v.o && w.o[key] == v.o[key])
      && (s.properties.Declared? ==>
            forall key :: key in s.properties.of && key in w.o ==>
              IsFilled(s.properties.of[key], if key in v.o then v.o[key] else s.properties.of[key].default.value, w.o[key]))
    else if v.Arr? && s.items.Some? && (s.typ.None? || s.typ == Some(TArray)) then
      w.Arr? && |w.a| == |v.a| && forall i :: 0 <= i < |v.a| ==> IsFilled(s.items.value, v.a[i], w.a[i])
    else w == v
  }

  lemma OpensAs(s: Schema, v: Value)
    ensures Allowed(s, v) <==> !(s.enum.Some? && !(v in s.enum.value && !v.Obj? && !v.Arr?))
    ensures OpensObject(s, v) <==> v.Obj? && (s.typ == Some(TObject) || (s.typ.None? && s.properties.Declared?))
  {
    if s.enum.Some? && v in s.enum.value {
      var k :| 0 <= k < |s.enum.value| && s.enum.value[k] == v;
      assert StrictlyEqual(s.enum.value[k], v) <==> !v.Obj? && !v.Arr?;
    }
  }

  lemma {:induction false} FillIs(s: Schema, v: Value, w: Value)
    ensures IsFilled(s, v, w) <==> w == Fill(s, v)
    decreases s
  {
    OpensAs(s, v);
    if Allowed(s, v) && OpensObject(s, v) {
      FilledMembers(s, v);
      if s.properties.Declared? && w.Obj? {
        forall key | key in s.properties.of && key in w.o && key in Defaulted(s, v.o) {
          FillIs(s.properties.of[key], Defaulted(s, v.o)[key], w.o[key]);
        }
      }
      if w.Obj? && IsFilled(s, v, w) { assert w.o == Fill(s, v).o; }
    } else if Allowed(s, v) && OpensArray(s, v) {
      if w.Arr? && |w.a| == |v.a| {
        forall i | 0 <= i < |v.a| { FillIs(s.items.value, v.a[i], w.a[i]); }
        if IsFilled(s, v, w) { assert w.a == Fill(s, v).a; }
      }
    }
  }

  // ---- what filling does to the issues ----

  predicate StartsWith(path: Path, prefix: Path) {
    |prefix| <= |path| && path[..|prefix|] == prefix
  }

  lemma ObjectParts(s: Schema, v: Value, path: Path, fill: bool, issue: Issue)
    requires issue in Issues(s, v, path, fill) && Allowed(s, v) && issue !in BoundIssues(s, v, path) && OpensObject(s, v)
    requires var base := if fill then Defaulted(s, v.o) else v.o;
             s.properties.Undeclared? || issue !in PropertyIssues(s, base, path, fill)
    ensures StartsWith(issue.path, path)
    ensures issue.kind == Missing || issue.kind == Unknown ==> |issue.path| > |path|
  {
    if s.typ.None? || HasType(s.typ.value, v) {
      var base := if fill then Defaulted(s, v.o) else v.o;
      assert issue in ObjectIssues(s, base, path, fill);
      assert s.properties.Undeclared? ==> PropertyIssues(s, base, path, fill) == {};
      assert issue in MissingIssues(s, base, path) || issue in UnknownIssues(s, base, path);
    }
  }

  /** Issues are reported under the path of their node; those about members below it. */
  lemma {:induction false} IssuesUnder(s: Schema, v: Value, path: Path, fill: bool, issue: Issue)
    requires issue in Issues(s, v, path, fill)
    ensures StartsWith(issue.path, path)
    ensures issue.kind == Missing || issue.kind == Unknown ==> |issue.path| > |path|
    decreases s
  {
    if Allowed(s, v) && issue !in BoundIssues(s, v, path) {
      if OpensObject(s, v) {
        var base := if fill then Defaulted(s, v.o) else v.o;
        if s.properties.Declared? && issue in PropertyIssues(s, base, path, fill) {
          var key :| key in s.properties.of && key in base && issue in Issues(s.properties.of[key], base[key], path + [Key(key)], fill);
          IssuesUnder(s.properties.of[key], base[key], path + [Key(key)], fill, issue);
          StepBelow(issue.path, path, Key(key));
        } else {
          ObjectParts(s, v, path, fill, issue);
        }
      } else if OpensArray(s, v) && issue in ItemIssues(s, v.a, path, fill) {
        var i :| 0 <= i < |v.a| && issue in Issues(s.items.value, v.a[i], path + [Index(i)], fill);
        IssuesUnder(s.items.value, v.a[i], path + [Index(i)], fill, issue);
        StepBelow(issue.path, path, Index(i));
      }
    }
  }

  lemma StepBelow(path: Path, prefix: Path, step: Segment)
    requires StartsWith(path, prefix + [step])
    ensures StartsWith(path, prefix) && |path| > |prefix| && path[|prefix|] == step
    ensures path[|prefix|..] == [step] + path[|prefix| + 1..]
  {
    assert path[..|prefix|] == path[..|prefix| + 1][..|prefix|];
    assert path[|prefix|] == path[..|prefix| + 1][|prefix|];
  }

  /** The schema declares a default for the property at this path. */
  predicate HasDefaultAt(s: Schema, path: Path)
    decreases s
  {
    && path != []
    && (if path[0].Key? then
          && Declares(s, path[0].key)
          && (if |path| == 1 then s.properties.of[path[0].key].default.Some? else HasDefaultAt(s.properties.of[path[0].key], path[1..]))
        else s.items.Some? && HasDefaultAt(s.items.value, path[1..]))
  }

  ghost predicate Waived(s: Schema, issue: Issue, depth: nat) {
    issue.kind == Missing && depth <= |issue.path| && HasDefaultAt(s, issue.path[depth..])
  }

  /** For an accepted schema, filling removes the missing properties that have a default, and adds no issue. */
  lemma {:induction false} FillingWaives(s: Schema, v: Value, path: Path, issue: Issue)
    requires Accepted(s)
    ensures issue in Issues(s, v, path, true) <==> issue in Issues(s, v, path, false) && !Waived(s, issue, |path|)
    decreases s, 2
  {
    if !Allowed(s, v) || (s.typ.Some? && !HasType(s.typ.value, v)) {
    } else if OpensObject(s, v) {
      ObjectWaives(s, v, path, issue);
    } else if OpensArray(s, v) {
      ItemsWaive(s, v, path, issue);
    }
  }

  lemma {:induction false} ItemsWaive(s: Schema, v: Value, path: Path, issue: Issue)
    requires Accepted(s) && OpensArray(s, v)
    ensures issue in ItemIssues(s, v.a, path, true) <==> issue in ItemIssues(s, v.a, path, false) && !Waived(s, issue, |path|)
    decreases s, 1
  {
    forall i | 0 <= i < |v.a|
      ensures issue in Issues(s.items.value, v.a[i], path + [Index(i)], true)
         <==> issue in Issues(s.items.value, v.a[i], path + [Index(i)], false) && !Waived(s, issue, |path|)
    {
      FillingWaives(s.items.value, v.a[i], path + [Index(i)], issue);
      if issue in Issues(s.items.value, v.a[i], path + [Index(i)], false) {
        IssuesUnder(s.items.value, v.a[i], path + [Index(i)], false, issue);
        StepBelow(issue.path, path, Index(i));
      }
    }
  }

  lemma {:induction false} ObjectWaives(s: Schema, v: Value, path: Path, issue: Issue)
    requires Accepted(s) && OpensObject(s, v)
    ensures issue in ObjectIssues(s, Defaulted(s, v.o), path, true) <==> issue in ObjectIssues(s, v.o, path, false) && !Waived(s, issue, |path|)
    decreases s, 1
  {
    MembersWaive(s, v.o, path, issue);
    if s.properties.Declared? {
      forall key | key in s.properties.of { PropertyWaives(s, v.o, path, key, issue); }
    }
  }

  /** An absent member with a default is no longer missing; its default raises no issue and is known. */
  lemma MembersWaive(s: Schema, o: map<string, Value>, path: Path, issue: Issue)
    ensures issue in MissingIssues(s, Defaulted(s, o), path) <==> issue in MissingIssues(s, o, path) && !Waived(s, issue, |path|)
    ensures issue in UnknownIssues(s, Defaulted(s, o), path) <==> issue in UnknownIssues(s, o, path)
    ensures issue in UnknownIssues(s, o, path) ==> !Waived(s, issue, |path|)
  {
    if |issue.path| == |path| + 1 && issue.path[..|path|] == path {
      assert issue.path == path + [issue.path[|path|]];
      assert issue.path[|path|..] == [issue.path[|path|]];
    }
  }

  lemma {:induction false} PropertyWaives(s: Schema, o: map<string, Value>, path: Path, key: string, issue: Issue)
    requires Accepted(s) && s.properties.Declared? && key in s.properties.of
    ensures (key in Defaulted(s, o) && issue in Issues(s.properties.of[key], Defaulted(s, o)[key], path + [Key(key)], true))
       <==> (key in o && issue in Issues(s.properties.of[key], o[key], path + [Key(key)], false) && !Waived(s, issue, |path|))
    decreases s, 0
  {
    var child, below := s.properties.of[key], path + [Key(key)];
    if key in o {
      FillingWaives(child, o[key], below, issue);
      if issue in Issues(child, o[key], below, false) {
        IssuesUnder(child, o[key], below, false, issue);
        StepBelow(issue.path, path, Key(key));
      }
    } else if child.default.Some? {
      CheckerIsValidity(child, child.default.value, [], true);
      CheckerIsValidity(child, child.default.value, below, true);
    }
  }

  /** Under an accepted schema a valid value is still valid once it is filled. */
  lemma FillingKeepsValidity(s: Schema, v: Value)
    requires Accepted(s) && Valid(s, v)
    ensures Valid(s, Fill(s, v))
  {
    CheckerIsValidity(s, v, [], false);
    CheckerIsValidity(s, v, [], true);
    if issue :| issue in Issues(s, v, [], true) {
      FillingWaives(s, v, [], issue);
    }
  }
}
