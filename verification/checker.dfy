/** The schema checker as it runs: one issue list that every node appends to, members visited one at a time. */
module Checker {
  import opened Keys
  import opened Schemas
  import opened SchemaProofs

  datatype Validation = Ok(data: Value) | Rejected(issues: seq<Issue>)

  function Found(issues: seq<Issue>): set<Issue> {
    if issues == [] then {} else Found(issues[..|issues| - 1]) + {issues[|issues| - 1]}
  }

  // ---- what has been done after the first `n` keys ----

  predicate InOrder(s: Schema, order: seq<string>) {
    s.properties.Declared? && forall k :: 0 <= k < |order| ==> order[k] in s.properties.of
  }

  function DefaultedOf(s: Schema, o: map<string, Value>, order: seq<string>, n: nat): map<string, Value>
    requires InOrder(s, order) && n <= |order|
  {
    if n == 0 then o
    else
      var before, default := DefaultedOf(s, o, order, n - 1), s.properties.of[order[n - 1]].default;
      if order[n - 1] !in before && default.Some? then before[order[n - 1] := default.value] else before
  }

  function FilledOf(s: Schema, base: map<string, Value>, fill: bool, order: seq<string>, n: nat): map<string, Value>
    requires InOrder(s, order) && n <= |order|
  {
    if n == 0 then base
    else
      var before, key := FilledOf(s, base, fill, order, n - 1), order[n - 1];
      if key in before then before[key := Effective(s.properties.of[key], before[key], fill)] else before
  }

  function IssuesOf(s: Schema, base: map<string, Value>, path: Path, fill: bool, order: seq<string>, n: nat): set<Issue>
    requires InOrder(s, order) && n <= |order|
  {
    if n == 0 then {}
    else
      var key := order[n - 1];
      IssuesOf(s, base, path, fill, order, n - 1)
      + (if key in base then Issues(s.properties.of[key], base[key], path + [Key(key)], fill) else {})
  }

  function ItemIssuesOf(s: Schema, a: seq<Value>, path: Path, fill: bool, n: nat): set<Issue>
    requires s.items.Some? && n <= |a|
  {
    if n == 0 then {}
    else ItemIssuesOf(s, a, path, fill, n - 1) + Issues(s.items.value, a[n - 1], path + [Index(n - 1)], fill)
  }

  function MissingOf(s: Schema, o: map<string, Value>, path: Path, n: nat): set<Issue>
    requires n <= |s.required|
  {
    if n == 0 then {}
    else MissingOf(s, o, path, n - 1) + (if s.required[n - 1] !in o then {Issue(path + [Key(s.required[n - 1])], Missing)} else {})
  }

  function UnknownOf(s: Schema, path: Path, order: seq<string>, n: nat): set<Issue>
    requires n <= |order|
  {
    if n == 0 then {}
    else UnknownOf(s, path, order, n - 1) + (if !Declares(s, order[n - 1]) then {Issue(path + [Key(order[n - 1])], Unknown)} else {})
  }

  // ---- and after all of them ----

  lemma {:induction false} DefaultedSoFar(s: Schema, o: map<string, Value>, order: seq<string>, n: nat, key: string)
    requires InOrder(s, order) && n <= |order|
    ensures var r := DefaultedOf(s, o, order, n);
            && (key in r <==> key in o || (key in order[..n] && s.properties.of[key].default.Some?))
            && (key in r ==> r[key] == if key in o then o[key] else s.properties.of[key].default.value)
  {
    if n > 0 {
      DefaultedSoFar(s, o, order, n - 1, key);
      DefaultedSoFar(s, o, order, n - 1, order[n - 1]);
      assert order[..n] == order[..n - 1] + [order[n - 1]];
    }
  }

  lemma DefaultedAll(s: Schema, o: map<string, Value>, order: seq<string>)
    requires s.properties.Declared? && IsOrder(s.properties.of, order)
    ensures DefaultedOf(s, o, order, |order|) == Defaulted(s, o)
  {
    var r := DefaultedOf(s, o, order, |order|);
    assert order[..|order|] == order;
    forall key ensures key in r <==> key in Defaulted(s, o)
               ensures key in r ==> r[key] == Defaulted(s, o)[key] {
      DefaultedSoFar(s, o, order, |order|, key);
    }
  }

  lemma {:induction false} FilledSoFar(s: Schema, base: map<string, Value>, fill: bool, order: seq<string>, n: nat, key: string)
    requires s.properties.Declared? && IsOrder(s.properties.of, order) && n <= |order|
    ensures var r := FilledOf(s, base, fill, order, n);
            && r.Keys == base.Keys
            && (key in r ==> r[key] == if key in order[..n] then Effective(s.properties.of[key], base[key], fill) else base[key])
  {
    if n > 0 {
      FilledSoFar(s, base, fill, order, n - 1, key);
      assert order[..n] == order[..n - 1] + [order[n - 1]];
      assert order[n - 1] !in order[..n - 1];
    }
  }

  /** The checked members make up the value of the node. */
  lemma FilledAll(s: Schema, v: Value, fill: bool, order: seq<string>)
    requires Allowed(s, v) && OpensObject(s, v)
    requires s.properties.Declared? && IsOrder(s.properties.of, order)
    ensures Effective(s, v, fill) == Obj(FilledOf(s, if fill then Defaulted(s, v.o) else v.o, fill, order, |order|))
  {
    var base := if fill then Defaulted(s, v.o) else v.o;
    var r := FilledOf(s, base, fill, order, |order|);
    FilledMembers(s, v);
    assert order[..|order|] == order;
    FilledSoFar(s, base, fill, order, |order|, "");
    forall key | key in base ensures r[key] == Effective(s, v, fill).o[key] {
      FilledSoFar(s, base, fill, order, |order|, key);
    }
    assert r == Effective(s, v, fill).o;
  }

  lemma {:induction false} IssuesSoFar(s: Schema, base: map<string, Value>, path: Path, fill: bool, order: seq<string>, n: nat, issue: Issue)
    requires InOrder(s, order) && n <= |order|
    ensures issue in IssuesOf(s, base, path, fill, order, n)
       <==> exists k :: 0 <= k < n && order[k] in base && issue in Issues(s.properties.of[order[k]], base[order[k]], path + [Key(order[k])], fill)
  {
    if n > 0 { IssuesSoFar(s, base, path, fill, order, n - 1, issue); }
  }

  lemma {:induction false} ItemIssuesSoFar(s: Schema, a: seq<Value>, path: Path, fill: bool, n: nat, issue: Issue)
    requires s.items.Some? && n <= |a|
    ensures issue in ItemIssuesOf(s, a, path, fill, n)
       <==> exists i :: 0 <= i < n && issue in Issues(s.items.value, a[i], path + [Index(i)], fill)
  {
    if n > 0 { ItemIssuesSoFar(s, a, path, fill, n - 1, issue); }
  }

  lemma ItemIssuesAll(s: Schema, a: seq<Value>, path: Path, fill: bool)
    requires s.items.Some?
    ensures ItemIssuesOf(s, a, path, fill, |a|) == ItemIssues(s, a, path, fill)
  {
    forall issue ensures issue in ItemIssuesOf(s, a, path, fill, |a|) <==> issue in ItemIssues(s, a, path, fill) {
      ItemIssuesSoFar(s, a, path, fill, |a|, issue);
    }
  }

  lemma {:induction false} MissingSoFar(s: Schema, o: map<string, Value>, path: Path, n: nat, issue: Issue)
    requires n <= |s.required|
    ensures issue in MissingOf(s, o, path, n)
       <==> exists k :: 0 <= k < n && s.required[k] !in o && issue == Issue(path + [Key(s.required[k])], Missing)
  {
    if n > 0 { MissingSoFar(s, o, path, n - 1, issue); }
  }

  lemma {:induction false} UnknownSoFar(s: Schema, path: Path, order: seq<string>, n: nat, issue: Issue)
    requires n <= |order|
    ensures issue in UnknownOf(s, path, order, n)
       <==> exists k :: 0 <= k < n && !Declares(s, order[k]) && issue == Issue(path + [Key(order[k])], Unknown)
  {
    if n > 0 { UnknownSoFar(s, path, order, n - 1, issue); }
  }

  lemma MissingAll(s: Schema, o: map<string, Value>, path: Path)
    ensures MissingOf(s, o, path, |s.required|) == MissingIssues(s, o, path)
  {
    forall issue ensures issue in MissingOf(s, o, path, |s.required|) <==> issue in MissingIssues(s, o, path) {
      MissingSoFar(s, o, path, |s.required|, issue);
      if key :| key in s.required && key !in o && issue == Issue(path + [Key(key)], Missing) {
        var k :| 0 <= k < |s.required| && s.required[k] == key;
      }
    }
  }

  lemma UnknownAll(s: Schema, o: map<string, Value>, path: Path, order: seq<string>)
    requires IsOrder(o, order) && s.closed
    ensures UnknownOf(s, path, order, |order|) == UnknownIssues(s, o, path)
  {
    forall issue ensures issue in UnknownOf(s, path, order, |order|) <==> issue in UnknownIssues(s, o, path) {
      UnknownSoFar(s, path, order, |order|, issue);
      if key :| key in o && !Declares(s, key) && issue == Issue(path + [Key(key)], Unknown) {
        var k :| 0 <= k < |order| && order[k] == key;
      }
    }
  }

  lemma PropertiesAll(s: Schema, base: map<string, Value>, path: Path, fill: bool, order: seq<string>)
    requires s.properties.Declared? && IsOrder(s.properties.of, order)
    ensures IssuesOf(s, base, path, fill, order, |order|) == PropertyIssues(s, base, path, fill)
  {
    forall issue ensures issue in PropertyIssues(s, base, path, fill) <==> issue in IssuesOf(s, base, path, fill, order, |order|) {
      IssuesSoFar(s, base, path, fill, order, |order|, issue);
      if key :| key in s.properties.of && key in base && issue in Issues(s.properties.of[key], base[key], path + [Key(key)], fill) {
        var k :| 0 <= k < |order| && order[k] == key;
      }
    }
  }

  lemma ItemsAll(s: Schema, v: Value, fill: bool, a: seq<Value>)
    requires Allowed(s, v) && OpensArray(s, v) && |a| == |v.a|
    requires forall i :: 0 <= i < |a| ==> a[i] == Effective(s.items.value, v.a[i], fill)
    ensures Effective(s, v, fill) == Arr(a)
  {
    FillKind(s, v);
    assert Effective(s, v, fill).a == a;
  }

  lemma SameMembers(s: Schema, v: Value, fill: bool)
    requires Allowed(s, v) && OpensObject(s, v) && s.properties.Undeclared?
    ensures Effective(s, v, fill) == v && Defaulted(s, v.o) == v.o
  {
    FilledMembers(s, v);
    assert fill ==> Effective(s, v, fill).o == v.o;
  }

  lemma WrongTypeIsNotFilled(s: Schema, v: Value)
    requires s.typ.Some? && !HasType(s.typ.value, v)
    ensures Fill(s, v) == v
  {
  }

  // ---- the checker ----

  /** Absent members are filled from their defaults; present ones are never overwritten. */
  method ApplyDefaults(s: Schema, o: map<string, Value>) returns (out: map<string, Value>)
    ensures out == Defaulted(s, o)
  {
    out := o;
    if s.properties.Declared? {
      var order := KeysOf(s.properties.of);
      var n := 0;
      while n < |order|
        invariant 0 <= n <= |order| && out == DefaultedOf(s, o, order, n)
      {
        if order[n] !in out && s.properties.of[order[n]].default.Some? {
          out := out[order[n] := s.properties.of[order[n]].default.value];
        }
        n := n + 1;
      }
      DefaultedAll(s, o, order);
    }
  }

  class IssueList {
    var issues: seq<Issue>

    constructor ()
      ensures issues == []
    {
      issues := [];
    }

    method Push(path: Path, kind: Kind)
      modifies this
      ensures issues == old(issues) + [Issue(path, kind)]
      ensures Found(issues) == Found(old(issues)) + {Issue(path, kind)}
    {
      issues := issues + [Issue(path, kind)];
      assert issues[..|issues| - 1] == old(issues);
    }

    /** Checks one node: reports its issues and returns its value, filled when defaults are applied. */
    method CheckNode(s: Schema, v: Value, path: Path, fill: bool) returns (out: Value)
      modifies this
      ensures Found(issues) == Found(old(issues)) + Issues(s, v, path, fill)
      ensures old(issues) <= issues
      ensures out == Effective(s, v, fill)
      decreases s, 1
    {
      out := v;
      if !Allowed(s, v) {
        Push(path, NotInEnum);
        return;
      }
      if s.typ.Some? && !HasType(s.typ.value, v) {
        Push(path, WrongType);
        WrongTypeIsNotFilled(s, v);
        return;
      }
      CheckBounds(s, v, path);
      if OpensObject(s, v) {
        out := CheckObject(s, v, path, fill);
      } else if OpensArray(s, v) {
        out := CheckItems(s, v, path, fill);
      }
    }

    method CheckBounds(s: Schema, v: Value, path: Path)
      modifies this
      ensures Found(issues) == Found(old(issues)) + BoundIssues(s, v, path) && old(issues) <= issues
    {
      if TooLowFor(s, v) {
        Push(path, TooLow);
      }
      if TooHighFor(s, v) {
        Push(path, TooHigh);
      }
    }

    method CheckItems(s: Schema, v: Value, path: Path, fill: bool) returns (out: Value)
      requires Allowed(s, v) && OpensArray(s, v)
      modifies this
      ensures Found(issues) == Found(old(issues)) + ItemIssues(s, v.a, path, fill)
      ensures old(issues) <= issues
      ensures out == Effective(s, v, fill)
      decreases s, 0
    {
      var a := [];
      ghost var before := issues;
      while |a| < |v.a|
        invariant |a| <= |v.a| && before <= issues
        invariant forall i :: 0 <= i < |a| ==> a[i] == Effective(s.items.value, v.a[i], fill)
        invariant Found(issues) == Found(before) + ItemIssuesOf(s, v.a, path, fill, |a|)
      {
        var item := CheckNode(s.items.value, v.a[|a|], path + [Index(|a|)], fill);
        a := a + [item];
      }
      ItemIssuesAll(s, v.a, path, fill);
      ItemsAll(s, v, fill, a);
      out := Arr(a);
    }

    method CheckObject(s: Schema, v: Value, path: Path, fill: bool) returns (out: Value)
      requires Allowed(s, v) && OpensObject(s, v)
      modifies this
      ensures Found(issues) == Found(old(issues)) + ObjectIssues(s, if fill then Defaulted(s, v.o) else v.o, path, fill)
      ensures old(issues) <= issues
      ensures out == Effective(s, v, fill)
      decreases s, 0, 1
    {
      var base := v.o;
      if fill {
        base := ApplyDefaults(s, v.o);
      }
      CheckRequired(s, base, path);
      var o := base;
      if s.properties.Declared? {
        o := CheckProperties(s, v, base, path, fill);
      } else {
        SameMembers(s, v, fill);
      }
      if s.closed {
        CheckUnknown(s, o, path);
        assert UnknownIssues(s, o, path) == UnknownIssues(s, base, path);
      }
      out := Obj(o);
    }

    method CheckRequired(s: Schema, o: map<string, Value>, path: Path)
      modifies this
      ensures Found(issues) == Found(old(issues)) + MissingIssues(s, o, path)
      ensures old(issues) <= issues
    {
      ghost var before := issues;
      var n := 0;
      while n < |s.required|
        invariant 0 <= n <= |s.required| && before <= issues
        invariant Found(issues) == Found(before) + MissingOf(s, o, path, n)
      {
        if s.required[n] !in o {
          Push(path + [Key(s.required[n])], Missing);
        }
        n := n + 1;
      }
      MissingAll(s, o, path);
    }

    method CheckProperties(s: Schema, v: Value, base: map<string, Value>, path: Path, fill: bool) returns (out: map<string, Value>)
      requires s.properties.Declared? && Allowed(s, v) && OpensObject(s, v) && base == if fill then Defaulted(s, v.o) else v.o
      modifies this
      ensures Found(issues) == Found(old(issues)) + PropertyIssues(s, base, path, fill)
      ensures old(issues) <= issues
      ensures Effective(s, v, fill) == Obj(out) && out.Keys == base.Keys
      decreases s, 0, 0
    {
      var order := KeysOf(s.properties.of);
      ghost var before := issues;
      out := base;
      var n := 0;
      while n < |order|
        invariant 0 <= n <= |order| && before <= issues && out.Keys == base.Keys
        invariant out == FilledOf(s, base, fill, order, n)
        invariant Found(issues) == Found(before) + IssuesOf(s, base, path, fill, order, n)
      {
        var key := order[n];
        if key in out {
          FilledSoFar(s, base, fill, order, n, key);
          var checked := CheckNode(s.properties.of[key], out[key], path + [Key(key)], fill);
          out := out[key := checked];
        }
        n := n + 1;
      }
      PropertiesAll(s, base, path, fill, order);
      FilledAll(s, v, fill, order);
    }

    method CheckUnknown(s: Schema, o: map<string, Value>, path: Path)
      requires s.closed
      modifies this
      ensures Found(issues) == Found(old(issues)) + UnknownIssues(s, o, path)
      ensures old(issues) <= issues
    {
      var order := KeysOf(o);
      ghost var before := issues;
      var n := 0;
      while n < |order|
        invariant 0 <= n <= |order| && before <= issues
        invariant Found(issues) == Found(before) + UnknownOf(s, path, order, n)
      {
        if !Declares(s, order[n]) {
          Push(path + [Key(order[n])], Unknown);
        }
        n := n + 1;
      }
      UnknownAll(s, o, path, order);
    }
  }

  /** The public check: accepted exactly when the filled value is valid, and then with that value. */
  method ValidateInput(s: Schema, data: Value) returns (r: Validation)
    ensures r.Ok? <==> Valid(s, Fill(s, data))
    ensures r.Ok? ==> r.data == Fill(s, data)
    ensures r.Rejected? ==> Found(r.issues) == Issues(s, data, [], true)
  {
    var list := new IssueList();
    var effective := list.CheckNode(s, data, [], true);
    CheckerIsValidity(s, data, [], true);
    if |list.issues| > 0 {
      return Rejected(list.issues);
    }
    r := Ok(effective);
  }

  method ApplyInputDefaults(s: Schema, data: Value) returns (out: Value)
    ensures out == Fill(s, data)
  {
    var list := new IssueList();
    out := list.CheckNode(s, data, [], true);
  }

  /** The load-time check of a schema: it descends first, and then tries each default on its own node. */
  method Walk(s: Schema) returns (ok: bool)
    ensures ok <==> Accepted(s)
    decreases s
  {
    if s.properties.Declared? {
      ok := WalkProperties(s);
      if !ok {
        return;
      }
    }
    if s.items.Some? {
      ok := Walk(s.items.value);
      if !ok {
        return;
      }
    }
    if s.default.Some? {
      var r := ValidateInput(s, s.default.value);
      CheckerIsValidity(s, s.default.value, [], true);
      return r.Ok?;
    }
    ok := true;
  }

  method WalkProperties(s: Schema) returns (ok: bool)
    requires s.properties.Declared?
    ensures ok <==> (forall key :: key in s.properties.of ==> Accepted(s.properties.of[key]))
                    && (forall key :: key in s.required ==> key in s.properties.of)
    decreases s, 0
  {
    var order := KeysOf(s.properties.of);
    var n := 0;
    while n < |order|
      invariant 0 <= n <= |order| && forall k :: 0 <= k < n ==> Accepted(s.properties.of[order[k]])
    {
      ok := Walk(s.properties.of[order[n]]);
      if !ok {
        return;
      }
      n := n + 1;
    }
    n := 0;
    while n < |s.required|
      invariant 0 <= n <= |s.required| && forall k :: 0 <= k < n ==> s.required[k] in s.properties.of
    {
      if s.required[n] !in s.properties.of {
        return false;
      }
      n := n + 1;
    }
    ok := true;
  }
}
