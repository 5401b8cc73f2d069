/** Run-parameter schemas: the checker, the filling of defaults and the load-time check of a schema. */
module Schemas {
  import opened Records

  /** A JSON value. A string is the sequence of its UTF-16 units. */
  datatype Value = Null | Bool(b: bool) | Num(n: real) | Str(s: string) | Arr(a: seq<Value>) | Obj(o: map<string, Value>)

  datatype Type = TString | TNumber | TInteger | TBoolean | TNull | TArray | TObject

  datatype Properties = Undeclared | Declared(of: map<string, Schema>)

  datatype Bounds = Bounds(minimum: Option<real>, maximum: Option<real>, minLength: Option<real>, maxLength: Option<real>,
                           minItems: Option<real>, maxItems: Option<real>)

  /** A schema node whose keywords have the shapes they should have. */
  datatype Schema = Schema(
    typ: Option<Type>,
    enum: Option<seq<Value>>,
    bounds: Bounds,
    properties: Properties,
    required: seq<string>,
    closed: bool,               // additionalProperties is false
    items: Option<Schema>,
    default: Option<Value>)

  datatype Segment = Key(key: string) | Index(index: nat)

  type Path = seq<Segment>

  datatype Kind = NotInEnum | WrongType | TooLow | TooHigh | Missing | Unknown

  datatype Issue = Issue(path: Path, kind: Kind)

  // ---- single keywords ----

  /** `===` between a literal and a value; objects and arrays are compared by reference, so never equal here. */
  predicate StrictlyEqual(allowed: Value, value: Value) {
    allowed == value && !value.Arr? && !value.Obj?
  }

  predicate Allowed(s: Schema, v: Value) {
    s.enum.Some? ==> exists k :: 0 <= k < |s.enum.value| && StrictlyEqual(s.enum.value[k], v)
  }

  predicate HasType(t: Type, v: Value) {
    match t
    case TString => v.Str?
    case TNumber => v.Num?
    case TInteger => v.Num? && v.n == v.n.Floor as real
    case TBoolean => v.Bool?
    case TNull => v.Null?
    case TArray => v.Arr?
    case TObject => v.Obj?
  }

  predicate Below(limit: Option<real>, x: real) {
    limit.Some? && x < limit.value
  }

  predicate Above(limit: Option<real>, x: real) {
    limit.Some? && x > limit.value
  }

  /** The bounds of a typed node apply to the values of its type only. */
  predicate TooLowFor(s: Schema, v: Value) {
    s.typ.Some? &&
    match s.typ.value
    case TString => v.Str? && Below(s.bounds.minLength, |v.s| as real)
    case TNumber | TInteger => v.Num? && Below(s.bounds.minimum, v.n)
    case TArray => v.Arr? && Below(s.bounds.minItems, |v.a| as real)
    case _ => false
  }

  predicate TooHighFor(s: Schema, v: Value) {
    s.typ.Some? &&
    match s.typ.value
    case TString => v.Str? && Above(s.bounds.maxLength, |v.s| as real)
    case TNumber | TInteger => v.Num? && Above(s.bounds.maximum, v.n)
    case TArray => v.Arr? && Above(s.bounds.maxItems, |v.a| as real)
    case _ => false
  }

  /** The node looks into the members of an object: always when its type says so, else only with declared properties. */
  predicate OpensObject(s: Schema, v: Value) {
    v.Obj? && (if s.typ.None? then s.properties.Declared? else s.typ.value == TObject)
  }

  predicate OpensArray(s: Schema, v: Value) {
    v.Arr? && s.items.Some? && (s.typ.None? || s.typ.value == TArray)
  }

  predicate Declares(s: Schema, key: string) {
    s.properties.Declared? && key in s.properties.of
  }

  predicate DeclaresDefault(s: Schema, key: string) {
    Declares(s, key) && s.properties.of[key].default.Some?
  }

  // ---- filling ----

  /** The members of an object once the absent ones are filled from their own defaults. */
  function Defaulted(s: Schema, o: map<string, Value>): map<string, Value> {
    if s.properties.Undeclared? then o
    else
      map key | key in o.Keys + s.properties.of.Keys && (key in o || s.properties.of[key].default.Some?) ::
        if key in o then o[key] else s.properties.of[key].default.value
  }

  function Fill(s: Schema, v: Value): Value
    decreases s
  {
    if !Allowed(s, v) then v
    else if OpensObject(s, v) then
      var base := Defaulted(s, v.o);
      Obj(map key | key in base :: if Declares(s, key) then Fill(s.properties.of[key], base[key]) else base[key])
    else if OpensArray(s, v) then
      Arr(seq(|v.a|, i requires 0 <= i < |v.a| => Fill(s.items.value, v.a[i])))
    else v
  }

  // ---- the accumulating check ----

  /** The issues of a value at a path, with or without the filling of defaults. */
  function Issues(s: Schema, v: Value, path: Path, fill: bool): set<Issue>
    decreases s, 2
  {
    if !Allowed(s, v) then {Issue(path, NotInEnum)}
    else if s.typ.Some? && !HasType(s.typ.value, v) then {Issue(path, WrongType)}
    else
      BoundIssues(s, v, path)
      + (if OpensObject(s, v) then ObjectIssues(s, if fill then Defaulted(s, v.o) else v.o, path, fill)
         else if OpensArray(s, v) then ItemIssues(s, v.a, path, fill)
         else {})
  }

  function ObjectIssues(s: Schema, o: map<string, Value>, path: Path, fill: bool): set<Issue>
    decreases s, 1
  {
    MissingIssues(s, o, path) + PropertyIssues(s, o, path, fill) + UnknownIssues(s, o, path)
  }

  function PropertyIssues(s: Schema, o: map<string, Value>, path: Path, fill: bool): set<Issue>
    decreases s, 0
  {
    if s.properties.Undeclared? then {}
    else
      set key, issue |
        key in s.properties.of.Keys && key in o && issue in Issues(s.properties.of[key], o[key], path + [Key(key)], fill) :: issue
  }

  function ItemIssues(s: Schema, a: seq<Value>, path: Path, fill: bool): set<Issue>
    requires s.items.Some?
    decreases s, 0
  {
    set i, issue | 0 <= i < |a| && issue in Issues(s.items.value, a[i], path + [Index(i)], fill) :: issue
  }

  function BoundIssues(s: Schema, v: Value, path: Path): set<Issue> {
    (if TooLowFor(s, v) then {Issue(path, TooLow)} else {}) + (if TooHighFor(s, v) then {Issue(path, TooHigh)} else {})
  }

  function MissingIssues(s: Schema, o: map<string, Value>, path: Path): set<Issue> {
    set key | key in s.required && key !in o :: Issue(path + [Key(key)], Missing)
  }

  function UnknownIssues(s: Schema, o: map<string, Value>, path: Path): set<Issue> {
    if s.closed then set key | key in o && !Declares(s, key) :: Issue(path + [Key(key)], Unknown) else {}
  }

  // ---- what the keywords mean ----

  predicate Within(low: Option<real>, x: real, high: Option<real>) {
    (low.Some? ==> low.value <= x) && (high.Some? ==> x <= high.value)
  }

  /**
   * Validity by the keywords (section 6 of the JSON Schema validation vocabulary, draft 2020-12), with no
   * filling and no accumulation. Without `type`, only declared properties and items are looked into.
   */
  ghost predicate Valid(s: Schema, v: Value)
    decreases s, 1
  {
    && (s.enum.Some? ==> v in s.enum.value && !v.Obj? && !v.Arr?)
    && match s.typ
       case None =>
         && (v.Obj? && s.properties.Declared? ==> ValidMembers(s, v.o))
         && (v.Arr? ==> ValidItems(s, v.a))
       case Some(TString) => v.Str? && Within(s.bounds.minLength, |v.s| as real, s.bounds.maxLength)
       case Some(TNumber) => v.Num? && Within(s.bounds.minimum, v.n, s.bounds.maximum)
       case Some(TInteger) => v.Num? && v.n == v.n.Floor as real && Within(s.bounds.minimum, v.n, s.bounds.maximum)
       case Some(TBoolean) => v.Bool?
       case Some(TNull) => v.Null?
       case Some(TArray) => v.Arr? && Within(s.bounds.minItems, |v.a| as real, s.bounds.maxItems) && ValidItems(s, v.a)
       case Some(TObject) => v.Obj? && ValidMembers(s, v.o)
  }

  ghost predicate ValidMembers(s: Schema, o: map<string, Value>)
    decreases s, 0
  {
    && (forall key :: key in s.required ==> key in o)
    && (s.closed ==> forall key :: key in o ==> s.properties.Declared? && key in s.properties.of)
    && (s.properties.Declared? ==> forall key :: key in s.properties.of && key in o ==> Valid(s.properties.of[key], o[key]))
  }

  ghost predicate ValidItems(s: Schema, a: seq<Value>)
    decreases s, 0
  {
    s.items.Some? ==> forall i :: 0 <= i < |a| ==> Valid(s.items.value, a[i])
  }

  /** What `walk` accepts: required names are declared, defaults fit their own node, all the way down. */
  ghost predicate Accepted(s: Schema)
    decreases s
  {
    && (s.properties.Declared? ==>
          && (forall key :: key in s.properties.of ==> Accepted(s.properties.of[key]))
          && (forall key :: key in s.required ==> key in s.properties.of))
    && (s.items.Some? ==> Accepted(s.items.value))
    && (s.default.Some? ==> Issues(s, s.default.value, [], true) == {})
  }
}
