/** Query conditions (internal/match/prepared.go): preparing a condition tree once,
    matching it per document, and what NOT means over groups and wildcard paths
    (docs/cloud-parity/path-grammar.md, e2e/parity/negation.go). */
module Conditions {
  import opened Json

  // --- paths -------------------------------------------------------------

  /** `.name`, `[*]` and `[i]`. */
  datatype Hop = Name(name: string) | Each | At(index: nat)

  function Child(v: Option<Value>, name: string): Option<Value> {
    if v.Some? && v.value.Obj? && name in v.value.fields then Some(v.value.fields[name]) else None
  }

  function Element(v: Option<Value>, i: nat): Option<Value> {
    if v.Some? && v.value.Arr? && i < |v.value.elems| then Some(v.value.elems[i]) else None
  }

  function Elements(v: Option<Value>): seq<Value> {
    if v.Some? && v.value.Arr? then v.value.elems else []
  }

  /** The values a path addresses. A named or positional hop addresses one value,
      possibly absent; a wildcard hop addresses each element of an array. */
  function Resolve(v: Option<Value>, hops: seq<Hop>): seq<Option<Value>>
    decreases |hops|, 1, 0
  {
    if hops == [] then [v]
    else
      match hops[0]
      case Name(name) => Resolve(Child(v, name), hops[1..])
      case At(i) => Resolve(Element(v, i), hops[1..])
      case Each => ResolveEach(Elements(v), hops[1..])
  }

  function ResolveEach(vs: seq<Value>, hops: seq<Hop>): seq<Option<Value>>
    decreases |hops|, 2, |vs|
  {
    if vs == [] then [] else Resolve(Some(vs[0]), hops) + ResolveEach(vs[1..], hops)
  }

  /** A path without wildcards addresses exactly one value. */
  lemma {:induction false} PlainPathAddressesOne(v: Option<Value>, hops: seq<Hop>)
    requires Each !in hops
    ensures |Resolve(v, hops)| == 1
    decreases |hops|
  {
    if hops != [] {
      match hops[0] {
        case Name(name) => PlainPathAddressesOne(Child(v, name), hops[1..]);
        case At(i) => PlainPathAddressesOne(Element(v, i), hops[1..]);
      }
    }
  }

  // --- tests -------------------------------------------------------------

  /** What an operator and its operand test of one addressed value: a comparison,
      its negative twin (EQUALS and NOT_EQUAL, say), or presence. */
  datatype Test = Holds(on: Value -> bool) | Differs(on: Value -> bool) | IsNull | NotNull

  predicate Absent(v: Option<Value>) { v.None? || v.value.Null? }

  /** A missing or null value satisfies no comparison, negative ones included. */
  predicate Eval(t: Test, v: Option<Value>) {
    match t
    case Holds(on) => !Absent(v) && on(v.value)
    case Differs(on) => !Absent(v) && !on(v.value)
    case IsNull => Absent(v)
    case NotNull => !Absent(v)
  }

  function Twin(t: Test): Test {
    match t
    case Holds(on) => Differs(on)
    case Differs(on) => Holds(on)
    case IsNull => NotNull
    case NotNull => IsNull
  }

  // --- conditions and their meaning --------------------------------------

  /** A condition as submitted. A leaf whose operator does not exist or whose
      operand fits no declared type carries no test. `Meta` reads a metadata field;
      `temporal` says that its operator is a comparison, a range or a null test. */
  datatype Cond =
    | Simple(path: seq<Hop>, test: Option<Test>)
    | Meta(field: string, test: Option<Test>, temporal: bool)
    | Group(operator: string, conds: seq<Cond>)
    | Function

  datatype Row = Row(doc: Value, meta: map<string, Value>)

  predicate LeafHolds(path: seq<Hop>, t: Test, row: Row) {
    exists v :: v in Resolve(Some(row.doc), path) && Eval(t, v)
  }

  function MetaValue(row: Row, field: string): Option<Value> {
    if field in row.meta then Some(row.meta[field]) else None
  }

  /** previousTransition is another name of a field. */
  function Canonical(field: string): string {
    if field == "previousTransition" then "transitionForLatestSave" else field
  }

  const TIME_FIELDS := {"creationDate", "lastUpdateTime"}
  const TEXT_FIELDS := {"state", "transitionForLatestSave", "transactionId", "id"}

  /** A text or pattern operator on a time: a leaf that never matches, not a fault. */
  predicate TextOnTime(field: string, temporal: bool) {
    field in TIME_FIELDS && !temporal
  }

  /** Can be evaluated at all: every leaf has a field and a test, every group a known
      operator, every NOT exactly one condition. */
  predicate WellFormed(c: Cond)
    decreases c
  {
    match c
    case Simple(path, test) => test.Some? && path != []
    case Meta(field, test, temporal) =>
      && field in TIME_FIELDS + TEXT_FIELDS + {"previousTransition"}
      && (test.Some? || TextOnTime(field, temporal))
    case Group(operator, conds) =>
      && (operator == "AND" || operator == "OR" || (operator == "NOT" && |conds| == 1))
      && forall i :: 0 <= i < |conds| ==> WellFormed(conds[i])
    case Function => false
  }

  /** The meaning of a condition, by logic alone. */
  predicate Means(c: Cond, row: Row)
    requires WellFormed(c)
    decreases c
  {
    match c
    case Simple(path, test) => LeafHolds(path, test.value, row)
    case Meta(field, test, temporal) =>
      !TextOnTime(field, temporal) && Eval(test.value, MetaValue(row, Canonical(field)))
    case Group(operator, conds) =>
      if operator == "AND" then forall i :: 0 <= i < |conds| ==> Means(conds[i], row)
      else if operator == "OR" then exists i :: 0 <= i < |conds| && Means(conds[i], row)
      else !Means(conds[0], row)
  }

  // --- preparing and matching --------------------------------------------

  datatype Node =
    | Never
    | Any(or: bool, children: seq<Node>)
    | Not(child: Node)
    | Leaf(hops: seq<Hop>, test: Test)
    | MetaLeaf(field: string, test: Test)

  datatype Fault = UnevaluableLeaf | UnknownField | BadArity | UnknownOperator | NotImplemented

  datatype Result<T> = Ok(value: T) | Err(fault: Fault)

  function Prepare(c: Cond): Result<Node>
    decreases c, 0
  {
    match c
    case Simple(path, test) =>
      if test.None? || path == [] then Err(UnevaluableLeaf) else Ok(Leaf(path, test.value))
    case Meta(name, test, temporal) =>
      var field := Canonical(name);
      if field in TIME_FIELDS && !temporal then Ok(Never)
      else if field !in TIME_FIELDS && field !in TEXT_FIELDS then Err(UnknownField)
      else if test.None? then Err(UnevaluableLeaf)
      else Ok(MetaLeaf(field, test.value))
    case Function => Err(NotImplemented)
    case Group(operator, conds) =>
      if operator == "AND" || operator == "OR" then
        var children := PrepareAll(conds);
        if children.Err? then Err(children.fault) else Ok(Any(operator == "OR", children.value))
      else if operator == "NOT" then
        if |conds| != 1 then Err(BadArity)
        else
          var child := Prepare(conds[0]);
          if child.Err? then child else Ok(Not(child.value))
      else Err(UnknownOperator)
  }

  function PrepareAll(cs: seq<Cond>): Result<seq<Node>>
    decreases cs, 1
  {
    if cs == [] then Ok([])
    else
      var first := Prepare(cs[0]);
      if first.Err? then Err(first.fault)
      else
        var rest := PrepareAll(cs[1..]);
        if rest.Err? then rest else Ok([first.value] + rest.value)
  }

  /** Matching short-circuits: AND stops at the first failure, OR at the first
      success, a leaf at the first addressed value that satisfies it. */
  method Match(n: Node, row: Row) returns (r: bool)
    ensures r <==> NodeHolds(n, row)
    decreases n
  {
    match n {
      case Never => return false;
      case Any(or, children) =>
        for i := 0 to |children|
          invariant forall j :: 0 <= j < i ==> NodeHolds(children[j], row) == !or
        {
          var one := Match(children[i], row);
          if one == or {
            return or;
          }
        }
        return !or;
      case Not(child) =>
        var one := Match(child, row);
        return !one;
      case Leaf(hops, test) =>
        var vs := Resolve(Some(row.doc), hops);
        for i := 0 to |vs|
          invariant forall j :: 0 <= j < i ==> !Eval(test, vs[j])
        {
          if Eval(test, vs[i]) {
            return true;
          }
        }
        return false;
      case MetaLeaf(field, test) => return Eval(test, MetaValue(row, field));
    }
  }

  predicate NodeHolds(n: Node, row: Row)
    decreases n
  {
    match n
    case Never => false
    case Any(or, children) =>
      if or then exists i :: 0 <= i < |children| && NodeHolds(children[i], row)
      else forall i :: 0 <= i < |children| ==> NodeHolds(children[i], row)
    case Not(child) => !NodeHolds(child, row)
    case Leaf(hops, test) => LeafHolds(hops, test, row)
    case MetaLeaf(field, test) => Eval(test, MetaValue(row, field))
  }

  /** Preparation fails exactly on conditions that are not well formed, never on a
      document; what it prepares matches exactly the rows the condition means. */
  lemma {:induction false} PreparedMeansTheCondition(c: Cond, row: Row)
    ensures Prepare(c).Ok? <==> WellFormed(c)
    ensures WellFormed(c) ==> NodeHolds(Prepare(c).value, row) == Means(c, row)
    decreases c, 0
  {
    if c.Group? {
      if c.operator == "AND" || c.operator == "OR" {
        AllPreparedMean(c.conds, row);
      } else if c.operator == "NOT" && |c.conds| == 1 {
        PreparedMeansTheCondition(c.conds[0], row);
      }
    }
  }

  lemma {:induction false} AllPreparedMean(cs: seq<Cond>, row: Row)
    ensures PrepareAll(cs).Ok? <==> forall i :: 0 <= i < |cs| ==> WellFormed(cs[i])
    ensures PrepareAll(cs).Ok? ==>
      && |PrepareAll(cs).value| == |cs|
      && forall i :: 0 <= i < |cs| ==> NodeHolds(PrepareAll(cs).value[i], row) == Means(cs[i], row)
    decreases cs, 1
  {
    if cs != [] {
      PreparedMeansTheCondition(cs[0], row);
      AllPreparedMean(cs[1..], row);
      assert forall i :: 0 < i < |cs| ==> cs[i] == cs[1..][i - 1];
      assert forall i :: 0 <= i < |cs[1..]| ==> cs[1..][i] == cs[i + 1];
    }
  }

  // --- pushing NOT inwards -----------------------------------------------

  function Negation(c: Cond): Cond { Group("NOT", [c]) }

  /** The condition (or its negation) with every NOT pushed down to the leaves. */
  function Push(c: Cond, negated: bool): (r: Cond)
    requires WellFormed(c)
    ensures WellFormed(r)
    decreases c, 0
  {
    if c.Group? then
      if c.operator == "NOT" then Push(c.conds[0], !negated)
      else Group(if negated == (c.operator == "AND") then "OR" else "AND", PushAll(c.conds, negated))
    else if negated then Negation(c)
    else c
  }

  function PushAll(cs: seq<Cond>, negated: bool): (r: seq<Cond>)
    requires forall i :: 0 <= i < |cs| ==> WellFormed(cs[i])
    ensures |r| == |cs| && forall i :: 0 <= i < |cs| ==> WellFormed(r[i])
    ensures forall i :: 0 <= i < |cs| ==> r[i] == Push(cs[i], negated)
    decreases cs, 1
  {
    if cs == [] then [] else [Push(cs[0], negated)] + PushAll(cs[1..], negated)
  }

  /** NOT stands only over leaves. */
  predicate Normal(c: Cond)
    decreases c
  {
    c.Group? ==>
      if c.operator == "NOT" then |c.conds| == 1 && !c.conds[0].Group?
      else forall i :: 0 <= i < |c.conds| ==> Normal(c.conds[i])
  }

  /** Pushing NOT through groups down to the leaves preserves the verdict, for every
      condition and every row. */
  lemma {:induction false} PushPreserves(c: Cond, negated: bool, row: Row)
    requires WellFormed(c)
    ensures Normal(Push(c, negated))
    ensures Means(Push(c, negated), row) == (Means(c, row) != negated)
    decreases c
  {
    if c.Group? {
      if c.operator == "NOT" {
        PushPreserves(c.conds[0], !negated, row);
      } else {
        var pushed := PushAll(c.conds, negated);
        forall i | 0 <= i < |c.conds|
          ensures Normal(pushed[i]) && Means(pushed[i], row) == (Means(c.conds[i], row) != negated)
        {
          PushPreserves(c.conds[i], negated, row);
        }
      }
    }
  }

  // --- NOT and the negative twin -----------------------------------------

  /** Some addressed value counts for the test: any for presence, a present one for
      a comparison. */
  predicate Counts(t: Test, v: Option<Value>) {
    t.IsNull? || t.NotNull? || !Absent(v)
  }

  /** Negating a leaf and using its negative twin agree exactly when the path
      addresses at least one value that counts and all that count agree. */
  lemma TwinAgreesExactlyWhen(path: seq<Hop>, t: Test, row: Row)
    ensures
      var vs := Resolve(Some(row.doc), path);
      (!LeafHolds(path, t, row) <==> LeafHolds(path, Twin(t), row)) <==>
      && (exists v :: v in vs && Counts(t, v))
      && (forall v, w :: v in vs && w in vs && Counts(t, v) && Counts(t, w) ==> Eval(t, v) == Eval(t, w))
  {
    forall v ensures Eval(Twin(t), v) <==> Counts(t, v) && !Eval(t, v) {
    }
    forall v | Eval(t, v) ensures Counts(t, v) {
    }
  }

  /** On a path without wildcards they agree on presence always, and on comparisons
      exactly when the value is there. */
  lemma TwinOnPlainPath(path: seq<Hop>, t: Test, row: Row)
    requires Each !in path
    ensures |Resolve(Some(row.doc), path)| == 1
    ensures (!LeafHolds(path, t, row) <==> LeafHolds(path, Twin(t), row)) <==>
            Counts(t, Resolve(Some(row.doc), path)[0])
  {
    PlainPathAddressesOne(Some(row.doc), path);
    TwinAgreesExactlyWhen(path, t, row);
    assert forall v :: v in Resolve(Some(row.doc), path) <==> v == Resolve(Some(row.doc), path)[0];
  }

  /** A wildcard after a path addresses every element of every array the path does. */
  lemma {:induction false} EachAddressesElements(v: Option<Value>, path: seq<Hop>, elems: seq<Value>, i: nat)
    requires Some(Arr(elems)) in Resolve(v, path) && i < |elems|
    ensures Some(elems[i]) in Resolve(v, path + [Each])
    decreases |path|, 1, 0
  {
    if path == [] {
      assert path + [Each] == [Each] && [Each][1..] == [];
      ElementIsAddressed(elems, i);
    } else {
      assert (path + [Each])[1..] == path[1..] + [Each];
      match path[0] {
        case Name(name) => EachAddressesElements(Child(v, name), path[1..], elems, i);
        case At(n) => EachAddressesElements(Element(v, n), path[1..], elems, i);
        case Each => EachUnderEach(Elements(v), path[1..], elems, i);
      }
    }
  }

  lemma {:induction false} EachUnderEach(vs: seq<Value>, path: seq<Hop>, elems: seq<Value>, i: nat)
    requires Some(Arr(elems)) in ResolveEach(vs, path) && i < |elems|
    ensures Some(elems[i]) in ResolveEach(vs, path + [Each])
    decreases |path|, 2, |vs|
  {
    if Some(Arr(elems)) in Resolve(Some(vs[0]), path) {
      EachAddressesElements(Some(vs[0]), path, elems, i);
    } else {
      EachUnderEach(vs[1..], path, elems, i);
    }
  }

  lemma {:induction false} ElementIsAddressed(vs: seq<Value>, i: nat)
    requires i < |vs|
    ensures Some(vs[i]) in ResolveEach(vs, [])
    decreases |vs|
  {
    assert Resolve(Some(vs[0]), []) == [Some(vs[0])];
    if i > 0 {
      ElementIsAddressed(vs[1..], i - 1);
    }
  }

  /** They differ on mixed elements: wherever a path leads to an array with one element
      that satisfies the test and one that does not, the leaf and its twin both match. */
  lemma TwinDiffersOnMixed(path: seq<Hop>, on: Value -> bool, row: Row, elems: seq<Value>, i: nat, j: nat)
    requires Some(Arr(elems)) in Resolve(Some(row.doc), path) && i < |elems| && j < |elems|
    requires !elems[i].Null? && !elems[j].Null? && on(elems[i]) && !on(elems[j])
    ensures LeafHolds(path + [Each], Holds(on), row) && LeafHolds(path + [Each], Twin(Holds(on)), row)
  {
    EachAddressesElements(Some(row.doc), path, elems, i);
    EachAddressesElements(Some(row.doc), path, elems, j);
    assert Eval(Holds(on), Some(elems[i])) && Eval(Twin(Holds(on)), Some(elems[j]));
  }
}
