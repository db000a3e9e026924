/** Grouped statistics (plugins/memory/grouped_stats.go GroupedAggregate): one pass
    over the matching entities, tallying a bucket per group key, and the laws its
    result obeys (e2e/parity/grouped_stats.go). */
module GroupedStats {
  import opened Json
  import opened Deviation
  import opened GroupKeys

  datatype Item = Item(state: seq<Byte>, cells: map<string, Cell>)

  datatype GroupExpr = ByState | ByPath(path: string)

  function CellAt(x: Item, path: string): Cell {
    if path in x.cells then x.cells[path] else Missing
  }

  function PartFor(g: GroupExpr, x: Item): Part {
    if g.ByState? then (if x.state == [] then None else Some(x.state)) else PartOf(CellAt(x, g.path))
  }

  function KeyOf(groups: seq<GroupExpr>, x: Item): seq<Part> {
    seq(|groups|, i requires 0 <= i < |groups| => PartFor(groups[i], x))
  }

  function Matching(pop: seq<Item>, cond: Item -> bool): seq<Item> {
    if pop == [] then []
    else
      var rest := Matching(pop[..|pop| - 1], cond);
      if cond(pop[|pop| - 1]) then rest + [pop[|pop| - 1]] else rest
  }

  /** The entities of one bucket, in order. */
  function Members(pop: seq<Item>, groups: seq<GroupExpr>, key: seq<Part>): seq<Item> {
    if pop == [] then []
    else
      var rest := Members(pop[..|pop| - 1], groups, key);
      if KeyOf(groups, pop[|pop| - 1]) == key then rest + [pop[|pop| - 1]] else rest
  }

  /** The numbers an aggregation sees: entities without a number are skipped. */
  function Numbers(pop: seq<Item>, field: string): seq<real> {
    if pop == [] then []
    else
      var rest, c := Numbers(pop[..|pop| - 1], field), CellAt(pop[|pop| - 1], field);
      if c.Number? then rest + [c.n] else rest
  }

  // --- the aggregation ---------------------------------------------------

  datatype Bucket = Bucket(key: seq<Part>, count: nat, accs: seq<Acc>)

  predicate Tallies(b: Bucket, key: seq<Part>, members: seq<Item>, fields: seq<string>) {
    && b.key == key && b.count == |members| && |b.accs| == |fields|
    && forall j :: 0 <= j < |fields| ==> Summarises(b.accs[j], Numbers(members, fields[j]))
  }

  lemma NumbersGrow(pop: seq<Item>, x: Item, field: string)
    ensures Numbers(pop + [x], field) ==
            if CellAt(x, field).Number? then Numbers(pop, field) + [CellAt(x, field).n] else Numbers(pop, field)
  {
    assert (pop + [x])[..|pop|] == pop;
  }

  /** observe: count the entity and feed each accumulator its number, if any. */
  method ObserveItem(b: Bucket, x: Item, fields: seq<string>, ghost members: seq<Item>) returns (r: Bucket)
    requires Tallies(b, b.key, members, fields)
    ensures Tallies(r, b.key, members + [x], fields)
  {
    var accs := b.accs;
    for j := 0 to |fields|
      invariant |accs| == |fields|
      invariant forall i :: 0 <= i < j ==> Summarises(accs[i], Numbers(members + [x], fields[i]))
      invariant forall i :: j <= i < |fields| ==> accs[i] == b.accs[i]
    {
      NumbersGrow(members, x, fields[j]);
      var c := CellAt(x, fields[j]);
      if c.Number? {
        ObserveSummarises(accs[j], Numbers(members, fields[j]), c.n);
        accs := accs[j := Observe(accs[j], c.n)];
      }
    }
    r := Bucket(b.key, b.count + 1, accs);
  }

  /** Alike in one dimension: the same state, or values that are both not scalars, or
      both scalars with the same text, whatever their JSON types. */
  predicate Alike(g: GroupExpr, x: Item, y: Item) {
    match g
    case ByState => x.state == y.state
    case ByPath(path) =>
      var a, b := CellAt(x, path), CellAt(y, path);
      if Scalar(a) then Scalar(b) && TextOf(a) == TextOf(b) else !Scalar(b)
  }

  /** Two entities fall into one bucket exactly when they are alike in every dimension. */
  lemma SameBucketExactlyWhen(groups: seq<GroupExpr>, x: Item, y: Item)
    requires Fits(KeyOf(groups, x)) && Fits(KeyOf(groups, y))
    ensures Encode(KeyOf(groups, x)) == Encode(KeyOf(groups, y)) <==>
            forall i :: 0 <= i < |groups| ==> Alike(groups[i], x, y)
  {
    var kx, ky := KeyOf(groups, x), KeyOf(groups, y);
    assert forall i :: 0 <= i < |groups| ==> (Alike(groups[i], x, y) <==> kx[i] == ky[i]);
    if kx != ky && Encode(kx) == Encode(ky) {
      KeysNeverCollide(kx, ky);
    }
  }

  function Codes(pop: seq<Item>, groups: seq<GroupExpr>): set<seq<Byte>> {
    set x | x in pop :: Encode(KeyOf(groups, x))
  }

  predicate KeysFit(pop: seq<Item>, groups: seq<GroupExpr>) {
    forall x :: x in pop ==> Fits(KeyOf(groups, x))
  }

  predicate BucketsOk(buckets: map<seq<Byte>, Bucket>, pop: seq<Item>, groups: seq<GroupExpr>, fields: seq<string>) {
    && buckets.Keys == Codes(pop, groups)
    && forall x :: x in pop ==>
         Tallies(buckets[Encode(KeyOf(groups, x))], KeyOf(groups, x), Members(pop, groups, KeyOf(groups, x)), fields)
  }

  lemma MembersGrow(pop: seq<Item>, x: Item, groups: seq<GroupExpr>, key: seq<Part>)
    ensures Members(pop + [x], groups, key) ==
            if KeyOf(groups, x) == key then Members(pop, groups, key) + [x] else Members(pop, groups, key)
  {
    assert (pop + [x])[..|pop|] == pop;
  }

  lemma {:induction false} NoMembers(pop: seq<Item>, groups: seq<GroupExpr>, key: seq<Part>)
    requires forall x :: x in pop ==> KeyOf(groups, x) != key
    ensures Members(pop, groups, key) == []
  {
    if pop != [] {
      NoMembers(pop[..|pop| - 1], groups, key);
    }
  }

  /** Replacing or adding the bucket of `x` accounts for one more entity. */
  lemma BucketsGrow(buckets: map<seq<Byte>, Bucket>, pop: seq<Item>, x: Item, groups: seq<GroupExpr>,
                    fields: seq<string>, b: Bucket)
    requires BucketsOk(buckets, pop, groups, fields) && KeysFit(pop, groups) && Fits(KeyOf(groups, x))
    requires Tallies(b, KeyOf(groups, x), Members(pop, groups, KeyOf(groups, x)) + [x], fields)
    ensures BucketsOk(buckets[Encode(KeyOf(groups, x)) := b], pop + [x], groups, fields)
  {
    var code, all := Encode(KeyOf(groups, x)), pop + [x];
    var grown := buckets[code := b];
    assert forall y :: y in all <==> y in pop || y == x;
    assert grown.Keys == Codes(all, groups);
    forall y | y in all
      ensures Tallies(grown[Encode(KeyOf(groups, y))], KeyOf(groups, y), Members(all, groups, KeyOf(groups, y)), fields)
    {
      MembersGrow(pop, x, groups, KeyOf(groups, y));
      if KeyOf(groups, y) != KeyOf(groups, x) && Encode(KeyOf(groups, y)) == code {
        KeysNeverCollide(KeyOf(groups, y), KeyOf(groups, x));
      }
    }
  }

  /** The bucket an entity goes to, before it is counted. */
  lemma BucketBefore(buckets: map<seq<Byte>, Bucket>, pop: seq<Item>, key: seq<Part>, groups: seq<GroupExpr>,
                     fields: seq<string>)
    requires BucketsOk(buckets, pop, groups, fields) && KeysFit(pop, groups) && Fits(key)
    ensures Encode(key) in buckets ==>
      Tallies(buckets[Encode(key)], key, Members(pop, groups, key), fields)
    ensures Encode(key) !in buckets ==> Members(pop, groups, key) == []
  {
    if Encode(key) in buckets {
      var x :| x in pop && Encode(KeyOf(groups, x)) == Encode(key);
      KeysNeverCollide(KeyOf(groups, x), key);
    } else {
      forall x | x in pop ensures KeyOf(groups, x) != key {
        assert Encode(KeyOf(groups, x)) in buckets;
      }
      NoMembers(pop, groups, key);
    }
  }

  function NewBucket(key: seq<Part>, fields: seq<string>): Bucket {
    Bucket(key, 0, seq(|fields|, i => EMPTY))
  }

  lemma NewBucketTallies(key: seq<Part>, fields: seq<string>)
    ensures Tallies(NewBucket(key, fields), key, [], fields)
  {
  }

  lemma CodesGrow(buckets: map<seq<Byte>, Bucket>, pop: seq<Item>, x: Item, groups: seq<GroupExpr>)
    requires buckets.Keys == Codes(pop, groups)
    ensures Codes(pop + [x], groups) == buckets.Keys + {Encode(KeyOf(groups, x))}
    ensures |Codes(pop + [x], groups)| ==
            if Encode(KeyOf(groups, x)) in buckets then |buckets.Keys| else |buckets.Keys| + 1
  {
    assert forall y :: y in pop + [x] <==> y in pop || y == x;
    if Encode(KeyOf(groups, x)) in buckets {
      assert buckets.Keys + {Encode(KeyOf(groups, x))} == buckets.Keys;
    }
  }

  /** Tally one matching entity, unless it needs a bucket too many. */
  method Tally(buckets: map<seq<Byte>, Bucket>, x: Item, groups: seq<GroupExpr>, fields: seq<string>,
               maxBuckets: nat, ghost pop: seq<Item>)
    returns (ok: bool, grown: map<seq<Byte>, Bucket>)
    requires BucketsOk(buckets, pop, groups, fields) && KeysFit(pop, groups) && Fits(KeyOf(groups, x))
    requires maxBuckets > 0 ==> |buckets.Keys| <= maxBuckets
    ensures ok ==> BucketsOk(grown, pop + [x], groups, fields) && (maxBuckets > 0 ==> |grown.Keys| <= maxBuckets)
    ensures !ok ==> maxBuckets > 0 && |Codes(pop + [x], groups)| > maxBuckets
  {
    var key := KeyOf(groups, x);
    var code := EncodeGroupKey(key);
    BucketBefore(buckets, pop, key, groups, fields);
    CodesGrow(buckets, pop, x, groups);
    if code !in buckets && maxBuckets > 0 && |buckets.Keys| >= maxBuckets {
      return false, buckets;
    }
    var b := NewBucket(key, fields);
    if code in buckets {
      b := buckets[code];
    } else {
      NewBucketTallies(key, fields);
    }
    b := ObserveItem(b, x, fields, Members(pop, groups, key));
    BucketsGrow(buckets, pop, x, groups, fields, b);
    grown := buckets[code := b];
    ok := true;
  }

  lemma {:induction false} SubsetIsSmaller<T>(a: set<T>, b: set<T>)
    requires a <= b
    ensures |a| <= |b|
    decreases a
  {
    if a != {} {
      var x :| x in a;
      SubsetIsSmaller(a - {x}, b - {x});
      assert |a| == |a - {x}| + 1 && |b| == |b - {x}| + 1;
    }
  }

  lemma {:induction false} MatchingGrows(pop: seq<Item>, cond: Item -> bool, i: nat)
    requires i <= |pop|
    ensures forall x :: x in Matching(pop[..i], cond) ==> x in Matching(pop, cond)
    decreases |pop| - i
  {
    if i < |pop| {
      MatchingGrows(pop, cond, i + 1);
      assert pop[..i + 1][..i] == pop[..i];
    } else {
      assert pop[..i] == pop;
    }
  }

  /** One pass over the population. It fails exactly when the matching entities have
      more distinct keys than allowed; otherwise there is one bucket per key, with
      the count and the exact summary of every aggregated field. */
  method GroupedAggregate(pop: seq<Item>, cond: Item -> bool, groups: seq<GroupExpr>, fields: seq<string>,
                          maxBuckets: nat)
    returns (r: Option<map<seq<Byte>, Bucket>>)
    requires KeysFit(pop, groups)
    ensures r.None? <==> maxBuckets > 0 && |Codes(Matching(pop, cond), groups)| > maxBuckets
    ensures r.Some? ==> BucketsOk(r.value, Matching(pop, cond), groups, fields)
  {
    var buckets: map<seq<Byte>, Bucket> := map[];
    ghost var seen: seq<Item> := [];
    for i := 0 to |pop|
      invariant seen == Matching(pop[..i], cond) && KeysFit(seen, groups)
      invariant BucketsOk(buckets, seen, groups, fields)
      invariant maxBuckets > 0 ==> |buckets.Keys| <= maxBuckets
    {
      assert pop[..i + 1][..i] == pop[..i];
      if cond(pop[i]) {
        var ok, grown := Tally(buckets, pop[i], groups, fields, maxBuckets, seen);
        seen := seen + [pop[i]];
        if !ok {
          MatchingGrows(pop, cond, i + 1);
          SubsetIsSmaller(Codes(seen, groups), Codes(Matching(pop, cond), groups));
          return None;
        }
        buckets := grown;
      }
    }
    assert pop[..|pop|] == pop;
    r := Some(buckets);
  }

  // --- the laws ----------------------------------------------------------

  /** The sum of `w` over the entities. */
  function Weight(pop: seq<Item>, w: Item -> real): real {
    if pop == [] then 0.0 else Weight(pop[..|pop| - 1], w) + w(pop[|pop| - 1])
  }

  /** The weights of the buckets `keys`, added up. */
  function BucketWeights(pop: seq<Item>, groups: seq<GroupExpr>, keys: seq<seq<Part>>, w: Item -> real): real {
    if keys == [] then 0.0
    else BucketWeights(pop, groups, keys[..|keys| - 1], w) + Weight(Members(pop, groups, keys[|keys| - 1]), w)
  }

  predicate AllDifferent<T(==)>(keys: seq<T>) {
    forall i, j :: 0 <= i < j < |keys| ==> keys[i] != keys[j]
  }

  lemma WeightGrows(pop: seq<Item>, x: Item, w: Item -> real)
    ensures Weight(pop + [x], w) == Weight(pop, w) + w(x)
  {
    assert (pop + [x])[..|pop|] == pop;
  }

  lemma {:induction false} OneBucketGrows(pop: seq<Item>, x: Item, groups: seq<GroupExpr>, keys: seq<seq<Part>>,
                                          w: Item -> real)
    requires AllDifferent(keys)
    ensures BucketWeights(pop + [x], groups, keys, w) ==
            BucketWeights(pop, groups, keys, w) + if KeyOf(groups, x) in keys then w(x) else 0.0
    decreases |keys|
  {
    if keys != [] {
      var init, key := keys[..|keys| - 1], keys[|keys| - 1];
      OneBucketGrows(pop, x, groups, init, w);
      MembersGrow(pop, x, groups, key);
      WeightGrows(Members(pop, groups, key), x, w);
      assert keys == init + [key] && key !in init;
    }
  }

  lemma {:induction false} NothingToAdd(groups: seq<GroupExpr>, keys: seq<seq<Part>>, w: Item -> real)
    ensures BucketWeights([], groups, keys, w) == 0.0
    decreases |keys|
  {
    if keys != [] {
      NothingToAdd(groups, keys[..|keys| - 1], w);
    }
  }

  /** Buckets partition the population: for every weight (one per entity, or the
      number aggregated) the buckets add up to the whole. */
  lemma {:induction false} BucketsAddUp(pop: seq<Item>, groups: seq<GroupExpr>, keys: seq<seq<Part>>, w: Item -> real)
    requires AllDifferent(keys) && forall x :: x in pop ==> KeyOf(groups, x) in keys
    ensures BucketWeights(pop, groups, keys, w) == Weight(pop, w)
    decreases |pop|
  {
    if pop == [] {
      NothingToAdd(groups, keys, w);
    } else {
      var init, x := pop[..|pop| - 1], pop[|pop| - 1];
      assert pop == init + [x] && x in pop;
      BucketsAddUp(init, groups, keys, w);
      OneBucketGrows(init, x, groups, keys, w);
    }
  }

  lemma {:induction false} WeightOfOnes(pop: seq<Item>, one: Item -> real)
    requires forall x :: one(x) == 1.0
    ensures Weight(pop, one) == |pop| as real
  {
    if pop != [] {
      WeightOfOnes(pop[..|pop| - 1], one);
    }
  }

  function NumberOr0(x: Item, field: string): real {
    if CellAt(x, field).Number? then CellAt(x, field).n else 0.0
  }

  lemma {:induction false} WeightOfNumbers(pop: seq<Item>, field: string, w: Item -> real)
    requires forall x :: w(x) == NumberOr0(x, field)
    ensures Weight(pop, w) == Sum(Numbers(pop, field))
  {
    if pop != [] {
      var init, x := pop[..|pop| - 1], pop[|pop| - 1];
      WeightOfNumbers(init, field, w);
      assert pop == init + [x];
      NumbersGrow(init, x, field);
      if CellAt(x, field).Number? {
        TotalGrows(Numbers(init, field), CellAt(x, field).n, Itself);
      }
    }
  }

  function CountAt(buckets: map<seq<Byte>, Bucket>, k: seq<Part>): nat {
    if Encode(k) in buckets then buckets[Encode(k)].count else 0
  }

  function SumAt(buckets: map<seq<Byte>, Bucket>, k: seq<Part>, j: nat): real {
    if Encode(k) in buckets && j < |buckets[Encode(k)].accs| then buckets[Encode(k)].accs[j].sum else 0.0
  }

  function CountOf(buckets: map<seq<Byte>, Bucket>, keys: seq<seq<Part>>): nat {
    if keys == [] then 0 else CountOf(buckets, keys[..|keys| - 1]) + CountAt(buckets, keys[|keys| - 1])
  }

  function SumOf(buckets: map<seq<Byte>, Bucket>, keys: seq<seq<Part>>, j: nat): real {
    if keys == [] then 0.0 else SumOf(buckets, keys[..|keys| - 1], j) + SumAt(buckets, keys[|keys| - 1], j)
  }

  /** The bucket of `k` tallies its members; without a bucket there are none. */
  predicate Shows(buckets: map<seq<Byte>, Bucket>, pop: seq<Item>, groups: seq<GroupExpr>, fields: seq<string>,
                  k: seq<Part>) {
    if Encode(k) in buckets then Tallies(buckets[Encode(k)], k, Members(pop, groups, k), fields)
    else Members(pop, groups, k) == []
  }

  lemma ShownAt(buckets: map<seq<Byte>, Bucket>, pop: seq<Item>, groups: seq<GroupExpr>, fields: seq<string>,
                k: seq<Part>, j: nat, one: Item -> real, w: Item -> real)
    requires Shows(buckets, pop, groups, fields, k)
    requires j < |fields| && (forall x :: one(x) == 1.0) && (forall x :: w(x) == NumberOr0(x, fields[j]))
    ensures CountAt(buckets, k) as real == Weight(Members(pop, groups, k), one)
    ensures SumAt(buckets, k, j) == Weight(Members(pop, groups, k), w)
  {
    WeightOfOnes(Members(pop, groups, k), one);
    WeightOfNumbers(Members(pop, groups, k), fields[j], w);
  }

  lemma {:induction false} TalliesAreWeights(buckets: map<seq<Byte>, Bucket>, pop: seq<Item>, groups: seq<GroupExpr>,
                                             fields: seq<string>, keys: seq<seq<Part>>, j: nat,
                                             one: Item -> real, w: Item -> real)
    requires forall k :: k in keys ==> Shows(buckets, pop, groups, fields, k)
    requires j < |fields| && (forall x :: one(x) == 1.0) && (forall x :: w(x) == NumberOr0(x, fields[j]))
    ensures CountOf(buckets, keys) as real == BucketWeights(pop, groups, keys, one)
    ensures SumOf(buckets, keys, j) == BucketWeights(pop, groups, keys, w)
    decreases |keys|
  {
    if keys != [] {
      var key := keys[|keys| - 1];
      TalliesAreWeights(buckets, pop, groups, fields, keys[..|keys| - 1], j, one, w);
      ShownAt(buckets, pop, groups, fields, key, j, one, w);
    }
  }

  /** The buckets' counts add up to the population, and their sums of a field to its
      sum over the entities that have a number there. */
  lemma TalliesAddUp(buckets: map<seq<Byte>, Bucket>, pop: seq<Item>, groups: seq<GroupExpr>, fields: seq<string>,
                     keys: seq<seq<Part>>, j: nat)
    requires BucketsOk(buckets, pop, groups, fields) && j < |fields|
    requires AllDifferent(keys) && forall k :: k in keys <==> exists x :: x in pop && KeyOf(groups, x) == k
    ensures forall k :: k in keys ==> Encode(k) in buckets && Shows(buckets, pop, groups, fields, k)
    ensures CountOf(buckets, keys) == |pop|
    ensures SumOf(buckets, keys, j) == Sum(Numbers(pop, fields[j]))
  {
    forall k | k in keys ensures Encode(k) in buckets && Shows(buckets, pop, groups, fields, k) {
      var x :| x in pop && KeyOf(groups, x) == k;
    }
    var one, w := (x: Item) => 1.0, (x: Item) => NumberOr0(x, fields[j]);
    TalliesAreWeights(buckets, pop, groups, fields, keys, j, one, w);
    BucketsAddUp(pop, groups, keys, one);
    BucketsAddUp(pop, groups, keys, w);
    WeightOfOnes(pop, one);
    WeightOfNumbers(pop, fields[j], w);
  }

  // --- order of the population -------------------------------------------

  lemma {:induction false} MembersCount(pop: seq<Item>, groups: seq<GroupExpr>, key: seq<Part>, x: Item)
    ensures multiset(Members(pop, groups, key))[x] == if KeyOf(groups, x) == key then multiset(pop)[x] else 0
  {
    if pop != [] {
      var init, y := pop[..|pop| - 1], pop[|pop| - 1];
      assert pop == init + [y];
      MembersCount(init, groups, key, x);
    }
  }

  lemma MembersPermute(p: seq<Item>, q: seq<Item>, groups: seq<GroupExpr>, key: seq<Part>)
    requires multiset(p) == multiset(q)
    ensures multiset(Members(p, groups, key)) == multiset(Members(q, groups, key))
  {
    forall y ensures multiset(Members(p, groups, key))[y] == multiset(Members(q, groups, key))[y] {
      MembersCount(p, groups, key, y);
      MembersCount(q, groups, key, y);
    }
  }

  lemma AppendCounts(ns: seq<real>, c: Cell)
    ensures c.Number? ==> multiset(ns + [c.n]) == multiset(ns) + multiset{c.n}
  {
  }

  lemma {:induction false} NumbersSplit(a: seq<Item>, x: Item, b: seq<Item>, field: string)
    ensures multiset(Numbers(a + [x] + b, field)) ==
            multiset(Numbers(a + b, field)) +
            if CellAt(x, field).Number? then multiset{CellAt(x, field).n} else multiset{}
    decreases |b|
  {
    if b == [] {
      assert a + [x] + b == a + [x] && a + b == a;
      NumbersGrow(a, x, field);
    } else {
      var init, y := b[..|b| - 1], b[|b| - 1];
      NumbersSplit(a, x, init, field);
      assert a + [x] + b == (a + [x] + init) + [y] && a + b == (a + init) + [y];
      NumbersGrow(a + [x] + init, y, field);
      NumbersGrow(a + init, y, field);
      AppendCounts(Numbers(a + [x] + init, field), CellAt(y, field));
      AppendCounts(Numbers(a + init, field), CellAt(y, field));
    }
  }

  lemma {:induction false} NumbersPermute(p: seq<Item>, q: seq<Item>, field: string)
    requires multiset(p) == multiset(q)
    ensures multiset(Numbers(p, field)) == multiset(Numbers(q, field))
    decreases |p|
  {
    if p == [] {
      assert |multiset(q)| == |q|;
    } else {
      var x, rest := p[|p| - 1], p[..|p| - 1];
      assert p == rest + [x] && x in multiset(q);
      var i :| 0 <= i < |q| && q[i] == x;
      assert q == q[..i] + [x] + q[i + 1..];
      WithoutOne(rest, x, q[..i], q[i + 1..]);
      NumbersPermute(rest, q[..i] + q[i + 1..], field);
      NumbersSplit(q[..i], x, q[i + 1..], field);
      NumbersGrow(rest, x, field);
    }
  }

  lemma TalliesAreUnique(b: Bucket, c: Bucket, key: seq<Part>, m: seq<Item>, n: seq<Item>, fields: seq<string>)
    requires Tallies(b, key, m, fields) && Tallies(c, key, n, fields) && multiset(m) == multiset(n)
    ensures b == c
  {
    assert |multiset(m)| == |m| && |multiset(n)| == |n|;
    forall j | 0 <= j < |fields| ensures b.accs[j] == c.accs[j] {
      NumbersPermute(m, n, fields[j]);
      OrderDoesNotMatter(b.accs[j], Numbers(m, fields[j]), c.accs[j], Numbers(n, fields[j]));
    }
  }

  /** The result depends only on which entities match, not on the order in which the
      snapshot happens to list them: no two results can differ. */
  lemma GroupingIgnoresOrder(bs: map<seq<Byte>, Bucket>, p: seq<Item>, cs: map<seq<Byte>, Bucket>, q: seq<Item>,
                             groups: seq<GroupExpr>, fields: seq<string>)
    requires BucketsOk(bs, p, groups, fields) && BucketsOk(cs, q, groups, fields) && multiset(p) == multiset(q)
    ensures bs == cs
  {
    SameCodes(p, q, groups);
    forall code | code in bs ensures bs[code] == cs[code] {
      var x :| x in p && Encode(KeyOf(groups, x)) == code;
      var key := KeyOf(groups, x);
      assert x in multiset(q);
      MembersPermute(p, q, groups, key);
      assert Tallies(cs[code], key, Members(q, groups, key), fields);
      TalliesAreUnique(bs[code], cs[code], key, Members(p, groups, key), Members(q, groups, key), fields);
    }
  }

  lemma SameCodes(p: seq<Item>, q: seq<Item>, groups: seq<GroupExpr>)
    requires multiset(p) == multiset(q)
    ensures Codes(p, groups) == Codes(q, groups)
  {
    assert forall x :: x in p <==> x in multiset(p);
    assert forall x :: x in q <==> x in multiset(q);
  }

  // --- dropping a dimension ----------------------------------------------

  /** Grouping by one more dimension splits each bucket by that dimension. */
  lemma {:induction false} BucketSplits(pop: seq<Item>, a: seq<GroupExpr>, d: GroupExpr, b: seq<GroupExpr>,
                                        ka: seq<Part>, kd: Part, kb: seq<Part>)
    requires |ka| == |a| && |kb| == |b|
    ensures Members(pop, a + [d] + b, ka + [kd] + kb) == Members(Members(pop, a + b, ka + kb), [d], [kd])
    decreases |pop|
  {
    if pop != [] {
      var x := pop[|pop| - 1];
      var init := Members(pop[..|pop| - 1], a + b, ka + kb);
      BucketSplits(pop[..|pop| - 1], a, d, b, ka, kd, kb);
      KeySplits(x, a, d, b, ka, kd, kb);
      MembersGrow(init, x, [d], [kd]);
    }
  }

  lemma KeySplits(x: Item, a: seq<GroupExpr>, d: GroupExpr, b: seq<GroupExpr>, ka: seq<Part>, kd: Part, kb: seq<Part>)
    requires |ka| == |a| && |kb| == |b|
    ensures KeyOf(a + [d] + b, x) == ka + [kd] + kb <==> KeyOf(a + b, x) == ka + kb && KeyOf([d], x) == [kd]
  {
    assert KeyOf(a + [d] + b, x) == KeyOf(a, x) + [PartFor(d, x)] + KeyOf(b, x);
    assert KeyOf(a + b, x) == KeyOf(a, x) + KeyOf(b, x);
    assert KeyOf([d], x) == [PartFor(d, x)];
    Unsplit(KeyOf(a, x), [PartFor(d, x)], KeyOf(b, x), ka, [kd], kb);
    Unsplit(KeyOf(a, x), [], KeyOf(b, x), ka, [], kb);
    assert KeyOf(a, x) + [] + KeyOf(b, x) == KeyOf(a, x) + KeyOf(b, x) && ka + [] + kb == ka + kb;
  }

  lemma Unsplit(a: seq<Part>, m: seq<Part>, b: seq<Part>, a': seq<Part>, m': seq<Part>, b': seq<Part>)
    requires |a| == |a'| && |m| == |m'|
    ensures a + m + b == a' + m' + b' <==> a == a' && m == m' && b == b'
  {
    if a + m + b == a' + m' + b' {
      assert a == (a + m + b)[..|a|] && a' == (a' + m' + b')[..|a|];
      assert m == (a + m + b)[|a|..|a| + |m|] && m' == (a' + m' + b')[|a|..|a| + |m|];
      assert b == (a + m + b)[|a| + |m|..] && b' == (a' + m' + b')[|a| + |m|..];
    }
  }

  /** The buckets that differ only in dimension `d`, one for each of its values. */
  function Along(ka: seq<Part>, kb: seq<Part>, values: seq<Part>): seq<seq<Part>> {
    seq(|values|, i requires 0 <= i < |values| => ka + [values[i]] + kb)
  }

  lemma {:induction false} AlongIsSplit(pop: seq<Item>, a: seq<GroupExpr>, d: GroupExpr, b: seq<GroupExpr>,
                                        ka: seq<Part>, kb: seq<Part>, values: seq<Part>, w: Item -> real)
    requires |ka| == |a| && |kb| == |b|
    ensures BucketWeights(pop, a + [d] + b, Along(ka, kb, values), w) ==
            BucketWeights(Members(pop, a + b, ka + kb), [d], Along([], [], values), w)
    decreases |values|
  {
    if values != [] {
      var init, v := values[..|values| - 1], values[|values| - 1];
      AlongIsSplit(pop, a, d, b, ka, kb, init, w);
      BucketSplits(pop, a, d, b, ka, v, kb);
      assert Along(ka, kb, values)[..|values| - 1] == Along(ka, kb, init);
      assert Along([], [], values)[..|values| - 1] == Along([], [], init);
      assert [] + [v] + [] == [v];
    }
  }

  lemma WeightSumsOut(pop: seq<Item>, a: seq<GroupExpr>, d: GroupExpr, b: seq<GroupExpr>,
                      ka: seq<Part>, kb: seq<Part>, values: seq<Part>, w: Item -> real)
    requires |ka| == |a| && |kb| == |b|
    requires AllDifferent(values) && forall x :: x in pop ==> PartFor(d, x) in values
    ensures BucketWeights(pop, a + [d] + b, Along(ka, kb, values), w) == Weight(Members(pop, a + b, ka + kb), w)
  {
    AlongIsSplit(pop, a, d, b, ka, kb, values, w);
    var keys := Along([], [], values);
    var members := Members(pop, a + b, ka + kb);
    MembersAreWithin(pop, a + b, ka + kb);
    forall x | x in members ensures KeyOf([d], x) in keys {
      var i :| 0 <= i < |values| && values[i] == PartFor(d, x);
      assert keys[i] == [values[i]] == KeyOf([d], x);
    }
    forall i, j | 0 <= i < j < |keys| ensures keys[i] != keys[j] {
      assert keys[i][0] == values[i] && keys[j][0] == values[j];
    }
    BucketsAddUp(members, [d], keys, w);
  }

  lemma BucketsShow(buckets: map<seq<Byte>, Bucket>, pop: seq<Item>, groups: seq<GroupExpr>, fields: seq<string>,
                    k: seq<Part>)
    requires BucketsOk(buckets, pop, groups, fields) && KeysFit(pop, groups) && Fits(k)
    ensures Shows(buckets, pop, groups, fields, k)
  {
    BucketBefore(buckets, pop, k, groups, fields);
  }

  /** Two results over the same entities, `bs` with the dimension `d` and `cs` without
      it: summing `bs` over all values of `d` gives the bucket of `cs`, its count and the
      sum of every field, for each choice of the other dimensions. */
  lemma DimensionSumsOut(bs: map<seq<Byte>, Bucket>, cs: map<seq<Byte>, Bucket>, pop: seq<Item>, fields: seq<string>,
                         a: seq<GroupExpr>, d: GroupExpr, b: seq<GroupExpr>,
                         ka: seq<Part>, kb: seq<Part>, values: seq<Part>, j: nat)
    requires BucketsOk(bs, pop, a + [d] + b, fields) && KeysFit(pop, a + [d] + b)
    requires BucketsOk(cs, pop, a + b, fields) && KeysFit(pop, a + b)
    requires |ka| == |a| && |kb| == |b| && Fits(ka) && Fits(kb) && Fits(values) && j < |fields|
    requires AllDifferent(values) && forall x :: x in pop ==> PartFor(d, x) in values
    ensures CountOf(bs, Along(ka, kb, values)) == CountAt(cs, ka + kb)
    ensures SumOf(bs, Along(ka, kb, values), j) == SumAt(cs, ka + kb, j)
  {
    var one, w := (x: Item) => 1.0, (x: Item) => NumberOr0(x, fields[j]);
    var keys := Along(ka, kb, values);
    forall k | k in keys ensures Shows(bs, pop, a + [d] + b, fields, k) {
      var i :| 0 <= i < |values| && keys[i] == k;
      assert Fits(ka + [values[i]] + kb);
      BucketsShow(bs, pop, a + [d] + b, fields, k);
    }
    BucketsShow(cs, pop, a + b, fields, ka + kb);
    TalliesAreWeights(bs, pop, a + [d] + b, fields, keys, j, one, w);
    ShownAt(cs, pop, a + b, fields, ka + kb, j, one, w);
    WeightSumsOut(pop, a, d, b, ka, kb, values, one);
    WeightSumsOut(pop, a, d, b, ka, kb, values, w);
  }

  lemma {:induction false} MembersAreWithin(pop: seq<Item>, groups: seq<GroupExpr>, key: seq<Part>)
    ensures forall x :: x in Members(pop, groups, key) ==> x in pop && KeyOf(groups, x) == key
  {
    if pop != [] {
      MembersAreWithin(pop[..|pop| - 1], groups, key);
    }
  }
}
