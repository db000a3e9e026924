/** The streaming accumulator of grouped statistics (plugins/memory/grouped_stats.go)
    against the two-pass reference of e2e/parity/grouped_stats.go, over the reals. */
module Deviation {
  import opened Json

  /** The sum of `f` over the numbers. */
  function Total(xs: seq<real>, f: real -> real): real {
    if xs == [] then 0.0 else Total(xs[..|xs| - 1], f) + f(xs[|xs| - 1])
  }

  function Itself(x: real): real { x }

  function Square(x: real): real { x * x }

  /** The sum of squared distances from `m`. */
  function Spread(xs: seq<real>, m: real): real {
    if xs == [] then 0.0
    else Spread(xs[..|xs| - 1], m) + (xs[|xs| - 1] - m) * (xs[|xs| - 1] - m)
  }

  function Sum(xs: seq<real>): real { Total(xs, Itself) }

  function Squares(xs: seq<real>): real { Total(xs, Square) }

  function Mean(xs: seq<real>): real
    requires xs != []
  {
    Sum(xs) / |xs| as real
  }

  // --- the streaming accumulator -----------------------------------------

  datatype Acc = Acc(n: nat, sum: real, minV: real, maxV: real, mean: real, m2: real)

  const EMPTY := Acc(0, 0.0, 0.0, 0.0, 0.0, 0.0)

  /** observeFloat: count, sum, extremes and the Welford recurrence. */
  function Observe(a: Acc, x: real): Acc {
    var mean := NextMean(a.n as real, a.mean, x);
    Acc(a.n + 1, a.sum + x,
        if a.n == 0 || x < a.minV then x else a.minV,
        if a.n == 0 || x > a.maxV then x else a.maxV,
        mean, NextM2(a.m2, a.mean, mean, x))
  }

  /** The Welford recurrence. */
  function NextMean(n: real, mean: real, x: real): real
    requires n >= 0.0
  {
    mean + (x - mean) / (n + 1.0)
  }

  function NextM2(m2: real, mean: real, mean1: real, x: real): real {
    m2 + (x - mean) * (x - mean1)
  }

  /** A count, sum, sum of squares, mean and centred sum of squares that fit. */
  predicate Exact(n: real, s: real, q: real, mean: real, m2: real) {
    mean * n == s && m2 == q - s * mean
  }

  lemma MeanStep(n: real, s: real, mean: real, x: real, mean1: real)
    requires n >= 0.0 && mean * n == s && mean1 == mean + (x - mean) / (n + 1.0)
    ensures mean1 * (n + 1.0) == s + x
  {
    var q := (x - mean) / (n + 1.0);
    assert q * (n + 1.0) == x - mean;
    assert mean1 * (n + 1.0) == mean * (n + 1.0) + q * (n + 1.0);
  }

  lemma CrossTerms(n: real, s: real, mean: real, mean1: real, s1: real)
    requires mean * n == s && mean1 * (n + 1.0) == s1
    ensures mean * (s1 - mean1) == s * mean1
  {
    assert s1 - mean1 == mean1 * n;
    assert mean * (mean1 * n) == (mean * n) * mean1;
  }

  lemma CentredStep(s: real, q: real, mean: real, x: real, mean1: real)
    requires mean * (s + x - mean1) == s * mean1
    ensures q - s * mean + (x - mean) * (x - mean1) == q + x * x - (s + x) * mean1
  {
  }

  /** One step of the Welford recurrence. */
  lemma RecurrenceStep(n: real, s: real, q: real, mean: real, m2: real, x: real)
    requires n >= 0.0 && Exact(n, s, q, mean, m2)
    ensures Exact(n + 1.0, s + x, q + Square(x), NextMean(n, mean, x), NextM2(m2, mean, NextMean(n, mean, x), x))
  {
    var mean1 := NextMean(n, mean, x);
    MeanStep(n, s, mean, x, mean1);
    CrossTerms(n, s, mean, mean1, s + x);
    CentredStep(s, q, mean, x, mean1);
  }

  /** What an accumulator says about the numbers it has seen. */
  predicate Summarises(a: Acc, xs: seq<real>) {
    && a.n == |xs| && a.sum == Sum(xs)
    && Exact(|xs| as real, Sum(xs), Squares(xs), a.mean, a.m2)
    && if xs == [] then a == EMPTY else Extremes(a.minV, a.maxV, xs)
  }

  /** Members that bound all others. */
  predicate Extremes(lo: real, hi: real, xs: seq<real>) {
    lo in xs && hi in xs && forall x :: x in xs ==> lo <= x <= hi
  }

  lemma ExtremesGrow(lo: real, hi: real, xs: seq<real>, x: real)
    requires xs == [] || Extremes(lo, hi, xs)
    ensures Extremes(if xs == [] || x < lo then x else lo, if xs == [] || x > hi then x else hi, xs + [x])
  {
    assert forall y :: y in xs + [x] <==> y in xs || y == x;
  }

  lemma TotalGrows(xs: seq<real>, x: real, f: real -> real)
    ensures Total(xs + [x], f) == Total(xs, f) + f(x)
  {
    assert (xs + [x])[..|xs|] == xs;
  }

  /** One more observation keeps the summary exact. */
  lemma ObserveSummarises(a: Acc, xs: seq<real>, x: real)
    requires Summarises(a, xs)
    ensures Summarises(Observe(a, x), xs + [x])
  {
    TotalGrows(xs, x, Itself);
    TotalGrows(xs, x, Square);
    ExtremesGrow(a.minV, a.maxV, xs, x);
    RecurrenceStep(|xs| as real, Sum(xs), Squares(xs), a.mean, a.m2, x);
    assert |xs + [x]| as real == |xs| as real + 1.0;
  }

  /** The streaming loop. */
  method ObserveAll(xs: seq<real>) returns (a: Acc)
    ensures Summarises(a, xs)
  {
    a := EMPTY;
    for i := 0 to |xs|
      invariant Summarises(a, xs[..i])
    {
      ObserveSummarises(a, xs[..i], xs[i]);
      assert xs[..i + 1] == xs[..i] + [xs[i]];
      a := Observe(a, xs[i]);
    }
    assert xs[..|xs|] == xs;
  }

  lemma SpreadStep(n: real, s: real, q: real, m: real, x: real, d: real)
    requires d == q - 2.0 * m * s + n * m * m
    ensures d + (x - m) * (x - m) == (q + x * x) - 2.0 * m * (s + x) + (n + 1.0) * m * m
  {
  }

  lemma {:induction false} SpreadExpands(xs: seq<real>, m: real)
    ensures Spread(xs, m) == Squares(xs) - 2.0 * m * Sum(xs) + |xs| as real * m * m
  {
    if xs != [] {
      var prefix := xs[..|xs| - 1];
      SpreadExpands(prefix, m);
      SpreadStep(|prefix| as real, Sum(prefix), Squares(prefix), m, xs[|xs| - 1], Spread(prefix, m));
    }
  }

  /** sampleStdev: mean first, then the squared distances; returned squared. */
  method TwoPassVariance(xs: seq<real>) returns (v: Option<real>)
    ensures v == if |xs| < 2 then None else Some(Spread(xs, Mean(xs)) / (|xs| - 1) as real)
  {
    if |xs| < 2 {
      return None;
    }
    var sum := 0.0;
    for i := 0 to |xs|
      invariant sum == Sum(xs[..i])
    {
      assert xs[..i + 1][..i] == xs[..i];
      sum := sum + xs[i];
    }
    assert xs[..|xs|] == xs;
    var mean := sum / |xs| as real;
    var sq := 0.0;
    for i := 0 to |xs|
      invariant sq == Spread(xs[..i], mean)
    {
      assert xs[..i + 1][..i] == xs[..i];
      var d := xs[i] - mean;
      sq := sq + d * d;
    }
    return Some(sq / (|xs| - 1) as real);
  }

  /** The accumulator's variance; the standard deviation is its square root. */
  function Variance(a: Acc): Option<real> {
    if a.n < 2 then None else Some(a.m2 / (a.n - 1) as real)
  }

  lemma CentredIsSpread(n: real, s: real, q: real, mean: real, m2: real, d: real)
    requires n > 0.0 && Exact(n, s, q, mean, m2)
    requires d == q - 2.0 * mean * s + n * mean * mean
    ensures m2 == d && mean == s / n
  {
    assert n * mean * mean == s * mean;
    assert s == mean * n;
    assert mean * n / n == mean;
  }

  /** For every sequence of two or more numbers the streamed variance is the
      two-pass one. */
  lemma StreamedIsTwoPass(a: Acc, xs: seq<real>)
    requires Summarises(a, xs) && |xs| >= 2
    ensures Variance(a) == Some(Spread(xs, Mean(xs)) / (|xs| - 1) as real)
  {
    SpreadExpands(xs, a.mean);
    CentredIsSpread(|xs| as real, Sum(xs), Squares(xs), a.mean, a.m2, Spread(xs, a.mean));
  }

  // --- order does not matter ---------------------------------------------

  lemma {:induction false} SplitTotal(a: seq<real>, x: real, b: seq<real>, f: real -> real)
    ensures Total(a + [x] + b, f) == Total(a + b, f) + f(x)
    decreases |b|
  {
    if b == [] {
      assert a + [x] + b == a + [x] && a + b == a && (a + [x])[..|a|] == a;
    } else {
      SplitTotal(a, x, b[..|b| - 1], f);
      assert (a + [x] + b)[..|a + [x] + b| - 1] == a + [x] + b[..|b| - 1];
      assert (a + b)[..|a + b| - 1] == a + b[..|b| - 1];
    }
  }

  lemma WithoutOne<T>(rest: seq<T>, x: T, before: seq<T>, after: seq<T>)
    requires multiset(rest + [x]) == multiset(before + [x] + after)
    ensures multiset(rest) == multiset(before + after)
  {
    assert multiset(rest) == multiset(rest + [x]) - multiset{x};
    assert multiset(before + after) == multiset(before + [x] + after) - multiset{x};
  }

  lemma {:induction false} TotalPermutes(xs: seq<real>, ys: seq<real>, f: real -> real)
    requires multiset(xs) == multiset(ys)
    ensures Total(xs, f) == Total(ys, f)
    decreases |xs|
  {
    if xs == [] {
      assert |multiset(ys)| == |ys|;
    } else {
      var x, rest := xs[|xs| - 1], xs[..|xs| - 1];
      assert xs == rest + [x];
      assert x in multiset(ys);
      var i :| 0 <= i < |ys| && ys[i] == x;
      assert ys == ys[..i] + [x] + ys[i + 1..];
      WithoutOne(rest, x, ys[..i], ys[i + 1..]);
      TotalPermutes(rest, ys[..i] + ys[i + 1..], f);
      SplitTotal(ys[..i], x, ys[i + 1..], f);
    }
  }

  lemma ExactIsUnique(n: real, s: real, q: real, mean: real, m2: real, mean': real, m2': real)
    requires n > 0.0 && Exact(n, s, q, mean, m2) && Exact(n, s, q, mean', m2')
    ensures mean == mean' && m2 == m2'
  {
    assert mean * n / n == mean && mean' * n / n == mean';
  }

  /** Any reordering of the input leaves the same accumulator: count, sum, extremes,
      mean and variance. */
  lemma OrderDoesNotMatter(a: Acc, xs: seq<real>, b: Acc, ys: seq<real>)
    requires Summarises(a, xs) && Summarises(b, ys) && multiset(xs) == multiset(ys)
    ensures a == b
  {
    TotalPermutes(xs, ys, Itself);
    TotalPermutes(xs, ys, Square);
    assert |multiset(xs)| == |xs| && |multiset(ys)| == |ys|;
    if xs != [] {
      ExactIsUnique(|xs| as real, Sum(xs), Squares(xs), a.mean, a.m2, b.mean, b.m2);
      assert forall x :: x in xs <==> x in multiset(xs);
      assert forall y :: y in ys <==> y in multiset(ys);
    }
  }
}
