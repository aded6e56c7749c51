/** The one-pass accumulator behind every flow feature, over exact reals. */
module Statistics {

  function Ratio(a: real, b: real): (r: real)
    requires b != 0.0
  {
    a / b
  }

  datatype RunningStats = RunningStats(count: nat, sum: real, sqSum: real, min: real, max: real) {
    function Add(x: real): (r: RunningStats) {
      if count == 0 then
        RunningStats(1, sum + x, sqSum + x * x, x, x)
      else
        RunningStats(count + 1, sum + x, sqSum + x * x, if x < min then x else min, if x > max then x else max)
    }

    function Mean(): (r: real) {
      if count > 0 then Ratio(sum, count as real) else 0.0
    }

    function RawVariance(): (r: real)
      requires count >= 2
    {
      var n := count as real;
      Ratio(sqSum - Ratio(sum * sum, n), n - 1.0)
    }

    // The sample variance whose square root is the reported deviation; a
    // negative value, which only rounding could produce, is clamped to 0.
    function Variance(): (r: real) {
      if count < 2 then 0.0
      else
        var v := RawVariance();
        if v > 0.0 then v else 0.0
    }
  }

  const EMPTY := RunningStats(0, 0.0, 0.0, 0.0, 0.0)

  // The accumulator after adding the elements of xs, first to last.
  function Fold(xs: seq<real>): (r: RunningStats) {
    if xs == [] then EMPTY else Fold(xs[..|xs| - 1]).Add(xs[|xs| - 1])
  }

  function SumOf(f: real -> real, xs: seq<real>): (r: real) {
    if xs == [] then 0.0 else SumOf(f, xs[..|xs| - 1]) + f(xs[|xs| - 1])
  }

  function Identity(x: real): (r: real) { x }

  function Square(x: real): (r: real) { x * x }

  // Squared distance to m, the term of the textbook two-pass variance.
  function Deviation(m: real): (r: real -> real) {
    x => (x - m) * (x - m)
  }

  lemma {:induction false} FoldAppend(xs: seq<real>, x: real)
    ensures Fold(xs + [x]) == Fold(xs).Add(x)
  {
    assert (xs + [x])[..|xs|] == xs;
  }

  /** What the accumulator holds, independently of how it got there. */
  lemma {:induction false} FoldMeaning(xs: seq<real>)
    ensures Fold(xs).count == |xs|
    ensures Fold(xs).sum == SumOf(Identity, xs)
    ensures Fold(xs).sqSum == SumOf(Square, xs)
    ensures xs != [] ==> Fold(xs).min in xs && Fold(xs).max in xs
    ensures forall i | 0 <= i < |xs| :: Fold(xs).min <= xs[i] <= Fold(xs).max
    ensures xs == [] ==> Fold(xs) == EMPTY
  {
    if xs != [] {
      var front, last := xs[..|xs| - 1], xs[|xs| - 1];
      FoldMeaning(front);
      assert xs == front + [last];
      assert Square(last) == last * last;
    }
  }

  lemma {:induction false} SumRemove(f: real -> real, xs: seq<real>, i: nat)
    requires i < |xs|
    ensures SumOf(f, xs) == f(xs[i]) + SumOf(f, xs[..i] + xs[i + 1..])
  {
    var n := |xs| - 1;
    if i == n {
      assert xs[..i] + xs[i + 1..] == xs[..n];
    } else {
      var ys := xs[..n];
      SumRemove(f, ys, i);
      var rest := xs[..i] + xs[i + 1..];
      assert rest[..|rest| - 1] == ys[..i] + ys[i + 1..];
      assert rest[|rest| - 1] == xs[n];
    }
  }

  lemma {:induction false} SumPermutation(f: real -> real, xs: seq<real>, ys: seq<real>)
    requires multiset(xs) == multiset(ys)
    ensures SumOf(f, xs) == SumOf(f, ys)
    ensures |xs| == |ys|
    decreases |xs|
  {
    assert |multiset(xs)| == |xs| && |multiset(ys)| == |ys|;
    if xs != [] {
      var n := |xs| - 1;
      assert xs[n] in multiset(ys);
      var i :| 0 <= i < |ys| && ys[i] == xs[n];
      var rest := ys[..i] + ys[i + 1..];
      assert ys == ys[..i] + [ys[i]] + ys[i + 1..];
      assert xs == xs[..n] + [xs[n]];
      assert multiset(xs[..n]) == multiset(xs) - multiset{xs[n]};
      assert multiset(rest) == multiset(ys) - multiset{ys[i]};
      SumPermutation(f, xs[..n], rest);
      SumRemove(f, ys, i);
    }
  }

  /** The accumulator does not depend on the order of arrival. */
  lemma OrderIndependence(xs: seq<real>, ys: seq<real>)
    requires multiset(xs) == multiset(ys)
    ensures Fold(xs) == Fold(ys)
  {
    FoldMeaning(xs);
    FoldMeaning(ys);
    SumPermutation(Identity, xs, ys);
    SumPermutation(Square, xs, ys);
    if xs != [] {
      forall x ensures x in xs <==> x in ys {
        assert x in multiset(xs) <==> x in multiset(ys);
      }
      assert Fold(xs).min in ys && Fold(xs).max in ys;
      assert Fold(ys).min in xs && Fold(ys).max in xs;
    }
  }

  // The sum of n squared deviations from m, given the square sum and the sum.
  function Expanded(sqSum: real, sum: real, n: real, m: real): (r: real) {
    sqSum - 2.0 * (m * sum) + n * (m * m)
  }

  lemma DeviationTerm(q: real, s: real, k: real, m: real, x: real)
    ensures Expanded(q + Square(x), s + x, k + 1.0, m) == Expanded(q, s, k, m) + Deviation(m)(x)
  {
    assert Deviation(m)(x) == x * x - 2.0 * (m * x) + m * m;
    assert m * (s + x) == m * s + m * x;
    assert (k + 1.0) * (m * m) == k * (m * m) + m * m;
  }

  lemma {:induction false} DeviationSum(xs: seq<real>, m: real)
    ensures SumOf(Deviation(m), xs) == Expanded(SumOf(Square, xs), SumOf(Identity, xs), |xs| as real, m)
  {
    if xs == [] {
    } else {
      var n := |xs| - 1;
      DeviationSum(xs[..n], m);
      DeviationTerm(SumOf(Square, xs[..n]), SumOf(Identity, xs[..n]), n as real, m, xs[n]);
      assert n as real + 1.0 == |xs| as real;
    }
  }

  lemma SquareNonNegative(x: real)
    ensures x * x >= 0.0
  {
  }

  lemma {:induction false} DeviationSumNonNegative(xs: seq<real>, m: real)
    ensures SumOf(Deviation(m), xs) >= 0.0
  {
    if xs != [] {
      DeviationSumNonNegative(xs[..|xs| - 1], m);
      SquareNonNegative(xs[|xs| - 1] - m);
    }
  }

  lemma MeanIdentity(q: real, s: real, n: real, m: real)
    requires n > 0.0 && m == Ratio(s, n)
    ensures Expanded(q, s, n, m) == q - Ratio(s * s, n)
  {
    assert n * m == s;
    assert n * (m * m) == (n * m) * m == s * m;
    assert m * s == s * s / n by {
      assert (m * s) * n == (m * n) * s == s * s;
    }
  }

  lemma Quotient(a: real, b: real)
    requires a >= 0.0 && b > 0.0
    ensures Ratio(a, b) >= 0.0
  {
  }

  lemma RawVarianceIs(r: RunningStats, d: real, k: real)
    requires r.count >= 2 && k == r.count as real - 1.0
    requires d == r.sqSum - Ratio(r.sum * r.sum, r.count as real)
    ensures r.RawVariance() == Ratio(d, k)
  {
  }

  lemma VarianceAlgebra(r: RunningStats, d: real)
    requires r.count >= 2
    requires d == Expanded(r.sqSum, r.sum, r.count as real, r.Mean())
    requires d >= 0.0
    ensures r.RawVariance() == Ratio(d, r.count as real - 1.0)
    ensures r.Variance() == r.RawVariance() >= 0.0
  {
    hide Ratio, Expanded;
    var n := r.count as real;
    MeanIdentity(r.sqSum, r.sum, n, r.Mean());
    RawVarianceIs(r, d, n - 1.0);
    Quotient(d, n - 1.0);
  }

  /** The one-pass formula is the two-pass sample variance, so it is never
      negative and the clamp never changes an exact result. */
  lemma OnePassIsTwoPass(xs: seq<real>)
    requires |xs| >= 2
    ensures Fold(xs).count >= 2
    ensures Fold(xs).RawVariance() == Ratio(SumOf(Deviation(Fold(xs).Mean()), xs), |xs| as real - 1.0)
    ensures Fold(xs).RawVariance() >= 0.0
    ensures Fold(xs).Variance() == Fold(xs).RawVariance()
  {
    FoldMeaning(xs);
    var m := Fold(xs).Mean();
    DeviationSum(xs, m);
    DeviationSumNonNegative(xs, m);
    VarianceAlgebra(Fold(xs), SumOf(Deviation(m), xs));
  }

  lemma {:induction false} SumBounds(f: real -> real, xs: seq<real>, lo: real, hi: real)
    requires forall i | 0 <= i < |xs| :: lo <= f(xs[i]) <= hi
    ensures |xs| as real * lo <= SumOf(f, xs) <= |xs| as real * hi
  {
    if xs != [] {
      var front := xs[..|xs| - 1];
      SumBounds(f, front, lo, hi);
      assert |xs| as real * lo == |front| as real * lo + lo;
      assert |xs| as real * hi == |front| as real * hi + hi;
    }
  }

  lemma Between(s: real, n: real, lo: real, hi: real)
    requires n > 0.0 && n * lo <= s <= n * hi
    ensures lo <= Ratio(s, n) <= hi
  {
    var m := s / n;
    assert n * m == s;
    assert n * (m - lo) >= 0.0;
    assert n * (hi - m) >= 0.0;
  }

  lemma MeanBetween(r: RunningStats, lo: real, hi: real)
    requires r.count > 0 && r.count as real * lo <= r.sum <= r.count as real * hi
    ensures lo <= r.Mean() <= hi
  {
    Between(r.sum, r.count as real, lo, hi);
  }

  lemma MeanBetweenExtremes(xs: seq<real>)
    requires xs != []
    ensures Fold(xs).min <= Fold(xs).Mean() <= Fold(xs).max
  {
    FoldMeaning(xs);
    hide Fold;
    var r := Fold(xs);
    SumBounds(Identity, xs, r.min, r.max);
    MeanBetween(r, r.min, r.max);
  }

  ghost predicate Integral(x: real) {
    x == x.Floor as real
  }

  lemma SquareBound(x: real)
    requires 0.0 <= x <= 65535.0
    ensures 0.0 <= Square(x) <= 4294836225.0
  {
    assert x * x <= x * 65535.0;
  }

  lemma IntegerProduct(n: int)
    ensures (n as real) * (n as real) == (n * n) as real
  {
  }

  lemma SquareOfInteger(x: real)
    requires Integral(x)
    ensures Integral(Square(x))
  {
    var n := x.Floor;
    calc {
      Square(x);
      x * x;
      (n as real) * (n as real);
      { IntegerProduct(n); }
      (n * n) as real;
    }
  }

  lemma {:induction false} SumOfIntegers(f: real -> real, xs: seq<real>)
    requires forall i | 0 <= i < |xs| :: Integral(f(xs[i]))
    ensures Integral(SumOf(f, xs))
  {
    if xs != [] {
      SumOfIntegers(f, xs[..|xs| - 1]);
      var a, b := SumOf(f, xs[..|xs| - 1]).Floor, f(xs[|xs| - 1]).Floor;
      assert SumOf(f, xs) == (a + b) as real;
    }
  }

  /** A square sum of 16-bit lengths is an integer below 2^53 for up to 2^21
      packets, so the C++ double holds it exactly. */
  lemma SquareSumExactInDouble(xs: seq<real>)
    requires |xs| <= 0x20_0000
    requires forall i | 0 <= i < |xs| :: 0.0 <= xs[i] <= 65535.0 && Integral(xs[i])
    ensures 0.0 <= Fold(xs).sqSum < 9007199254740992.0
    ensures Integral(Fold(xs).sqSum)
  {
    FoldMeaning(xs);
    forall i | 0 <= i < |xs| ensures 0.0 <= Square(xs[i]) <= 4294836225.0 && Integral(Square(xs[i])) {
      SquareBound(xs[i]);
      SquareOfInteger(xs[i]);
    }
    SumBounds(Square, xs, 0.0, 4294836225.0);
    SumOfIntegers(Square, xs);
  }
}
