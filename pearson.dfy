/** The Pearson correlation coefficient of two price series. */
module Pearson {
  import opened Results
  import opened Statistics
  import opened Squares

  /** The message `correlation` throws for series it cannot compare. */
  const BadSeries := "Series must have equal length and not be empty"

  /** The fold of `(a[i] - ma) * (b[i] - mb)` over two series of the same length. */
  function CrossDeviations(a: seq<real>, b: seq<real>, ma: real, mb: real): real
    requires |a| == |b|
  {
    if |a| == 0 then 0.0
    else CrossDeviations(a[..|a| - 1], b[..|b| - 1], ma, mb) + (a[|a| - 1] - ma) * (b[|b| - 1] - mb)
  }

  /** The three centred sums `correlation` accumulates before taking the root. */
  datatype CentredSums = CentredSums(numerator: real, sum1Sq: real, sum2Sq: real)

  /** The centred sums of two series about their own means. */
  function SumsOf(series1: seq<real>, series2: seq<real>): (t: CentredSums)
    requires |series1| == |series2| > 0
    ensures t.sum1Sq >= 0.0 && t.sum2Sq >= 0.0
  {
    var mean1 := Mean(series1);
    var mean2 := Mean(series2);
    CentredSums(CrossDeviations(series1, series2, mean1, mean2),
                SquaredDeviations(series1, mean1),
                SquaredDeviations(series2, mean2))
  }

  /** The quantity under the root of the denominator: `sum1Sq * sum2Sq`. */
  function SquaresProduct(t: CentredSums): real
  {
    t.sum1Sq * t.sum2Sq
  }

  /**
   * The coefficient from the centred sums, where `sqrt` stands for `Math.sqrt`: 0 when the
   * denominator is 0, otherwise the number that the denominator scales back to the numerator.
   */
  function Coefficient(t: CentredSums, sqrt: real -> real): (r: real)
    ensures sqrt(SquaresProduct(t)) == 0.0 ==> r == 0.0
    ensures sqrt(SquaresProduct(t)) != 0.0 ==> r * sqrt(SquaresProduct(t)) == t.numerator
  {
    var denominator := sqrt(SquaresProduct(t));
    if denominator == 0.0 then 0.0 else t.numerator / denominator
  }

  /** Swapping the two sums of squares leaves their product alone. */
  lemma SquaresProductSwapped(t: CentredSums, u: CentredSums)
    requires t.sum1Sq == u.sum2Sq && t.sum2Sq == u.sum1Sq
    ensures SquaresProduct(t) == SquaresProduct(u)
  {
  }

  /**
   * `correlation`: fails unless the series have the same, non-zero length; otherwise the
   * coefficient of their centred sums.
   */
  method Correlation(series1: seq<real>, series2: seq<real>, sqrt: real -> real) returns (r: Result<real>)
    ensures r.Err? <==> |series1| != |series2| || |series1| == 0
    ensures r.Err? ==> r.message == BadSeries
    ensures r.Ok? ==> r.value == Coefficient(SumsOf(series1, series2), sqrt)
  {
    if |series1| != |series2| || |series1| == 0 {
      return Err(BadSeries);
    }
    var n := |series1|;
    var mean1 := Sum(series1) / n as real;
    var mean2 := Sum(series2) / n as real;

    var numerator, sum1Sq, sum2Sq := 0.0, 0.0, 0.0;
    var i := 0;
    while i < n
      invariant 0 <= i <= n
      invariant numerator == CrossDeviations(series1[..i], series2[..i], mean1, mean2)
      invariant sum1Sq == SquaredDeviations(series1[..i], mean1)
      invariant sum2Sq == SquaredDeviations(series2[..i], mean2)
    {
      var diff1 := series1[i] - mean1;
      var diff2 := series2[i] - mean2;
      PrefixStep(series1, series2, mean1, mean2, i);
      numerator := numerator + diff1 * diff2;
      sum1Sq := sum1Sq + Square(diff1);
      sum2Sq := sum2Sq + Square(diff2);
      i := i + 1;
    }
    assert series1[..n] == series1 && series2[..n] == series2;
    assert CentredSums(numerator, sum1Sq, sum2Sq) == SumsOf(series1, series2);

    r := Ok(Coefficient(CentredSums(numerator, sum1Sq, sum2Sq), sqrt));
  }

  /** Extending the prefix by one index adds that index's terms to each centred sum. */
  lemma PrefixStep(a: seq<real>, b: seq<real>, ma: real, mb: real, i: nat)
    requires |a| == |b| && i < |a|
    ensures CrossDeviations(a[..i + 1], b[..i + 1], ma, mb)
         == CrossDeviations(a[..i], b[..i], ma, mb) + (a[i] - ma) * (b[i] - mb)
    ensures SquaredDeviations(a[..i + 1], ma) == SquaredDeviations(a[..i], ma) + Square(a[i] - ma)
    ensures SquaredDeviations(b[..i + 1], mb) == SquaredDeviations(b[..i], mb) + Square(b[i] - mb)
  {
    assert a[..i + 1][..i] == a[..i];
    assert b[..i + 1][..i] == b[..i];
  }

  /** The cross-deviation sum does not depend on the order of the two series. */
  lemma {:induction false} CrossDeviationsSymmetric(a: seq<real>, b: seq<real>, ma: real, mb: real)
    requires |a| == |b|
    ensures CrossDeviations(a, b, ma, mb) == CrossDeviations(b, a, mb, ma)
  {
    if |a| > 0 {
      CrossDeviationsSymmetric(a[..|a| - 1], b[..|b| - 1], ma, mb);
    }
  }

  /** A series whose values are all its reference point has no cross deviation with any other. */
  lemma {:induction false} CrossDeviationsFlat(a: seq<real>, b: seq<real>, ma: real, mb: real)
    requires |a| == |b|
    requires forall i :: 0 <= i < |a| ==> a[i] == ma
    ensures CrossDeviations(a, b, ma, mb) == 0.0
  {
    if |a| > 0 {
      var n := |a| - 1;
      assert forall i :: 0 <= i < n ==> a[..n][i] == a[i];
      CrossDeviationsFlat(a[..n], b[..n], ma, mb);
    }
  }

  /** The cross deviations of a series with itself are its squared deviations. */
  lemma {:induction false} CrossDeviationsSelf(a: seq<real>, m: real)
    ensures CrossDeviations(a, a, m, m) == SquaredDeviations(a, m)
  {
    if |a| > 0 {
      CrossDeviationsSelf(a[..|a| - 1], m);
    }
  }

  /** The contribution `diff1 * diff2` of one index to the numerator. */
  function CrossTerm(x: real, y: real, ma: real, mb: real): real
  {
    (x - ma) * (y - mb)
  }

  /**
   * When two series deviate from their centres in the same direction at every index the
   * numerator is non-negative, and in opposite directions it is non-positive.
   */
  lemma {:induction false} CrossDeviationsSign(a: seq<real>, b: seq<real>, ma: real, mb: real)
    requires |a| == |b|
    ensures (forall i :: 0 <= i < |a| ==> CrossTerm(a[i], b[i], ma, mb) >= 0.0) ==> CrossDeviations(a, b, ma, mb) >= 0.0
    ensures (forall i :: 0 <= i < |a| ==> CrossTerm(a[i], b[i], ma, mb) <= 0.0) ==> CrossDeviations(a, b, ma, mb) <= 0.0
  {
    if |a| > 0 {
      var n := |a| - 1;
      var a0, b0 := a[..n], b[..n];
      CrossDeviationsSign(a0, b0, ma, mb);
      var rest, last := CrossDeviations(a0, b0, ma, mb), CrossTerm(a[n], b[n], ma, mb);
      assert a0 == a[..|a| - 1] && b0 == b[..|b| - 1];
      assert CrossDeviations(a, b, ma, mb) == rest + last;
      if forall i :: 0 <= i < |a| ==> CrossTerm(a[i], b[i], ma, mb) >= 0.0 {
        assert forall i :: 0 <= i < n ==> CrossTerm(a0[i], b0[i], ma, mb) == CrossTerm(a[i], b[i], ma, mb);
        assert last >= 0.0;
      }
      if forall i :: 0 <= i < |a| ==> CrossTerm(a[i], b[i], ma, mb) <= 0.0 {
        assert forall i :: 0 <= i < n ==> CrossTerm(a0[i], b0[i], ma, mb) == CrossTerm(a[i], b[i], ma, mb);
        assert last <= 0.0;
      }
    }
  }

  /** Swapping the series leaves the numerator and swaps the two sums of squares. */
  lemma SumsOfSymmetric(series1: seq<real>, series2: seq<real>)
    requires |series1| == |series2| > 0
    ensures SumsOf(series2, series1).numerator == SumsOf(series1, series2).numerator
    ensures SumsOf(series2, series1).sum1Sq == SumsOf(series1, series2).sum2Sq
    ensures SumsOf(series2, series1).sum2Sq == SumsOf(series1, series2).sum1Sq
  {
    CrossDeviationsSymmetric(series1, series2, Mean(series1), Mean(series2));
  }

  /** The correlation of two series does not depend on their order. */
  lemma CorrelationSymmetric(series1: seq<real>, series2: seq<real>, sqrt: real -> real)
    requires |series1| == |series2| > 0
    ensures Coefficient(SumsOf(series2, series1), sqrt) == Coefficient(SumsOf(series1, series2), sqrt)
  {
    SumsOfSymmetric(series1, series2);
    SquaresProductSwapped(SumsOf(series1, series2), SumsOf(series2, series1));
  }

  /**
   * A constant series has no centred numerator and a zero sum of squares, so when
   * `sqrt(0) == 0` the correlation is 0 rather than a division by zero.
   */
  lemma ConstantSeriesUncorrelated(series1: seq<real>, series2: seq<real>, sqrt: real -> real)
    requires |series1| == |series2| > 0
    requires Constant(series1) || Constant(series2)
    requires sqrt(0.0) == 0.0
    ensures SumsOf(series1, series2).numerator == 0.0
    ensures SquaresProduct(SumsOf(series1, series2)) == 0.0
    ensures Coefficient(SumsOf(series1, series2), sqrt) == 0.0
  {
    var mean1, mean2 := Mean(series1), Mean(series2);
    if Constant(series1) {
      MeanConstant(series1);
      SquaredDeviationsZero(series1, mean1);
      CrossDeviationsFlat(series1, series2, mean1, mean2);
    } else {
      MeanConstant(series2);
      SquaredDeviationsZero(series2, mean2);
      CrossDeviationsFlat(series2, series1, mean2, mean1);
      CrossDeviationsSymmetric(series1, series2, mean1, mean2);
    }
  }

  /** The squared residual of the deviation pair (x, y) against the weights (p, q). */
  function Residual(p: real, q: real, x: real, y: real): (r: real)
    ensures r >= 0.0
  {
    SquareNonnegative(p * x - q * y);
    Square(p * x - q * y)
  }

  /** The fold of `Math.pow(p * (a[i] - ma) - q * (b[i] - mb), 2)`; it is never negative. */
  function Residuals(a: seq<real>, b: seq<real>, ma: real, mb: real, p: real, q: real): (r: real)
    requires |a| == |b|
    ensures r >= 0.0
  {
    if |a| == 0 then 0.0
    else Residuals(a[..|a| - 1], b[..|b| - 1], ma, mb, p, q) + Residual(p, q, a[|a| - 1] - ma, b[|b| - 1] - mb)
  }

  /** The quadratic form p²·A - 2pq·N + q²·B. */
  function QuadraticForm(p: real, q: real, A: real, N: real, B: real): real
  {
    Square(p) * A - 2.0 * p * q * N + Square(q) * B
  }

  /** One step of the expansion of a residual sum into the three centred sums. */
  lemma ExpandStep(p: real, q: real, x: real, y: real, A: real, A1: real, N: real, N1: real, B: real, B1: real)
    requires A == A1 + Square(x) && N == N1 + x * y && B == B1 + Square(y)
    ensures QuadraticForm(p, q, A, N, B) == QuadraticForm(p, q, A1, N1, B1) + Residual(p, q, x, y)
  {
  }

  /** A residual sum is the quadratic form p²·Σx² - 2pq·Σxy + q²·Σy² in the centred sums. */
  lemma {:induction false} ResidualsExpand(a: seq<real>, b: seq<real>, ma: real, mb: real, p: real, q: real)
    requires |a| == |b|
    ensures Residuals(a, b, ma, mb, p, q)
         == QuadraticForm(p, q, SquaredDeviations(a, ma), CrossDeviations(a, b, ma, mb), SquaredDeviations(b, mb))
  {
    if |a| == 0 {
      assert Square(p) * 0.0 == 0.0 && Square(q) * 0.0 == 0.0;
    } else {
      var n := |a| - 1;
      ExpandStep(p, q, a[n] - ma, b[n] - mb,
                 SquaredDeviations(a, ma), SquaredDeviations(a[..n], ma),
                 CrossDeviations(a, b, ma, mb), CrossDeviations(a[..n], b[..n], ma, mb),
                 SquaredDeviations(b, mb), SquaredDeviations(b[..n], mb));
      ResidualsExpand(a[..n], b[..n], ma, mb, p, q);
    }
  }

  /** The last step of the Cauchy-Schwarz argument, on plain numbers. */
  lemma CauchySchwarzAlgebra(N: real, A: real, B: real)
    requires A > 0.0
    requires QuadraticForm(N, A, A, N, B) >= 0.0
    ensures Square(N) <= A * B
  {
  }

  /** Cauchy-Schwarz for the centred sums: the numerator squared is at most the product of the sums of squares. */
  lemma CauchySchwarz(a: seq<real>, b: seq<real>, ma: real, mb: real)
    requires |a| == |b|
    ensures Square(CrossDeviations(a, b, ma, mb)) <= SquaredDeviations(a, ma) * SquaredDeviations(b, mb)
  {
    var A, B, N := SquaredDeviations(a, ma), SquaredDeviations(b, mb), CrossDeviations(a, b, ma, mb);
    if A == 0.0 {
      SquaredDeviationsZero(a, ma);
      CrossDeviationsFlat(a, b, ma, mb);
      assert Square(N) == 0.0 && A * B == 0.0;
    } else {
      ResidualsExpand(a, b, ma, mb, N, A);
      CauchySchwarzAlgebra(N, A, B);
    }
  }

  /**
   * When `sqrt` is a true square root at the denominator's argument, the correlation lies
   * in [-1, 1].
   */
  lemma CorrelationBounded(series1: seq<real>, series2: seq<real>, sqrt: real -> real)
    requires |series1| == |series2| > 0
    requires sqrt(SquaresProduct(SumsOf(series1, series2))) >= 0.0
    requires Square(sqrt(SquaresProduct(SumsOf(series1, series2)))) == SquaresProduct(SumsOf(series1, series2))
    ensures -1.0 <= Coefficient(SumsOf(series1, series2), sqrt) <= 1.0
  {
    var t := SumsOf(series1, series2);
    CauchySchwarz(series1, series2, Mean(series1), Mean(series2));
    var d := sqrt(SquaresProduct(t));
    if d != 0.0 {
      RatioBound(t.numerator, d);
    }
  }

  /**
   * A series that is not constant is perfectly correlated with itself, when `sqrt` is a
   * true square root at the denominator's argument.
   */
  lemma SelfCorrelation(series: seq<real>, sqrt: real -> real)
    requires |series| > 0 && !Constant(series)
    requires sqrt(SquaresProduct(SumsOf(series, series))) >= 0.0
    requires Square(sqrt(SquaresProduct(SumsOf(series, series)))) == SquaresProduct(SumsOf(series, series))
    ensures Coefficient(SumsOf(series, series), sqrt) == 1.0
  {
    var t := SumsOf(series, series);
    var m := Mean(series);
    CrossDeviationsSelf(series, m);
    SquaredDeviationsZero(series, m);
    VarianceZeroIffConstant(series);
    assert t.sum1Sq > 0.0;
    assert SquaresProduct(t) == Square(t.sum1Sq);
    var d := sqrt(SquaresProduct(t));
    SquareInjective(d, t.sum1Sq);
    assert t.numerator == d;
    assert t.numerator / d == 1.0;
  }
}
