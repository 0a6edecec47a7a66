/** Sums, means, variance, standard deviation, z-score and the moving average. */
module Statistics {
  import opened Results
  import opened Squares

  /** The message `movingAverage` throws for a window it cannot use. */
  const InvalidWindow := "Invalid window size"

  /** The fold `xs.reduce((sum, v) => sum + v, 0)`, taken left to right. */
  function Sum(xs: seq<real>): real
  {
    if |xs| == 0 then 0.0 else Sum(xs[..|xs| - 1]) + xs[|xs| - 1]
  }

  /** The arithmetic mean: the sum divided by the number of values. */
  function Mean(xs: seq<real>): real
    requires |xs| > 0
  {
    Sum(xs) / |xs| as real
  }

  /** Every value of `xs` is the first one. */
  predicate Constant(xs: seq<real>)
  {
    forall i :: 0 <= i < |xs| ==> xs[i] == xs[0]
  }

  /** `xs` with `c` added to every value. */
  function Shift(xs: seq<real>, c: real): (r: seq<real>)
    ensures |r| == |xs|
    ensures forall i :: 0 <= i < |xs| ==> r[i] == xs[i] + c
  {
    seq(|xs|, i requires 0 <= i < |xs| => xs[i] + c)
  }

  /** The fold `xs.reduce((sum, v) => sum + Math.pow(v - m, 2), 0)`; it is never negative. */
  function SquaredDeviations(xs: seq<real>, m: real): (r: real)
    ensures r >= 0.0
  {
    if |xs| == 0 then 0.0
    else
      SquareNonnegative(xs[|xs| - 1] - m);
      SquaredDeviations(xs[..|xs| - 1], m) + Square(xs[|xs| - 1] - m)
  }

  /** Summing a concatenation sums its parts. */
  lemma {:induction false} SumAppend(xs: seq<real>, ys: seq<real>)
    ensures Sum(xs + ys) == Sum(xs) + Sum(ys)
  {
    if |ys| == 0 {
      assert xs + ys == xs;
    } else {
      assert (xs + ys)[..|xs + ys| - 1] == xs + ys[..|ys| - 1];
      SumAppend(xs, ys[..|ys| - 1]);
    }
  }

  /** A sum of values in [lo, hi] lies between n * lo and n * hi. */
  lemma {:induction false} SumBounds(xs: seq<real>, lo: real, hi: real)
    requires forall i :: 0 <= i < |xs| ==> lo <= xs[i] <= hi
    ensures |xs| as real * lo <= Sum(xs) <= |xs| as real * hi
  {
    if |xs| > 0 {
      var n := |xs| - 1;
      SumBounds(xs[..n], lo, hi);
      assert (n + 1) as real * lo == n as real * lo + lo;
      assert (n + 1) as real * hi == n as real * hi + hi;
    }
  }

  /** The sum of a constant sequence is its length times the value. */
  lemma {:induction false} SumConstant(xs: seq<real>, c: real)
    requires forall i :: 0 <= i < |xs| ==> xs[i] == c
    ensures Sum(xs) == |xs| as real * c
  {
    SumBounds(xs, c, c);
  }

  /** Shifting every value by c adds n * c to the sum. */
  lemma {:induction false} SumShift(xs: seq<real>, c: real)
    ensures Sum(Shift(xs, c)) == Sum(xs) + |xs| as real * c
  {
    if |xs| > 0 {
      var n := |xs| - 1;
      assert Shift(xs, c)[..n] == Shift(xs[..n], c);
      SumShift(xs[..n], c);
      assert (n + 1) as real * c == n as real * c + c;
    }
  }

  /** The mean of values in [lo, hi] lies in [lo, hi]. */
  lemma MeanBounds(xs: seq<real>, lo: real, hi: real)
    requires |xs| > 0
    requires forall i :: 0 <= i < |xs| ==> lo <= xs[i] <= hi
    ensures lo <= Mean(xs) <= hi
  {
    SumBounds(xs, lo, hi);
  }

  /** The mean of a constant sequence is that constant. */
  lemma MeanConstant(xs: seq<real>)
    requires |xs| > 0 && Constant(xs)
    ensures Mean(xs) == xs[0]
  {
    SumConstant(xs, xs[0]);
  }

  /** Shifting every value by c shifts the mean by c. */
  lemma MeanShift(xs: seq<real>, c: real)
    requires |xs| > 0
    ensures Mean(Shift(xs, c)) == Mean(xs) + c
  {
    SumShift(xs, c);
  }

  /** The squared deviations vanish exactly when every value is the reference point. */
  lemma {:induction false} SquaredDeviationsZero(xs: seq<real>, m: real)
    ensures SquaredDeviations(xs, m) == 0.0 <==> forall i :: 0 <= i < |xs| ==> xs[i] == m
  {
    if |xs| > 0 {
      var n := |xs| - 1;
      var d := xs[n] - m;
      SquaredDeviationsZero(xs[..n], m);
      SquareNonnegative(d);
      if SquaredDeviations(xs, m) == 0.0 {
        assert SquaredDeviations(xs[..n], m) == 0.0 && Square(d) == 0.0;
        if d != 0.0 { SquarePositive(d); }
        forall i | 0 <= i < |xs|
          ensures xs[i] == m
        {
          if i < n { assert xs[..n][i] == xs[i]; }
        }
      }
    }
  }

  /** Shifting the values and the reference point together leaves the squared deviations alone. */
  lemma {:induction false} SquaredDeviationsShift(xs: seq<real>, m: real, c: real)
    ensures SquaredDeviations(Shift(xs, c), m + c) == SquaredDeviations(xs, m)
  {
    if |xs| > 0 {
      var n := |xs| - 1;
      assert Shift(xs, c)[..n] == Shift(xs[..n], c);
      SquaredDeviationsShift(xs[..n], m, c);
    }
  }

  /** The population variance: the mean squared deviation from the mean (divided by n, not n - 1). */
  function PopulationVariance(xs: seq<real>): (v: real)
    requires |xs| > 0
    ensures v >= 0.0
  {
    SquaredDeviations(xs, Mean(xs)) / |xs| as real
  }

  /** The variance is zero exactly when the series is constant. */
  lemma VarianceZeroIffConstant(xs: seq<real>)
    requires |xs| > 0
    ensures PopulationVariance(xs) == 0.0 <==> Constant(xs)
  {
    var m := Mean(xs);
    SquaredDeviationsZero(xs, m);
    if Constant(xs) {
      MeanConstant(xs);
    }
  }

  /** Adding the same amount to every value does not change the variance. */
  lemma VarianceShiftInvariant(xs: seq<real>, c: real)
    requires |xs| > 0
    ensures PopulationVariance(Shift(xs, c)) == PopulationVariance(xs)
  {
    MeanShift(xs, c);
    SquaredDeviationsShift(xs, Mean(xs), c);
  }

  /**
   * `standardDeviation`: 0 for an empty series, otherwise the square root of the population
   * variance, where `sqrt` stands for `Math.sqrt`.
   */
  function StandardDeviation(data: seq<real>, sqrt: real -> real): (r: real)
    ensures |data| == 0 ==> r == 0.0
    ensures |data| > 0 ==> r == sqrt(PopulationVariance(data))
  {
    if |data| == 0 then 0.0 else sqrt(PopulationVariance(data))
  }

  /**
   * When `sqrt` is a true square root at the variance, the standard deviation is the
   * non-negative number whose square is the variance, and it is zero exactly for a constant series.
   */
  lemma StandardDeviationIsRoot(data: seq<real>, sqrt: real -> real)
    requires |data| > 0
    requires sqrt(PopulationVariance(data)) >= 0.0
    requires Square(sqrt(PopulationVariance(data))) == PopulationVariance(data)
    ensures StandardDeviation(data, sqrt) >= 0.0
    ensures Square(StandardDeviation(data, sqrt)) == PopulationVariance(data)
    ensures StandardDeviation(data, sqrt) == 0.0 <==> Constant(data)
  {
    VarianceZeroIffConstant(data);
    var r := StandardDeviation(data, sqrt);
    if r != 0.0 {
      SquarePositive(r);
    }
  }

  /** `zScore`: how many standard deviations `value` lies from `mean`; 0 when `stdDev` is 0. */
  function ZScore(value: real, mean: real, stdDev: real): (r: real)
    ensures stdDev == 0.0 ==> r == 0.0
    ensures stdDev != 0.0 ==> mean + r * stdDev == value
  {
    if stdDev == 0.0 then 0.0 else (value - mean) / stdDev
  }

  /** The means of every window of `window` consecutive values, in order. */
  function WindowMeans(data: seq<real>, window: nat): (r: seq<real>)
    requires 0 < window <= |data|
    ensures |r| == |data| - window + 1
    ensures forall j :: 0 <= j < |r| ==> r[j] == Mean(data[j..j + window])
  {
    seq(|data| - window + 1, j requires 0 <= j < |data| - window + 1 => Mean(data[j..j + window]))
  }

  /**
   * `movingAverage`: fails for a window that is not positive or longer than the data;
   * otherwise one mean per full window, in chronological order.
   */
  method MovingAverage(data: seq<real>, window: int) returns (r: Result<seq<real>>)
    ensures r.Err? <==> window <= 0 || window > |data|
    ensures r.Err? ==> r.message == InvalidWindow
    ensures r.Ok? ==> |r.value| == |data| - window + 1
    ensures r.Ok? ==> forall j :: 0 <= j < |r.value| ==> r.value[j] == Mean(data[j..j + window])
    ensures r.Ok? ==> r.value == WindowMeans(data, window)
  {
    if window <= 0 || window > |data| {
      return Err(InvalidWindow);
    }
    var result: seq<real> := [];
    var i := window - 1;
    while i < |data|
      invariant window - 1 <= i <= |data|
      invariant |result| == i - window + 1
      invariant forall j :: 0 <= j < |result| ==> result[j] == Mean(data[j..j + window])
    {
      var sum := Sum(data[i - window + 1..i + 1]);
      result := result + [sum / window as real];
      i := i + 1;
    }
    return Ok(result);
  }

  /** A window of one reproduces the data. */
  lemma WindowMeansOfOne(data: seq<real>)
    requires |data| > 0
    ensures WindowMeans(data, 1) == data
  {
    forall j | 0 <= j < |data|
      ensures WindowMeans(data, 1)[j] == data[j]
    {
      assert data[j..j + 1] == [data[j]];
      SumSingleton(data[j]);
    }
  }

  /** A window as long as the data gives the single overall mean. */
  lemma WindowMeansOfAll(data: seq<real>)
    requires |data| > 0
    ensures WindowMeans(data, |data|) == [Mean(data)]
  {
    assert data[0..|data|] == data;
  }

  /** Every moving average lies within the range of the data. */
  lemma WindowMeansBounded(data: seq<real>, window: nat, lo: real, hi: real)
    requires 0 < window <= |data|
    requires forall i :: 0 <= i < |data| ==> lo <= data[i] <= hi
    ensures forall j :: 0 <= j < |WindowMeans(data, window)| ==> lo <= WindowMeans(data, window)[j] <= hi
  {
    forall j | 0 <= j < |WindowMeans(data, window)|
      ensures lo <= WindowMeans(data, window)[j] <= hi
    {
      MeanBounds(data[j..j + window], lo, hi);
    }
  }

  /** The sum of a one-value sequence is that value. */
  lemma SumSingleton(x: real)
    ensures Sum([x]) == x
  {
    assert [x][..0] == [];
  }

  /** The sum over w + 1 consecutive values, split at either end. */
  lemma SumSlide(s: seq<real>)
    requires |s| > 0
    ensures Sum(s[1..]) == Sum(s[..|s| - 1]) - s[0] + s[|s| - 1]
  {
    assert s == [s[0]] + s[1..];
    SumAppend([s[0]], s[1..]);
    SumSingleton(s[0]);
  }

  /**
   * Sliding the window one step drops the oldest value and adds the newest:
   * the window sum changes by `data[j + window] - data[j]`.
   */
  lemma WindowMeansSlide(data: seq<real>, window: nat, j: nat)
    requires 0 < window && j + window < |data|
    ensures WindowMeans(data, window)[j + 1] * window as real
         == WindowMeans(data, window)[j] * window as real - data[j] + data[j + window]
  {
    var s := data[j..j + window + 1];
    SumSlide(s);
    assert s[1..] == data[j + 1..j + 1 + window];
    assert s[..|s| - 1] == data[j..j + window];
    var w := window as real;
    var next, prev := Sum(s[1..]), Sum(s[..|s| - 1]);
    assert next / w * w == next;
    assert prev / w * w == prev;
  }
}
