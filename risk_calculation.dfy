/**
 * RiskCalculation: statistics of the close-to-close return series of a price
 * history. NaN results are None. The sample standard deviation needs a square
 * root, so it enters as a parameter tied to the sample variance by IsStdevOf;
 * the normal quantile of the parametric VaR enters as the parameter z.
 */
module RiskCalculation {
  import opened Wrappers
  import opened SeqStats

  const DEFAULT_CONFIDENCE_LEVEL: real := 0.95
  const DEFAULT_RISK_FREE_RATE: real := 0.01

  predicate PositivePrices(close: seq<real>)
  {
    forall i :: 0 <= i < |close| ==> close[i] > 0.0
  }

  /** Close.pct_change().dropna(): one simple return per pair of consecutive closes. */
  function Returns(close: seq<real>): (r: seq<real>)
    requires PositivePrices(close)
    ensures |r| == if |close| == 0 then 0 else |close| - 1
    ensures forall i {:trigger r[i]} :: 0 <= i < |r| ==> close[i] * (1.0 + r[i]) == close[i + 1]
  {
    if |close| <= 1 then []
    else seq(|close| - 1, i requires 0 <= i < |close| - 1 => close[i + 1] / close[i] - 1.0)
  }

  /** Product of (1 + r) over a return series. */
  function Growth(r: seq<real>): real
  {
    if |r| == 0 then 1.0 else Growth(r[..|r| - 1]) * (1.0 + r[|r| - 1])
  }

  /** (1 + returns).cumprod(): the growth of one unit of wealth after each return. */
  function CumProd(r: seq<real>): seq<real>
  {
    seq(|r|, i requires 0 <= i < |r| => Growth(r[..i + 1]))
  }

  /** cummax(): the highest value seen so far at each step. */
  function RunningMax(c: seq<real>): seq<real>
  {
    seq(|c|, i requires 0 <= i < |c| => Maximum(c[..i + 1]))
  }

  /**
   * CumProd is the running product of (1 + r): it starts at 1 + r[0] and each
   * step multiplies the previous value by the next growth factor.
   */
  lemma CumProdRecurrence(r: seq<real>)
    ensures |CumProd(r)| == |r|
    ensures |r| > 0 ==> CumProd(r)[0] == 1.0 + r[0]
    ensures forall i :: 0 < i < |r| ==> CumProd(r)[i] == CumProd(r)[i - 1] * (1.0 + r[i])
  {
    var c := CumProd(r);
    if |r| > 0 {
      GrowthStep(r, 0);
      assert r[..0] == [];
    }
    forall i | 0 < i < |r| ensures c[i] == c[i - 1] * (1.0 + r[i]) {
      GrowthStep(r, i);
    }
  }

  lemma GrowthStep(r: seq<real>, i: nat)
    requires i < |r|
    ensures Growth(r[..i + 1]) == Growth(r[..i]) * (1.0 + r[i])
  {
    assert r[..i + 1][..i] == r[..i];
  }

  /** Each running-maximum entry is the largest value seen up to that step. */
  lemma RunningMaxIsPeak(c: seq<real>)
    ensures |RunningMax(c)| == |c|
    ensures forall i, k :: 0 <= k <= i < |c| ==> c[k] <= RunningMax(c)[i]
    ensures forall i :: 0 <= i < |c| ==> RunningMax(c)[i] in c[..i + 1]
  {
    var m := RunningMax(c);
    forall i, k | 0 <= k <= i < |c| ensures c[k] <= m[i] {
      assert c[..i + 1][k] == c[k];
    }
  }

  /** After i + 1 returns, one unit of wealth has grown to close[i + 1] / close[0]. */
  lemma {:induction false} GrowthIsPriceRatio(close: seq<real>, i: nat)
    requires PositivePrices(close)
    requires i + 1 < |close|
    ensures Growth(Returns(close)[..i + 1]) == close[i + 1] / close[0]
  {
    var r := Returns(close);
    assert r[..i + 1][..i] == r[..i];
    if i == 0 {
      assert r[..0] == [];
      assert 1.0 + r[0] == close[1] / close[0];
    } else {
      GrowthIsPriceRatio(close, i - 1);
      assert 1.0 + r[i] == close[i + 1] / close[i];
      RatioChain(close[0], close[i], close[i + 1]);
    }
  }

  lemma RatioChain(x: real, y: real, z: real)
    requires x > 0.0 && y > 0.0
    ensures (y / x) * (z / y) == z / x
  {
  }

  lemma {:induction false} CumulativeIsPriceRatio(close: seq<real>)
    requires PositivePrices(close)
    ensures |CumProd(Returns(close))| == |Returns(close)|
    ensures forall i :: 0 <= i < |CumProd(Returns(close))| ==>
      CumProd(Returns(close))[i] == close[i + 1] / close[0] > 0.0
  {
    var cp := CumProd(Returns(close));
    forall i | 0 <= i < |cp|
      ensures cp[i] == close[i + 1] / close[0] > 0.0
    {
      CumulativeAt(close, i);
    }
  }

  /** One entry of the cumulative series is the price ratio to the first close. */
  lemma CumulativeAt(close: seq<real>, i: nat)
    requires PositivePrices(close)
    requires i + 1 < |close|
    ensures CumProd(Returns(close))[i] == close[i + 1] / close[0] > 0.0
  {
    var r := Returns(close);
    assert CumProd(r)[i] == Growth(r[..i + 1]);
    GrowthIsPriceRatio(close, i);
    var a, b := close[i + 1], close[0];
    assert a / b > 0.0 by { PositiveQuotient(a, b); }
  }

  lemma PositiveQuotient(a: real, b: real)
    requires a > 0.0 && b > 0.0
    ensures a / b > 0.0
  {
  }

  /** The running maximum dominates the series and never decreases. */
  lemma {:induction false} RunningMaxProperties(c: seq<real>)
    ensures |RunningMax(c)| == |c|
    ensures forall i :: 0 <= i < |c| ==> c[i] <= RunningMax(c)[i]
    ensures forall i, j :: 0 <= i <= j < |c| ==> RunningMax(c)[i] <= RunningMax(c)[j]
  {
    var m := RunningMax(c);
    forall i | 0 <= i < |c| ensures c[i] <= m[i] {
      assert c[..i + 1][i] == c[i];
    }
    forall i, j | 0 <= i <= j < |c| ensures m[i] <= m[j] {
      PrefixMaximumGrows(c, i, j);
    }
  }

  lemma PrefixMaximumGrows(c: seq<real>, i: nat, j: nat)
    requires i <= j < |c|
    ensures RunningMax(c)[i] <= RunningMax(c)[j]
  {
    var head, longer := c[..i + 1], c[..j + 1];
    assert RunningMax(c)[i] == Maximum(head);
    assert RunningMax(c)[j] == Maximum(longer);
    var k :| 0 <= k < |head| && head[k] == Maximum(head);
    assert longer[k] == head[k];
  }

  /** The cumulative series is positive and never above its running maximum. */
  lemma {:induction false} CumulativeBelowRunningMax(close: seq<real>)
    requires PositivePrices(close)
    ensures |RunningMax(CumProd(Returns(close)))| == |CumProd(Returns(close))|
    ensures forall i :: 0 <= i < |CumProd(Returns(close))| ==>
      0.0 < CumProd(Returns(close))[i] <= RunningMax(CumProd(Returns(close)))[i]
  {
    CumulativeIsPriceRatio(close);
    RunningMaxProperties(CumProd(Returns(close)));
  }

  /**
   * (cumulative - running_max) / running_max at every step. With positive
   * prices every value lies in (-1, 0].
   */
  function DrawdownSeries(close: seq<real>): (d: seq<real>)
    requires PositivePrices(close)
    ensures |d| == |Returns(close)|
    ensures forall i :: 0 <= i < |d| ==> -1.0 < d[i] <= 0.0
  {
    CumulativeBelowRunningMax(close);
    Drawdowns(CumProd(Returns(close)), RunningMax(CumProd(Returns(close))))
  }

  /** Relative distance of each value below its peak. */
  function Drawdowns(c: seq<real>, m: seq<real>): (d: seq<real>)
    requires |c| == |m|
    requires forall i :: 0 <= i < |c| ==> 0.0 < c[i] <= m[i]
    ensures |d| == |c|
    ensures forall i :: 0 <= i < |d| ==> -1.0 < d[i] <= 0.0
  {
    DrawdownsInRange(c, m);
    seq(|c|, i requires 0 <= i < |c| => (c[i] - m[i]) / m[i])
  }

  lemma DrawdownsInRange(c: seq<real>, m: seq<real>)
    requires |c| == |m|
    requires forall i :: 0 <= i < |c| ==> 0.0 < c[i] <= m[i]
    ensures forall i :: 0 <= i < |c| ==> -1.0 < (c[i] - m[i]) / m[i] <= 0.0
  {
    forall i | 0 <= i < |c| ensures -1.0 < (c[i] - m[i]) / m[i] <= 0.0 {
      DrawdownRange(c[i], m[i]);
    }
  }

  lemma DrawdownRange(c: real, m: real)
    requires 0.0 < c <= m
    ensures -1.0 < (c - m) / m <= 0.0
  {
    var d := (c - m) / m;
    assert d * m == c - m;
  }

  /**
   * compute_drawdown and compute_max_drawdown (the same code twice): the
   * smallest drawdown, NaN when there are no returns.
   */
  function MaxDrawdown(close: seq<real>): (r: Option<real>)
    requires PositivePrices(close)
    ensures r.None? <==> |close| <= 1
    ensures r.Some? ==> -1.0 < r.value <= 0.0
    ensures r.Some? ==> r.value in DrawdownSeries(close)
    ensures r.Some? ==> forall i :: 0 <= i < |DrawdownSeries(close)| ==> r.value <= DrawdownSeries(close)[i]
  {
    var d := DrawdownSeries(close);
    if |d| == 0 then None else Some(Minimum(d))
  }

  /** Sum of squared deviations from mu. */
  function SquaredDeviations(s: seq<real>, mu: real): real
  {
    if |s| == 0 then 0.0 else (s[0] - mu) * (s[0] - mu) + SquaredDeviations(s[1..], mu)
  }

  /** pandas' std() squared (ddof = 1); NaN for fewer than two values. */
  function SampleVariance(s: seq<real>): Option<real>
  {
    if |s| < 2 then None else Some(SquaredDeviations(s, Sum(s) / (|s| as real)) / ((|s| - 1) as real))
  }

  /**
   * sd is the sample standard deviation of s: NaN exactly when the variance
   * is, otherwise the non-negative square root of the variance (so zero
   * exactly when the variance is zero, stated outright for the verifier).
   */
  predicate IsStdevOf(sd: Option<real>, s: seq<real>)
  {
    match SampleVariance(s)
    case None => sd.None?
    case Some(v) => sd.Some? && sd.value >= 0.0 && sd.value * sd.value == v && (sd.value == 0.0 <==> v == 0.0)
  }

  /**
   * The sample variance is defined exactly from two values on, is never
   * negative, and is zero for a constant series.
   */
  lemma SampleVarianceProperties(s: seq<real>)
    ensures SampleVariance(s).Some? <==> |s| >= 2
    ensures SampleVariance(s).Some? ==> SampleVariance(s).value >= 0.0
    ensures |s| >= 2 && (forall i :: 0 <= i < |s| ==> s[i] == s[0]) ==> SampleVariance(s) == Some(0.0)
  {
    if |s| >= 2 {
      var n := |s| as real;
      var mu := Sum(s) / n;
      var sq := SquaredDeviations(s, mu);
      assert sq >= 0.0 by { SquaredDeviationsNonNegative(s, mu); }
      assert sq / ((|s| - 1) as real) >= 0.0 by { NonNegativeQuotient(sq, (|s| - 1) as real); }
      if forall i :: 0 <= i < |s| ==> s[i] == s[0] {
        assert mu == s[0] by {
          SumLowerBound(s, s[0]);
          SumUpperBound(s, s[0]);
          ConstantMean(Sum(s), n, s[0]);
        }
        SquaredDeviationsAtConstant(s, mu);
      }
    }
  }

  lemma ConstantMean(total: real, n: real, x: real)
    requires n > 0.0 && total == n * x
    ensures total / n == x
  {
  }

  lemma {:induction false} SquaredDeviationsNonNegative(s: seq<real>, mu: real)
    ensures SquaredDeviations(s, mu) >= 0.0
  {
    if |s| > 0 {
      SquaredDeviationsNonNegative(s[1..], mu);
      var d := s[0] - mu;
      assert d * d >= 0.0;
    }
  }

  lemma {:induction false} SquaredDeviationsAtConstant(s: seq<real>, mu: real)
    requires forall i :: 0 <= i < |s| ==> s[i] == mu
    ensures SquaredDeviations(s, mu) == 0.0
  {
    if |s| > 0 {
      SquaredDeviationsAtConstant(s[1..], mu);
    }
  }

  lemma NonNegativeQuotient(a: real, b: real)
    requires a >= 0.0 && b > 0.0
    ensures a / b >= 0.0
  {
  }

  /**
   * compute_sharpe_ratio: (mean return - risk-free rate) / stdev, NaN when the
   * stdev is zero (the guard) or NaN (NaN propagates through the division).
   */
  function SharpeRatio(close: seq<real>, riskFreeRate: real, sd: Option<real>): (r: Option<real>)
    requires PositivePrices(close)
    ensures r.Some? <==> |close| >= 2 && sd.Some? && sd.value != 0.0
    ensures r.Some? ==> r.value * sd.value == Mean(Returns(close)).value - riskFreeRate
  {
    match (Mean(Returns(close)), sd)
    case (Some(mu), Some(s)) => if s != 0.0 then Some((mu - riskFreeRate) / s) else None
    case _ => None
  }

  /** compute_var: mean return + z * stdev, with z the normal quantile at 1 - confidence. */
  function ValueAtRisk(close: seq<real>, z: real, sd: Option<real>): (r: Option<real>)
    requires PositivePrices(close)
    ensures r.Some? <==> |close| >= 2 && sd.Some?
    ensures r.Some? ==> r.value - z * sd.value == Mean(Returns(close)).value
  {
    match (Mean(Returns(close)), sd)
    case (Some(mu), Some(s)) => Some(mu + z * s)
    case _ => None
  }

  /** Python's int() on a float: truncation toward zero. */
  function Truncate(x: real): (n: int)
    ensures x >= 0.0 ==> n == x.Floor
    ensures n > 0 <==> x >= 1.0
  {
    if x >= 0.0 then x.Floor else -((-x).Floor)
  }

  /** int((1 - confidence) * n): how many of the n lowest returns form the tail. */
  function Cutoff(confidence: real, n: nat): (k: int)
    ensures k > 0 <==> (1.0 - confidence) * (n as real) >= 1.0
    ensures k > 0 ==> n > 0
  {
    var x := (1.0 - confidence) * (n as real);
    assert n == 0 ==> x == 0.0;
    Truncate(x)
  }

  /**
   * compute_expected_shortfall: the mean of the cutoff smallest returns, where
   * cutoff = int((1 - confidence) * N); NaN when cutoff is not positive. A
   * cutoff above N takes every return, as a numpy slice past the end does.
   */
  function ExpectedShortfall(close: seq<real>, confidence: real): (r: Option<real>)
    requires PositivePrices(close)
    ensures r.Some? <==> Cutoff(confidence, |Returns(close)|) > 0
    ensures r.Some? ==> Mean(Returns(close)).Some? && r.value <= Mean(Returns(close)).value
  {
    var series := Returns(close);
    var cutoff := Cutoff(confidence, |series|);
    if cutoff > 0 then
      var k := if cutoff < |series| then cutoff else |series|;
      TailMeanAtMostMean(series, k);
      Mean(Sort(series)[..k])
    else None
  }

  /** The mean of the k lowest values never exceeds the mean of all of them. */
  lemma TailMeanAtMostMean(s: seq<real>, k: nat)
    requires 0 < k <= |s|
    ensures Mean(Sort(s)[..k]).Some? && Mean(s).Some?
    ensures Mean(Sort(s)[..k]).value <= Mean(s).value
  {
    var sorted := Sort(s);
    PrefixMeanAtMostMean(sorted, k);
    SameMean(sorted, s);
  }

  lemma {:induction false} SumOfZeros(s: seq<real>)
    requires forall i :: 0 <= i < |s| ==> s[i] == 0.0
    ensures Sum(s) == 0.0
    ensures SquaredDeviations(s, 0.0) == 0.0
  {
    if |s| > 0 {
      SumOfZeros(s[1..]);
    }
  }

  /**
   * A constant price history has only zero returns, so its stdev is 0: the
   * Sharpe ratio is NaN and, with at least two returns, the VaR is 0.
   */
  lemma ConstantPrices(close: seq<real>, riskFreeRate: real, z: real, sd: Option<real>)
    requires |close| >= 1 && close[0] > 0.0
    requires forall i :: 0 <= i < |close| ==> close[i] == close[0]
    requires IsStdevOf(sd, Returns(close))
    ensures SharpeRatio(close, riskFreeRate, sd) == None
    ensures |close| >= 3 ==> ValueAtRisk(close, z, sd) == Some(0.0)
  {
    var r := Returns(close);
    forall i | 0 <= i < |r| ensures r[i] == 0.0 {
      assert close[i] * (1.0 + r[i]) == close[i + 1];
    }
    SumOfZeros(r);
    if |r| >= 2 {
      assert Sum(r) / (|r| as real) == 0.0;
      assert SampleVariance(r) == Some(0.0);
    }
  }
}
