/**
 * The per-bar entry/exit rule of BacktestingSystem.generate_signals.
 *
 * Indicator values are Option<real>: None is a NaN (a warm-up entry of a
 * rolling indicator). Every comparison that involves a NaN is false, as in
 * IEEE arithmetic, so a bar whose RSI is missing never signals.
 */
module Signals {
  import opened Wrappers

  const BUY: int := 1
  const SELL: int := -1
  const HOLD: int := 0

  /** The indicator series the rule reads, each aligned index for index with the closes. */
  datatype Indicators = Indicators(
    rsi: seq<Option<real>>,
    macd: seq<Option<real>>,
    roc: seq<Option<real>>,
    bbLow: seq<Option<real>>,
    bbHigh: seq<Option<real>>)

  predicate Aligned(ind: Indicators, n: nat)
  {
    |ind.rsi| == n && |ind.macd| == n && |ind.roc| == n && |ind.bbLow| == n && |ind.bbHigh| == n
  }

  /** a < b under IEEE semantics: false whenever either side is NaN. */
  predicate Below(a: Option<real>, b: Option<real>)
  {
    a.Some? && b.Some? && a.value < b.value
  }

  /** a > b under IEEE semantics: false whenever either side is NaN. */
  predicate Above(a: Option<real>, b: Option<real>)
  {
    a.Some? && b.Some? && a.value > b.value
  }

  /**
   * Day-over-day MACD change, as np.diff(macd, prepend=NaN) gives it: NaN on
   * the first bar and wherever either operand is NaN.
   */
  function MacdDelta(macd: seq<Option<real>>, i: nat): (d: Option<real>)
    requires i < |macd|
    ensures d.Some? <==> i > 0 && macd[i].Some? && macd[i - 1].Some?
    ensures d.Some? ==> macd[i - 1].value + d.value == macd[i].value
  {
    if i == 0 then None
    else match (macd[i], macd[i - 1])
      case (Some(today), Some(yesterday)) => Some(today - yesterday)
      case _ => None
  }

  /** RSI < oversold AND (close < lower band OR MACD delta > 0 OR ROC > 0). */
  predicate BuyCondition(close: seq<real>, ind: Indicators, oversold: real, i: nat)
    requires Aligned(ind, |close|) && i < |close|
  {
    Below(ind.rsi[i], Some(oversold)) &&
    (Below(Some(close[i]), ind.bbLow[i]) ||
     Above(MacdDelta(ind.macd, i), Some(0.0)) ||
     Above(ind.roc[i], Some(0.0)))
  }

  /** RSI > overbought AND (close > upper band OR MACD delta < 0 OR ROC < 0). */
  predicate SellCondition(close: seq<real>, ind: Indicators, overbought: real, i: nat)
    requires Aligned(ind, |close|) && i < |close|
  {
    Above(ind.rsi[i], Some(overbought)) &&
    (Above(Some(close[i]), ind.bbHigh[i]) ||
     Below(MacdDelta(ind.macd, i), Some(0.0)) ||
     Below(ind.roc[i], Some(0.0)))
  }

  /**
   * The buy mask in terms of the raw series: RSI present and below oversold,
   * and the close present below a present lower band, or the MACD present on
   * this bar and the previous one and rising, or a present positive ROC.
   */
  lemma BuyMask(close: seq<real>, ind: Indicators, oversold: real, i: nat)
    requires Aligned(ind, |close|) && i < |close|
    ensures BuyCondition(close, ind, oversold, i) <==>
      ind.rsi[i].Some? && ind.rsi[i].value < oversold &&
      ((ind.bbLow[i].Some? && close[i] < ind.bbLow[i].value) ||
       (i > 0 && ind.macd[i].Some? && ind.macd[i - 1].Some? && ind.macd[i].value > ind.macd[i - 1].value) ||
       (ind.roc[i].Some? && ind.roc[i].value > 0.0))
  {
  }

  /** The sell mask in terms of the raw series, mirroring BuyMask. */
  lemma SellMask(close: seq<real>, ind: Indicators, overbought: real, i: nat)
    requires Aligned(ind, |close|) && i < |close|
    ensures SellCondition(close, ind, overbought, i) <==>
      ind.rsi[i].Some? && ind.rsi[i].value > overbought &&
      ((ind.bbHigh[i].Some? && close[i] > ind.bbHigh[i].value) ||
       (i > 0 && ind.macd[i].Some? && ind.macd[i - 1].Some? && ind.macd[i].value < ind.macd[i - 1].value) ||
       (ind.roc[i].Some? && ind.roc[i].value < 0.0))
  {
  }

  /**
   * The signal array: zeros, then 1 written where the buy mask holds, then -1
   * written where the sell mask holds, so a sell overwrites a buy on the same bar.
   */
  function GenerateSignals(close: seq<real>, ind: Indicators, oversold: real, overbought: real): (signals: seq<int>)
    requires Aligned(ind, |close|)
    ensures |signals| == |close|
    ensures forall i :: 0 <= i < |close| ==>
      (signals[i] == SELL <==> SellCondition(close, ind, overbought, i))
    ensures forall i :: 0 <= i < |close| ==>
      (signals[i] == BUY <==> BuyCondition(close, ind, oversold, i) && !SellCondition(close, ind, overbought, i))
    ensures forall i :: 0 <= i < |close| ==>
      (signals[i] == HOLD <==> !BuyCondition(close, ind, oversold, i) && !SellCondition(close, ind, overbought, i))
    ensures forall i :: 0 <= i < |close| && ind.rsi[i].None? ==> signals[i] == HOLD
  {
    var zeros := seq(|close|, i => HOLD);
    var afterBuy := seq(|close|, i requires 0 <= i < |close| =>
      if BuyCondition(close, ind, oversold, i) then BUY else zeros[i]);
    seq(|close|, i requires 0 <= i < |close| =>
      if SellCondition(close, ind, overbought, i) then SELL else afterBuy[i])
  }

  /**
   * Both conditions hold on one bar only when the thresholds overlap
   * (overbought below oversold); with the default 35/65 the sell-over-buy
   * tie-break never comes into play.
   */
  lemma TieNeedsOverlappingThresholds(close: seq<real>, ind: Indicators, oversold: real, overbought: real, i: nat)
    requires Aligned(ind, |close|) && i < |close|
    requires BuyCondition(close, ind, oversold, i) && SellCondition(close, ind, overbought, i)
    ensures overbought < oversold
  {
  }
}
