/**
 * BacktestingSystem: a long-only, single-position backtest over one price
 * history. The state a run mutates (cash, the open-position slot and the
 * closed-trade log) lives in the class; the same state as a value, Ledger,
 * carries the pure specification of one call of execute_trade (Execute), of
 * one bar of the loop (BarStep) and of a whole run (Replay, EquityCurve).
 * Dates are bar indices.
 */
module Backtesting {
  import opened Wrappers
  import opened SeqStats
  import Signals
  import RiskCalculation

  datatype Status = Open | Closed

  /** One position; the exit fields are None (Python None) until it is closed. */
  datatype Trade = Trade(
    entryDate: nat,
    entryPrice: real,
    shares: real,
    stopLoss: real,
    takeProfit: real,
    status: Status,
    exitDate: Option<nat>,
    exitPrice: Option<real>,
    profit: Option<real>)

  /**
   * The strategy parameters of BacktestingSystem: positionSize, stopLoss and
   * takeProfit are fractions (of capital, of the entry price), the RSI
   * thresholds are levels.
   */
  datatype Config = Config(
    initialCapital: real,
    positionSize: real,
    stopLoss: real,
    takeProfit: real,
    rsiOversold: real,
    rsiOverbought: real)

  /** Cash, the open-position slot and the closed-trade log, as a value. */
  datatype Ledger = Ledger(capital: real, positions: seq<Trade>, history: seq<Trade>)

  predicate OpenTrade(t: Trade)
  {
    t.status == Open && t.shares > 0.0 && t.exitDate.None? && t.exitPrice.None? && t.profit.None?
  }

  predicate ClosedTrade(t: Trade)
  {
    t.status == Closed && t.exitDate.Some? && t.exitPrice.Some? &&
    t.profit == Some(RealisedProfit(t.entryPrice, t.exitPrice.value, t.shares))
  }

  /** Profit of a round trip of shares bought at entryPrice and sold at exitPrice. */
  function RealisedProfit(entryPrice: real, exitPrice: real, shares: real): real
  {
    (exitPrice - entryPrice) * shares
  }

  /** At most one position is open, and every logged trade is closed with its profit. */
  predicate Consistent(st: Ledger)
  {
    |st.positions| <= 1 &&
    (forall i :: 0 <= i < |st.positions| ==> OpenTrade(st.positions[i])) &&
    (forall i :: 0 <= i < |st.history| ==> ClosedTrade(st.history[i]))
  }

  datatype Sizing = Sizing(shares: real, capitalRequired: real)

  /**
   * calculate_position_size: fixed-fractional sizing. The shares risk
   * capital * positionSize if the stop is hit; the cash set aside is the
   * cost of those shares, capped at the capital available.
   */
  function PositionSize(cfg: Config, capital: real, entryPrice: real): (s: Sizing)
    ensures entryPrice * cfg.stopLoss > 0.0 ==>
      s.shares * (entryPrice * cfg.stopLoss) == capital * cfg.positionSize
    ensures entryPrice * cfg.stopLoss <= 0.0 ==> s.shares == 0.0
    ensures s.capitalRequired <= capital && s.capitalRequired <= s.shares * entryPrice
    ensures s.capitalRequired == capital || s.capitalRequired == s.shares * entryPrice
  {
    var riskAmount := capital * cfg.positionSize;
    var stopLossAmount := entryPrice * cfg.stopLoss;
    var shares := if stopLossAmount > 0.0 then riskAmount / stopLossAmount else 0.0;
    var capitalRequired := shares * entryPrice;
    Sizing(shares, if capitalRequired <= capital then capitalRequired else capital)
  }

  /** The trade execute_trade opens: stop and target set as fractions around the entry. */
  function OpenPosition(cfg: Config, price: real, shares: real, date: nat): (t: Trade)
    ensures t.entryDate == date && t.entryPrice == price && t.shares == shares
    ensures shares > 0.0 ==> OpenTrade(t)
    ensures price > 0.0 && cfg.stopLoss > 0.0 ==> t.stopLoss < price
    ensures price > 0.0 && cfg.stopLoss < 1.0 ==> t.stopLoss > 0.0
    ensures price > 0.0 && cfg.takeProfit > 0.0 ==> t.takeProfit > price
  {
    ScaleBounds(price, 1.0 - cfg.stopLoss);
    ScaleBounds(price, 1.0 + cfg.takeProfit);
    Trade(date, price, shares, price * (1.0 - cfg.stopLoss), price * (1.0 + cfg.takeProfit),
          Open, None, None, None)
  }

  /** Scaling a positive price by a factor above or below 1. */
  lemma ScaleBounds(price: real, f: real)
    ensures price > 0.0 && f < 1.0 ==> price * f < price
    ensures price > 0.0 && f > 0.0 ==> price * f > 0.0
    ensures price > 0.0 && f > 1.0 ==> price * f > price
  {
    if price > 0.0 {
      assert price * f - price == price * (f - 1.0);
    }
  }

  /** The same trade, closed at price on date with its realised profit. */
  function CloseTrade(t: Trade, price: real, date: nat): (c: Trade)
    ensures ClosedTrade(c)
    ensures c.exitDate == Some(date) && c.exitPrice == Some(price)
    ensures c.entryDate == t.entryDate && c.entryPrice == t.entryPrice && c.shares == t.shares
    ensures c.stopLoss == t.stopLoss && c.takeProfit == t.takeProfit
  {
    Trade(t.entryDate, t.entryPrice, t.shares, t.stopLoss, t.takeProfit,
          Closed, Some(date), Some(price), Some(RealisedProfit(t.entryPrice, price, t.shares)))
  }

  /**
   * execute_trade: a buy while flat opens a position, a sell while long closes
   * it and logs it; every other combination, a zero signal and a non-positive
   * price change nothing.
   */
  function Execute(cfg: Config, st: Ledger, signal: int, price: real, date: nat): (r: Ledger)
    ensures st.history <= r.history && |r.history| <= |st.history| + 1
    ensures |r.history| == |st.history| + 1 <==> signal == Signals.SELL && price > 0.0 && st.positions != []
    ensures signal == Signals.HOLD || price <= 0.0 ==> r == st
    ensures signal == Signals.BUY && st.positions != [] ==> r == st
    ensures signal == Signals.SELL && st.positions == [] ==> r == st
    ensures (signal == Signals.BUY && price > 0.0 && st.positions == [] &&
             PositionSize(cfg, st.capital, price).shares <= 0.0) ==> r == st
    ensures signal != Signals.BUY && signal != Signals.SELL ==> r == st
  {
    if signal == Signals.HOLD || price <= 0.0 then st
    else if signal == Signals.BUY && st.positions == [] then
      var sizing := PositionSize(cfg, st.capital, price);
      if sizing.capitalRequired <= st.capital && sizing.shares > 0.0 then
        Ledger(st.capital - sizing.capitalRequired,
               st.positions + [OpenPosition(cfg, price, sizing.shares, date)],
               st.history)
      else st
    else if signal == Signals.SELL && st.positions != [] then
      var closed := CloseTrade(st.positions[0], price, date);
      Ledger(st.capital + closed.shares * price, [], st.history + [closed])
    else st
  }

  /**
   * The forced exit checked at the top of each bar: a stop-loss hit sells at
   * the stop price, otherwise a take-profit hit sells at the target price.
   */
  function ForcedExit(cfg: Config, st: Ledger, price: real, date: nat): (r: Ledger)
    ensures st.history <= r.history && |r.history| <= |st.history| + 1
    ensures st.positions == [] ==> r == st
  {
    if st.positions == [] then st
    else
      var position := st.positions[0];
      if price <= position.stopLoss then Execute(cfg, st, Signals.SELL, position.stopLoss, date)
      else if price >= position.takeProfit then Execute(cfg, st, Signals.SELL, position.takeProfit, date)
      else st
  }

  /** One iteration of the backtest loop: forced exit first, then the bar's own signal. */
  function BarStep(cfg: Config, st: Ledger, price: real, signal: int, date: nat): (r: Ledger)
    ensures st.history <= r.history && |r.history| <= |st.history| + 2
  {
    Execute(cfg, ForcedExit(cfg, st, price, date), signal, price, date)
  }

  /** The state after bars 1 .. k - 1 of the loop have run from st0. */
  function Replay(cfg: Config, st0: Ledger, close: seq<real>, signals: seq<int>, k: nat): (st: Ledger)
    requires |signals| == |close| && 1 <= k <= |close|
    ensures st0.history <= st.history
    decreases k
  {
    if k == 1 then st0
    else BarStep(cfg, Replay(cfg, st0, close, signals, k - 1), close[k - 1], signals[k - 1], k - 1)
  }

  /**
   * execute_trade keeps the ledger consistent (at most one open position,
   * every logged trade closed with its profit) and non-negative cash
   * non-negative.
   */
  lemma ExecuteConsistent(cfg: Config, st: Ledger, signal: int, price: real, date: nat)
    requires Consistent(st)
    ensures Consistent(Execute(cfg, st, signal, price, date))
    ensures st.capital >= 0.0 ==> Execute(cfg, st, signal, price, date).capital >= 0.0
  {
    if signal == Signals.HOLD || price <= 0.0 {
    } else if signal == Signals.BUY && st.positions == [] {
    } else if signal == Signals.SELL && st.positions != [] {
      var p := st.positions[0];
      assert ClosedTrade(CloseTrade(p, price, date));
      assert p.shares * price > 0.0 by { PositiveProduct(p.shares, price); }
    }
  }

  lemma PositiveProduct(x: real, y: real)
    requires x > 0.0 && y > 0.0
    ensures x * y > 0.0
  {
  }

  /** The forced exit keeps the ledger consistent and non-negative cash non-negative. */
  lemma ForcedExitConsistent(cfg: Config, st: Ledger, price: real, date: nat)
    requires Consistent(st)
    ensures Consistent(ForcedExit(cfg, st, price, date))
    ensures st.capital >= 0.0 ==> ForcedExit(cfg, st, price, date).capital >= 0.0
  {
    if st.positions != [] {
      var p := st.positions[0];
      if price <= p.stopLoss {
        ExecuteConsistent(cfg, st, Signals.SELL, p.stopLoss, date);
      } else if price >= p.takeProfit {
        ExecuteConsistent(cfg, st, Signals.SELL, p.takeProfit, date);
      }
    }
  }

  /** One bar keeps the ledger consistent and non-negative cash non-negative. */
  lemma BarStepConsistent(cfg: Config, st: Ledger, price: real, signal: int, date: nat)
    requires Consistent(st)
    ensures Consistent(BarStep(cfg, st, price, signal, date))
    ensures st.capital >= 0.0 ==> BarStep(cfg, st, price, signal, date).capital >= 0.0
  {
    ForcedExitConsistent(cfg, st, price, date);
    ExecuteConsistent(cfg, ForcedExit(cfg, st, price, date), signal, price, date);
  }

  /**
   * At every bar of a run from a consistent ledger the slot holds at most one
   * open position, every logged trade is closed, and cash that started
   * non-negative stays so.
   */
  lemma {:induction false} ReplayConsistent(cfg: Config, st0: Ledger, close: seq<real>, signals: seq<int>, k: nat)
    requires Consistent(st0)
    requires |signals| == |close| && 1 <= k <= |close|
    ensures Consistent(Replay(cfg, st0, close, signals, k))
    ensures st0.capital >= 0.0 ==> Replay(cfg, st0, close, signals, k).capital >= 0.0
    decreases k
  {
    if k > 1 {
      ReplayConsistent(cfg, st0, close, signals, k - 1);
      BarStepConsistent(cfg, Replay(cfg, st0, close, signals, k - 1), close[k - 1], signals[k - 1], k - 1);
    }
  }

  /** Market value of the open positions at price. */
  function OpenValue(positions: seq<Trade>, price: real): real
  {
    if |positions| == 0 then 0.0 else positions[0].shares * price + OpenValue(positions[1..], price)
  }

  /** Mark-to-market portfolio value: cash plus the open positions at price. */
  function Equity(st: Ledger, price: real): real
  {
    st.capital + OpenValue(st.positions, price)
  }

  /**
   * Marking to market: a flat ledger is worth its cash, a single position adds
   * shares × price, and long positions at a non-negative price add nothing negative.
   */
  lemma EquityMarksToMarket(st: Ledger, price: real)
    ensures st.positions == [] ==> Equity(st, price) == st.capital
    ensures |st.positions| == 1 ==> Equity(st, price) == st.capital + st.positions[0].shares * price
    ensures price >= 0.0 && (forall i :: 0 <= i < |st.positions| ==> st.positions[i].shares >= 0.0) ==>
      Equity(st, price) >= st.capital
  {
    if |st.positions| == 1 {
      assert st.positions[1..] == [];
      assert OpenValue(st.positions[1..], price) == 0.0;
      assert OpenValue(st.positions, price) == st.positions[0].shares * price;
    }
    if price >= 0.0 && forall i :: 0 <= i < |st.positions| ==> st.positions[i].shares >= 0.0 {
      OpenValueNonNegative(st.positions, price);
    }
  }

  lemma {:induction false} OpenValueNonNegative(positions: seq<Trade>, price: real)
    requires price >= 0.0
    requires forall i :: 0 <= i < |positions| ==> positions[i].shares >= 0.0
    ensures OpenValue(positions, price) >= 0.0
  {
    if |positions| > 0 {
      OpenValueNonNegative(positions[1..], price);
      var x := positions[0].shares;
      assert x * price >= 0.0 by { assert x >= 0.0; }
    }
  }

  /** The portfolio value recorded for bar i: the initial capital at bar 0, then after the bar ran. */
  function EquityAt(cfg: Config, st0: Ledger, close: seq<real>, signals: seq<int>, i: nat): real
    requires |signals| == |close| && i < |close|
  {
    if i == 0 then cfg.initialCapital else Equity(Replay(cfg, st0, close, signals, i + 1), close[i])
  }

  /** Running bar i on the state before it gives the state, and the recorded value, of bar i. */
  lemma ReplayAdvances(cfg: Config, st0: Ledger, close: seq<real>, signals: seq<int>, i: nat,
                       before: Ledger, after: Ledger)
    requires |signals| == |close| && 1 <= i < |close|
    requires before == Replay(cfg, st0, close, signals, i)
    requires after == BarStep(cfg, before, close[i], signals[i], i)
    ensures after == Replay(cfg, st0, close, signals, i + 1)
    ensures EquityAt(cfg, st0, close, signals, i) == Equity(after, close[i])
  {
  }

  /** The equity curve of a run, one value per bar. */
  function EquityCurve(cfg: Config, st0: Ledger, close: seq<real>, signals: seq<int>): (e: seq<real>)
    requires |close| >= 1 && |signals| == |close|
    ensures |e| == |close| && e[0] == cfg.initialCapital
  {
    seq(|close|, i requires 0 <= i < |close| => EquityAt(cfg, st0, close, signals, i))
  }

  // ---------------------------------------------------------------------
  // Summary metrics
  // ---------------------------------------------------------------------

  datatype ProfitFactor = Finite(value: real) | Infinity

  /** The per-trade statistics, reported only when at least one trade closed. */
  datatype TradeStats = TradeStats(avgProfit: real, maxProfit: real, maxLoss: real, profitFactor: ProfitFactor)

  datatype Metrics = Metrics(
    totalReturn: Option<real>,
    sharpeRatio: Option<real>,
    maxDrawdown: Option<real>,
    valueAtRisk: Option<real>,
    expectedShortfall: Option<real>,
    totalTrades: nat,
    winningTrades: nat,
    winRate: real,
    equityCurve: seq<real>,
    tradeStats: Option<TradeStats>)

  function ProfitOf(t: Trade): real
  {
    match t.profit
    case Some(p) => p
    case None => 0.0
  }

  function Profits(history: seq<Trade>): (p: seq<real>)
    ensures |p| == |history|
    ensures forall i :: 0 <= i < |history| && history[i].profit.Some? ==> p[i] == history[i].profit.value
  {
    seq(|history|, i requires 0 <= i < |history| => ProfitOf(history[i]))
  }

  /** Number of strictly profitable trades. */
  function CountWinning(profits: seq<real>): (w: nat)
    ensures w <= |profits|
    ensures w == 0 <==> forall i :: 0 <= i < |profits| ==> profits[i] <= 0.0
  {
    if |profits| == 0 then 0
    else (if profits[0] > 0.0 then 1 else 0) + CountWinning(profits[1..])
  }

  /** CountWinning is the number of indices whose profit is strictly positive. */
  lemma {:induction false} CountWinningCounts(profits: seq<real>)
    ensures CountWinning(profits) == |set i | 0 <= i < |profits| && profits[i] > 0.0|
  {
    if |profits| > 0 {
      var front, last := profits[..|profits| - 1], profits[|profits| - 1];
      assert profits == front + [last];
      CountWinningCounts(front);
      CountWinningAppend(front, last);
      var all := set i | 0 <= i < |profits| && profits[i] > 0.0;
      var before := set i | 0 <= i < |front| && front[i] > 0.0;
      if last > 0.0 {
        assert all == before + {|front|};
      } else {
        assert all == before;
      }
    }
  }

  lemma {:induction false} CountWinningAppend(profits: seq<real>, x: real)
    ensures CountWinning(profits + [x]) == CountWinning(profits) + (if x > 0.0 then 1 else 0)
  {
    if |profits| == 0 {
      assert profits + [x] == [x];
    } else {
      assert (profits + [x])[1..] == profits[1..] + [x];
      CountWinningAppend(profits[1..], x);
    }
  }

  /** Sum of the positive profits. */
  function GrossProfit(profits: seq<real>): (g: real)
    ensures g >= 0.0
    ensures g == 0.0 <==> forall i :: 0 <= i < |profits| ==> profits[i] <= 0.0
    ensures Sum(profits) <= g
    ensures g + GrossLoss(profits) == Sum(profits)
  {
    if |profits| == 0 then 0.0
    else (if profits[0] > 0.0 then profits[0] else 0.0) + GrossProfit(profits[1..])
  }

  /** Sum of the negative profits. */
  function GrossLoss(profits: seq<real>): (l: real)
    ensures l <= 0.0
    ensures l == 0.0 <==> forall i :: 0 <= i < |profits| ==> profits[i] >= 0.0
    ensures l <= Sum(profits)
    ensures l == Sum(profits) <==> forall i :: 0 <= i < |profits| ==> profits[i] <= 0.0
  {
    if |profits| == 0 then 0.0
    else (if profits[0] < 0.0 then profits[0] else 0.0) + GrossLoss(profits[1..])
  }

  /** The profits with every loss replaced by 0. */
  function Gains(profits: seq<real>): (g: seq<real>)
    ensures |g| == |profits|
  {
    seq(|profits|, i requires 0 <= i < |profits| => if profits[i] > 0.0 then profits[i] else 0.0)
  }

  /** The profits with every gain replaced by 0. */
  function Losses(profits: seq<real>): (l: seq<real>)
    ensures |l| == |profits|
  {
    seq(|profits|, i requires 0 <= i < |profits| => if profits[i] < 0.0 then profits[i] else 0.0)
  }

  /** GrossProfit is the sum of the positive profits, profits[profits > 0].sum(). */
  lemma {:induction false} GrossProfitIsSumOfGains(profits: seq<real>)
    ensures GrossProfit(profits) == Sum(Gains(profits))
  {
    if |profits| > 0 {
      assert Gains(profits)[1..] == Gains(profits[1..]);
      GrossProfitIsSumOfGains(profits[1..]);
    }
  }

  /** GrossLoss is the sum of the negative profits, profits[profits < 0].sum(). */
  lemma {:induction false} GrossLossIsSumOfLosses(profits: seq<real>)
    ensures GrossLoss(profits) == Sum(Losses(profits))
  {
    if |profits| > 0 {
      assert Losses(profits)[1..] == Losses(profits[1..]);
      GrossLossIsSumOfLosses(profits[1..]);
    }
  }

  /** Gross profit over the absolute gross loss; infinite when no trade lost money. */
  function ProfitFactorOf(profits: seq<real>): (pf: ProfitFactor)
    ensures pf == Infinity <==> forall i :: 0 <= i < |profits| ==> profits[i] >= 0.0
    ensures pf.Finite? ==> pf.value >= 0.0
    ensures pf.Finite? ==> GrossLoss(profits) < 0.0 && pf.value == GrossProfit(profits) / -GrossLoss(profits)
  {
    var loss := GrossLoss(profits);
    if loss != 0.0 then
      var gain := GrossProfit(profits);
      var magnitude := Abs(loss);
      assert magnitude == -loss && magnitude > 0.0;
      RiskCalculation.NonNegativeQuotient(gain, magnitude);
      Finite(gain / magnitude)
    else Infinity
  }

  function Abs(x: real): real
  {
    if x < 0.0 then -x else x
  }

  /**
   * The metrics run_backtest reports from the closed trades and the equity
   * curve, with the risk statistics of RiskCalculation at its default
   * confidence level and risk-free rate.
   */
  function Summarize(cfg: Config, close: seq<real>, history: seq<Trade>, equity: seq<real>,
                     z: real, sd: Option<real>): (m: Metrics)
    requires |equity| >= 1 && RiskCalculation.PositivePrices(close)
    ensures m.equityCurve == equity && m.totalTrades == |history|
    ensures m.winningTrades == CountWinning(Profits(history)) <= m.totalTrades
    ensures m.winningTrades == 0 <==> forall i :: 0 <= i < |history| ==> Profits(history)[i] <= 0.0
    ensures 0.0 <= m.winRate <= 1.0
    ensures m.totalTrades == 0 ==> m.winRate == 0.0
    ensures m.winRate == WinRate(m.winningTrades, m.totalTrades)
    ensures m.totalReturn == TotalReturn(cfg.initialCapital, equity[|equity| - 1])
    ensures m.sharpeRatio == RiskCalculation.SharpeRatio(close, RiskCalculation.DEFAULT_RISK_FREE_RATE, sd)
    ensures m.maxDrawdown == RiskCalculation.MaxDrawdown(close)
    ensures m.valueAtRisk == RiskCalculation.ValueAtRisk(close, z, sd)
    ensures m.expectedShortfall == RiskCalculation.ExpectedShortfall(close, RiskCalculation.DEFAULT_CONFIDENCE_LEVEL)
    ensures m.tradeStats.Some? <==> m.totalTrades > 0
    ensures m.tradeStats.Some? ==> m.tradeStats.value == Stats(Profits(history))
    ensures m.tradeStats.Some? ==>
      m.tradeStats.value.maxLoss <= m.tradeStats.value.avgProfit <= m.tradeStats.value.maxProfit
    ensures m.tradeStats.Some? ==>
      (m.tradeStats.value.profitFactor == Infinity <==>
       forall i :: 0 <= i < |history| ==> Profits(history)[i] >= 0.0)
  {
    var profits := Profits(history);
    var total := |history|;
    var winning := CountWinning(profits);
    var totalReturn := TotalReturn(cfg.initialCapital, equity[|equity| - 1]);
    var winRate := WinRate(winning, total);
    Metrics(
      totalReturn := totalReturn,
      sharpeRatio := RiskCalculation.SharpeRatio(close, RiskCalculation.DEFAULT_RISK_FREE_RATE, sd),
      maxDrawdown := RiskCalculation.MaxDrawdown(close),
      valueAtRisk := RiskCalculation.ValueAtRisk(close, z, sd),
      expectedShortfall := RiskCalculation.ExpectedShortfall(close, RiskCalculation.DEFAULT_CONFIDENCE_LEVEL),
      totalTrades := total,
      winningTrades := winning,
      winRate := winRate,
      equityCurve := equity,
      tradeStats := if total > 0 then Some(Stats(profits)) else None)
  }

  /** Average, best and worst profit and the profit factor of a non-empty trade log. */
  function Stats(profits: seq<real>): (t: TradeStats)
    requires |profits| > 0
    ensures t.maxLoss <= t.avgProfit <= t.maxProfit
    ensures t.maxLoss in profits && t.maxProfit in profits
    ensures forall i :: 0 <= i < |profits| ==> t.maxLoss <= profits[i] <= t.maxProfit
    ensures Mean(profits) == Some(t.avgProfit)
    ensures t.profitFactor == Infinity <==> forall i :: 0 <= i < |profits| ==> profits[i] >= 0.0
  {
    MeanBetweenExtremes(profits);
    TradeStats(Mean(profits).value, Maximum(profits), Minimum(profits), ProfitFactorOf(profits))
  }

  /** Growth of the final equity over the initial capital; NaN (None) when that capital is 0. */
  function TotalReturn(initial: real, final: real): (r: Option<real>)
    ensures r.Some? <==> initial != 0.0
    ensures r.Some? ==> initial * (1.0 + r.value) == final
  {
    if initial != 0.0 then Some((final - initial) / initial) else None
  }

  /** Share of winning trades; 0 when there were no trades. */
  function WinRate(winning: nat, total: nat): (rate: real)
    requires winning <= total
    ensures 0.0 <= rate <= 1.0
    ensures total == 0 ==> rate == 0.0
    ensures total > 0 ==> rate * (total as real) == winning as real
  {
    if total > 0 then
      QuotientAtMost(winning as real, 1.0, total as real);
      (winning as real) / (total as real)
    else 0.0
  }

  // ---------------------------------------------------------------------
  // The engine object
  // ---------------------------------------------------------------------

  /**
   * One backtest run: the price history, its indicator series (computed by
   * the caller) and the parameters are fixed; capital, the position slot and
   * the trade log change as the run proceeds. Each instance owns its own
   * slot and log.
   */
  class BacktestingSystem {
    const close: seq<real>
    const indicators: Signals.Indicators
    const config: Config
    var capital: real
    var positions: seq<Trade>
    var tradeHistory: seq<Trade>

    ghost predicate Valid()
      reads this
    {
      Signals.Aligned(indicators, |close|) && Consistent(State())
    }

    function State(): Ledger
      reads this
    {
      Ledger(capital, positions, tradeHistory)
    }

    /** The signal array of the run (generate_signals). */
    function Signal(): (signals: seq<int>)
      requires Signals.Aligned(indicators, |close|)
      ensures |signals| == |close|
    {
      Signals.GenerateSignals(close, indicators, config.rsiOversold, config.rsiOverbought)
    }

    constructor (close: seq<real>, indicators: Signals.Indicators, config: Config)
      requires Signals.Aligned(indicators, |close|)
      ensures Valid()
      ensures this.close == close && this.indicators == indicators && this.config == config
      ensures State() == Ledger(config.initialCapital, [], [])
    {
      this.close := close;
      this.indicators := indicators;
      this.config := config;
      capital := config.initialCapital;
      positions := [];
      tradeHistory := [];
    }

    method ExecuteTrade(signal: int, price: real, date: nat)
      requires Valid()
      modifies this
      ensures Valid()
      ensures State() == Execute(config, old(State()), signal, price, date)
    {
      ExecuteConsistent(config, State(), signal, price, date);
      if signal == Signals.HOLD || price <= 0.0 {
        return;
      }
      if signal == Signals.BUY && positions == [] {
        var sizing := PositionSize(config, capital, price);
        if sizing.capitalRequired <= capital && sizing.shares > 0.0 {
          capital := capital - sizing.capitalRequired;
          positions := positions + [OpenPosition(config, price, sizing.shares, date)];
        }
      } else if signal == Signals.SELL && positions != [] {
        var position := CloseTrade(positions[0], price, date);
        capital := capital + position.shares * price;
        tradeHistory := tradeHistory + [position];
        positions := [];
      }
    }

    /** The stop-loss and take-profit check at the top of each bar of the loop. */
    method CheckExits(price: real, date: nat)
      requires Valid()
      modifies this
      ensures Valid()
      ensures State() == ForcedExit(config, old(State()), price, date)
    {
      if positions != [] {
        var position := positions[0];
        if price <= position.stopLoss {
          ExecuteTrade(Signals.SELL, position.stopLoss, date);
        } else if price >= position.takeProfit {
          ExecuteTrade(Signals.SELL, position.takeProfit, date);
        }
      }
    }

    /** One bar of the loop: the forced exit, then the bar's own signal. */
    method Step(price: real, signal: int, date: nat)
      requires Valid()
      modifies this
      ensures Valid()
      ensures State() == BarStep(config, old(State()), price, signal, date)
    {
      CheckExits(price, date);
      ExecuteTrade(signal, price, date);
    }

    /**
     * run_backtest: generate the signals, run the bar loop and compute the
     * metrics of the trade log and of the equity curve.
     */
    method RunBacktest(z: real, sd: Option<real>) returns (metrics: Metrics)
      requires Valid()
      requires |close| >= 1
      requires RiskCalculation.PositivePrices(close)
      requires RiskCalculation.IsStdevOf(sd, RiskCalculation.Returns(close))
      modifies this
      ensures Valid()
      ensures State() == Replay(config, old(State()), close, Signal(), |close|)
      ensures metrics == Summarize(config, close, tradeHistory,
                                   EquityCurve(config, old(State()), close, Signal()), z, sd)
    {
      var signals := Signal();
      var equity := Simulate(signals);
      metrics := Summarize(config, close, tradeHistory, equity[..], z, sd);
    }

    /** One iteration of the bar loop: run bar i, then mark the portfolio to its close. */
    method AdvanceBar(ghost start: Ledger, signals: seq<int>, i: nat) returns (value: real)
      requires Valid()
      requires |signals| == |close| && 1 <= i < |close|
      requires State() == Replay(config, start, close, signals, i)
      modifies this
      ensures Valid()
      ensures State() == Replay(config, start, close, signals, i + 1)
      ensures value == EquityAt(config, start, close, signals, i)
    {
      var price := close[i];
      ghost var before := State();
      Step(price, signals[i], i);
      value := capital + OpenValue(positions, price);
      ReplayAdvances(config, start, close, signals, i, before, State());
    }

    /**
     * The bar loop of run_backtest: from bar 1 on, the forced exit, then the
     * bar's signal, then the mark-to-market value recorded for the bar.
     */
    method Simulate(signals: seq<int>) returns (equity: array<real>)
      requires Valid()
      requires |close| >= 1 && |signals| == |close|
      modifies this
      ensures Valid()
      ensures fresh(equity)
      ensures State() == Replay(config, old(State()), close, signals, |close|)
      ensures equity[..] == EquityCurve(config, old(State()), close, signals)
    {
      equity := new real[|close|];
      equity[0] := config.initialCapital;
      ghost var start := State();
      ghost var curve := EquityCurve(config, start, close, signals);
      var i := 1;
      while i < |close|
        invariant 1 <= i <= |close|
        invariant Valid()
        invariant State() == Replay(config, start, close, signals, i)
        invariant forall j :: 0 <= j < i ==> equity[j] == curve[j]
      {
        var value := AdvanceBar(start, signals, i);
        equity[i] := value;
        i := i + 1;
      }
      assert equity[..] == curve;
    }
  }
}
