/**
 * Properties of the backtest engine across calls: what a buy, a sell and a
 * round trip do to the ledger, the order of the forced exits, the cash
 * accounting that holds over a whole run, and what the sizing rule does when
 * its risk budget exceeds the capital.
 */
module BacktestingProperties {
  import opened Wrappers
  import opened SeqStats
  import opened Backtesting
  import Signals

  /**
   * Sizing whose share count always fits in the capital: the stop is a
   * positive fraction and the fraction of capital risked is at most that stop.
   * The defaults of BacktestingSystem (0.02 and 0.02) satisfy it.
   */
  predicate UnclippedSizing(cfg: Config)
  {
    0.0 < cfg.stopLoss && 0.0 <= cfg.positionSize <= cfg.stopLoss
  }

  /** Cash paid for the open positions. */
  function CostBasis(positions: seq<Trade>): real
  {
    if |positions| == 0 then 0.0
    else positions[0].shares * positions[0].entryPrice + CostBasis(positions[1..])
  }

  /** Profit realised by the logged trades. */
  function Realised(trades: seq<Trade>): real
  {
    if |trades| == 0 then 0.0 else Realised(trades[..|trades| - 1]) + ProfitOf(trades[|trades| - 1])
  }

  /** Profit the open positions would realise if sold at price. */
  function Unrealised(positions: seq<Trade>, price: real): real
  {
    if |positions| == 0 then 0.0
    else (price - positions[0].entryPrice) * positions[0].shares + Unrealised(positions[1..], price)
  }

  /** The capital put in: cash plus what was spent on open positions, less realised profit. */
  function Book(st: Ledger): real
  {
    st.capital + CostBasis(st.positions) - Realised(st.history)
  }

  // ---------------------------------------------------------------------
  // Sizing
  // ---------------------------------------------------------------------

  /** Under UnclippedSizing the cash set aside is exactly the cost of the shares. */
  lemma NoClipping(cfg: Config, capital: real, price: real)
    requires UnclippedSizing(cfg) && capital >= 0.0 && price > 0.0
    ensures PositionSize(cfg, capital, price).capitalRequired == PositionSize(cfg, capital, price).shares * price
    ensures PositionSize(cfg, capital, price).shares >= 0.0
  {
    var s := PositionSize(cfg, capital, price);
    var cost := s.shares * price;
    assert price * cfg.stopLoss > 0.0;
    assert cost * cfg.stopLoss == capital * cfg.positionSize;
    MultiplyMonotone(cfg.positionSize, cfg.stopLoss, capital);
    CancelPositive(cost, capital, cfg.stopLoss);
    NonNegativeFactor(s.shares, price * cfg.stopLoss, capital * cfg.positionSize);
  }

  lemma CancelPositive(x: real, y: real, c: real)
    requires c > 0.0 && x * c <= y * c
    ensures x <= y
  {
  }

  lemma NonNegativeFactor(x: real, c: real, p: real)
    requires c > 0.0 && x * c == p && p >= 0.0
    ensures x >= 0.0
  {
  }

  /**
   * With a risk fraction above the stop fraction the share count costs more
   * than the capital: 100 of capital, 5% risked, a 2% stop and a price of 10
   * buy 25 shares worth 250 while only 100 is set aside, and selling them
   * back at the same price leaves 250 in cash after a trade that made nothing.
   */
  lemma ClippedSizingCreatesCash()
    ensures var cfg := Config(100.0, 0.05, 0.02, 0.04, 30.0, 70.0);
            var start := Ledger(100.0, [], []);
            var bought := Execute(cfg, start, Signals.BUY, 10.0, 1);
            var sold := Execute(cfg, bought, Signals.SELL, 10.0, 2);
            bought.capital == 0.0 && bought.positions[0].shares == 25.0 &&
            sold.capital == 250.0 && Realised(sold.history) == 0.0 &&
            Book(sold) != Book(start)
  {
    var cfg := Config(100.0, 0.05, 0.02, 0.04, 30.0, 70.0);
    var start := Ledger(100.0, [], []);
    var position := OpenPosition(cfg, 10.0, 25.0, 1);
    var bought := Ledger(0.0, [position], []);
    ClippedBuy(cfg, start, bought);
    ClippedSell(cfg, bought, Ledger(250.0, [], [CloseTrade(position, 10.0, 2)]));
    FreshBook(100.0);
  }

  lemma ClippedBuy(cfg: Config, start: Ledger, bought: Ledger)
    requires cfg == Config(100.0, 0.05, 0.02, 0.04, 30.0, 70.0) && start == Ledger(100.0, [], [])
    requires bought == Ledger(0.0, [OpenPosition(cfg, 10.0, 25.0, 1)], [])
    ensures Execute(cfg, start, Signals.BUY, 10.0, 1) == bought
  {
    assert PositionSize(cfg, 100.0, 10.0) == Sizing(25.0, 100.0) by {
      assert 100.0 * 0.05 == 5.0 && 10.0 * 0.02 == 0.2;
      assert 5.0 / 0.2 == 25.0;
    }
  }

  lemma ClippedSell(cfg: Config, bought: Ledger, sold: Ledger)
    requires bought == Ledger(0.0, [OpenPosition(cfg, 10.0, 25.0, 1)], [])
    requires sold == Ledger(250.0, [], [CloseTrade(bought.positions[0], 10.0, 2)])
    ensures Execute(cfg, bought, Signals.SELL, 10.0, 2) == sold
    ensures Realised(sold.history) == 0.0 && Book(sold) == 250.0
  {
    assert sold.history[..0] == [];
  }

  // ---------------------------------------------------------------------
  // Single calls of execute_trade
  // ---------------------------------------------------------------------

  /** A buy while flat opens one position at price with the stop and target around it. */
  lemma BuyWhileFlat(cfg: Config, st: Ledger, price: real, date: nat)
    requires st.positions == [] && price > 0.0
    requires PositionSize(cfg, st.capital, price).shares > 0.0
    ensures var s := PositionSize(cfg, st.capital, price);
            var r := Execute(cfg, st, Signals.BUY, price, date);
            |r.positions| == 1 && OpenTrade(r.positions[0]) &&
            r.positions[0].entryPrice == price && r.positions[0].entryDate == date &&
            r.positions[0].shares == s.shares &&
            r.positions[0].stopLoss == price * (1.0 - cfg.stopLoss) &&
            r.positions[0].takeProfit == price * (1.0 + cfg.takeProfit) &&
            r.capital == st.capital - s.capitalRequired && r.history == st.history
  {
  }

  /** A sell while long closes the position at price, logs it and credits its value. */
  lemma SellWhileLong(cfg: Config, st: Ledger, price: real, date: nat)
    requires st.positions != [] && price > 0.0
    ensures var p := st.positions[0];
            var r := Execute(cfg, st, Signals.SELL, price, date);
            r.positions == [] && r.capital == st.capital + p.shares * price &&
            r.history == st.history + [CloseTrade(p, price, date)] &&
            ClosedTrade(r.history[|st.history|]) &&
            r.history[|st.history|].profit == Some(RealisedProfit(p.entryPrice, price, p.shares))
  {
  }

  /** execute_trade keeps the capital put in: cash moves into and out of positions, profit is logged. */
  lemma ExecuteKeepsBook(cfg: Config, st: Ledger, signal: int, price: real, date: nat)
    requires UnclippedSizing(cfg) && Consistent(st) && st.capital >= 0.0
    ensures Book(Execute(cfg, st, signal, price, date)) == Book(st)
  {
    var r := Execute(cfg, st, signal, price, date);
    if signal == Signals.HOLD || price <= 0.0 {
    } else if signal == Signals.BUY && st.positions == [] {
      NoClipping(cfg, st.capital, price);
      var s := PositionSize(cfg, st.capital, price);
      if s.capitalRequired <= st.capital && s.shares > 0.0 {
        assert r.positions == [OpenPosition(cfg, price, s.shares, date)];
        assert CostBasis(r.positions) == s.shares * price;
      }
    } else if signal == Signals.SELL && st.positions != [] {
      var p := st.positions[0];
      assert st.positions == [p];
      assert CostBasis(st.positions) == p.shares * p.entryPrice;
      var closed := CloseTrade(p, price, date);
      assert r.history[..|r.history| - 1] == st.history;
      assert Realised(r.history) == Realised(st.history) + (price - p.entryPrice) * p.shares;
      assert (price - p.entryPrice) * p.shares == p.shares * price - p.shares * p.entryPrice;
    }
  }

  /** A buy followed by a sell changes the cash by exactly the profit the trade logs. */
  lemma RoundTrip(cfg: Config, st: Ledger, entryPrice: real, entryDate: nat, exitPrice: real, exitDate: nat)
    requires UnclippedSizing(cfg) && Consistent(st) && st.capital >= 0.0 && st.positions == []
    requires entryPrice > 0.0 && exitPrice > 0.0
    requires PositionSize(cfg, st.capital, entryPrice).shares > 0.0
    ensures var bought := Execute(cfg, st, Signals.BUY, entryPrice, entryDate);
            var sold := Execute(cfg, bought, Signals.SELL, exitPrice, exitDate);
            sold.positions == [] && |sold.history| == |st.history| + 1 &&
            sold.capital == st.capital + ProfitOf(sold.history[|st.history|])
  {
    var bought := Execute(cfg, st, Signals.BUY, entryPrice, entryDate);
    var sold := Execute(cfg, bought, Signals.SELL, exitPrice, exitDate);
    ExecuteKeepsBook(cfg, st, Signals.BUY, entryPrice, entryDate);
    ExecuteConsistent(cfg, st, Signals.BUY, entryPrice, entryDate);
    ExecuteKeepsBook(cfg, bought, Signals.SELL, exitPrice, exitDate);
    assert sold.history[..|sold.history| - 1] == st.history;
  }

  // ---------------------------------------------------------------------
  // One bar of the loop
  // ---------------------------------------------------------------------

  /**
   * A stop-loss hit is a sell at the stop price, decided before the
   * take-profit is looked at; with a positive stop it closes the position.
   */
  lemma StopLossFirst(cfg: Config, st: Ledger, price: real, date: nat)
    requires st.positions != [] && price <= st.positions[0].stopLoss
    ensures ForcedExit(cfg, st, price, date) == Execute(cfg, st, Signals.SELL, st.positions[0].stopLoss, date)
    ensures var p := st.positions[0];
            var r := ForcedExit(cfg, st, price, date);
            p.stopLoss > 0.0 ==>
              r.positions == [] && r.capital == st.capital + p.shares * p.stopLoss &&
              r.history == st.history + [CloseTrade(p, p.stopLoss, date)]
  {
    var p := st.positions[0];
    assert ForcedExit(cfg, st, price, date) == Execute(cfg, st, Signals.SELL, p.stopLoss, date);
    if p.stopLoss > 0.0 {
      SellWhileLong(cfg, st, p.stopLoss, date);
    }
  }

  /** Otherwise a take-profit hit is a sell at the target price. */
  lemma TakeProfitSecond(cfg: Config, st: Ledger, price: real, date: nat)
    requires st.positions != []
    requires st.positions[0].stopLoss < price && st.positions[0].takeProfit <= price
    ensures ForcedExit(cfg, st, price, date) == Execute(cfg, st, Signals.SELL, st.positions[0].takeProfit, date)
    ensures var p := st.positions[0];
            var r := ForcedExit(cfg, st, price, date);
            p.takeProfit > 0.0 ==>
              r.positions == [] && r.capital == st.capital + p.shares * p.takeProfit &&
              r.history == st.history + [CloseTrade(p, p.takeProfit, date)]
  {
    var p := st.positions[0];
    assert ForcedExit(cfg, st, price, date) == Execute(cfg, st, Signals.SELL, p.takeProfit, date);
    if p.takeProfit > 0.0 {
      SellWhileLong(cfg, st, p.takeProfit, date);
    }
  }

  /** Between the stop and the target only the bar's own signal acts. */
  lemma InsideBand(cfg: Config, st: Ledger, price: real, signal: int, date: nat)
    requires st.positions != []
    requires st.positions[0].stopLoss < price < st.positions[0].takeProfit
    ensures BarStep(cfg, st, price, signal, date) == Execute(cfg, st, signal, price, date)
  {
  }

  /**
   * A stop price of 0 or below (a stop fraction of 1 or more) never fires:
   * the exit goes through execute_trade, which ignores non-positive prices.
   */
  lemma NonPositiveStopNeverFires(cfg: Config, st: Ledger, price: real, signal: int, date: nat)
    requires st.positions != []
    requires price <= st.positions[0].stopLoss <= 0.0
    ensures BarStep(cfg, st, price, signal, date) == Execute(cfg, st, signal, price, date)
  {
  }

  /** A stop-loss exit and a buy signal on the same bar re-enter at the close. */
  lemma ReentryOnExitBar(cfg: Config, st: Ledger, price: real, date: nat)
    requires st.positions != [] && price > 0.0
    requires price <= st.positions[0].stopLoss
    requires var p := st.positions[0];
             PositionSize(cfg, st.capital + p.shares * p.stopLoss, price).shares > 0.0
    ensures var r := BarStep(cfg, st, price, Signals.BUY, date);
            |r.history| == |st.history| + 1 && |r.positions| == 1 &&
            r.positions[0].entryPrice == price && r.positions[0].entryDate == date
  {
    StopLossFirst(cfg, st, price, date);
  }

  lemma BarStepKeepsBook(cfg: Config, st: Ledger, price: real, signal: int, date: nat)
    requires UnclippedSizing(cfg) && Consistent(st) && st.capital >= 0.0
    ensures Book(BarStep(cfg, st, price, signal, date)) == Book(st)
  {
    var exited := ForcedExit(cfg, st, price, date);
    if st.positions != [] {
      var p := st.positions[0];
      if price <= p.stopLoss {
        ExecuteKeepsBook(cfg, st, Signals.SELL, p.stopLoss, date);
      } else if price >= p.takeProfit {
        ExecuteKeepsBook(cfg, st, Signals.SELL, p.takeProfit, date);
      }
    }
    ForcedExitConsistent(cfg, st, price, date);
    ExecuteKeepsBook(cfg, exited, signal, price, date);
  }

  // ---------------------------------------------------------------------
  // A whole run
  // ---------------------------------------------------------------------

  /** Trades once logged stay logged, in order: the log at an earlier bar is a prefix of the log at a later one. */
  lemma {:induction false} HistoryOnlyGrows(cfg: Config, st0: Ledger, close: seq<real>, signals: seq<int>, j: nat, k: nat)
    requires |signals| == |close| && 1 <= j <= k <= |close|
    ensures Replay(cfg, st0, close, signals, j).history <= Replay(cfg, st0, close, signals, k).history
    decreases k
  {
    if j < k {
      HistoryOnlyGrows(cfg, st0, close, signals, j, k - 1);
      var earlier, before, after := Replay(cfg, st0, close, signals, j).history,
        Replay(cfg, st0, close, signals, k - 1).history, Replay(cfg, st0, close, signals, k).history;
      assert before <= after by { BarExtendsHistory(cfg, st0, close, signals, k); }
      PrefixTransitive(earlier, before, after);
    } else {
      assert Replay(cfg, st0, close, signals, j) == Replay(cfg, st0, close, signals, k);
    }
  }

  lemma BarExtendsHistory(cfg: Config, st0: Ledger, close: seq<real>, signals: seq<int>, k: nat)
    requires |signals| == |close| && 2 <= k <= |close|
    ensures Replay(cfg, st0, close, signals, k - 1).history <= Replay(cfg, st0, close, signals, k).history
  {
  }

  lemma PrefixTransitive(a: seq<Trade>, b: seq<Trade>, c: seq<Trade>)
    requires a <= b && b <= c
    ensures a <= c
  {
  }

  /** The capital put in stays what it was at the start of the run. */
  lemma {:induction false} ReplayKeepsBook(cfg: Config, st0: Ledger, close: seq<real>, signals: seq<int>, k: nat)
    requires UnclippedSizing(cfg) && Consistent(st0) && st0.capital >= 0.0
    requires |signals| == |close| && 1 <= k <= |close|
    ensures Book(Replay(cfg, st0, close, signals, k)) == Book(st0)
    decreases k
  {
    if k > 1 {
      ReplayKeepsBook(cfg, st0, close, signals, k - 1);
      ReplayConsistent(cfg, st0, close, signals, k - 1);
      BarStepKeepsBook(cfg, Replay(cfg, st0, close, signals, k - 1), close[k - 1], signals[k - 1], k - 1);
    }
  }

  lemma {:induction false} OpenValueSplits(positions: seq<Trade>, price: real)
    ensures OpenValue(positions, price) == CostBasis(positions) + Unrealised(positions, price)
  {
    if |positions| > 0 {
      OpenValueSplits(positions[1..], price);
      var p := positions[0];
      assert p.shares * price == p.shares * p.entryPrice + (price - p.entryPrice) * p.shares;
    }
  }

  /**
   * Every point of the equity curve of a fresh run is the initial capital
   * plus the profit realised so far plus the open position marked at that
   * bar's close.
   */
  lemma EquityDecomposes(cfg: Config, close: seq<real>, signals: seq<int>, i: nat)
    requires UnclippedSizing(cfg) && cfg.initialCapital >= 0.0
    requires |signals| == |close| && 1 <= i < |close|
    ensures var st := Replay(cfg, Ledger(cfg.initialCapital, [], []), close, signals, i + 1);
            EquityCurve(cfg, Ledger(cfg.initialCapital, [], []), close, signals)[i] ==
              cfg.initialCapital + Realised(st.history) + Unrealised(st.positions, close[i])
  {
    var st0 := Ledger(cfg.initialCapital, [], []);
    var st := Replay(cfg, st0, close, signals, i + 1);
    ReplayKeepsBook(cfg, st0, close, signals, i + 1);
    OpenValueSplits(st.positions, close[i]);
    assert EquityCurve(cfg, st0, close, signals)[i] == EquityAt(cfg, st0, close, signals, i);
  }

  /**
   * A fresh run (all cash, no position, no trades) that ends flat ends with
   * the initial capital plus the sum of its trades' profits, in cash and as
   * the last point of its equity curve.
   */
  lemma FlatRunEndsWithRealisedProfit(cfg: Config, st0: Ledger, close: seq<real>, signals: seq<int>)
    requires UnclippedSizing(cfg) && cfg.initialCapital >= 0.0 && st0 == Ledger(cfg.initialCapital, [], [])
    requires |signals| == |close| >= 1
    requires Replay(cfg, st0, close, signals, |close|).positions == []
    ensures var st := Replay(cfg, st0, close, signals, |close|);
            EquityCurve(cfg, st0, close, signals)[|close| - 1] == st.capital == cfg.initialCapital + Realised(st.history)
  {
    FlatRunCash(cfg, st0, close, signals);
    FlatRunLastPoint(cfg, st0, close, signals);
  }

  lemma FlatRunCash(cfg: Config, st0: Ledger, close: seq<real>, signals: seq<int>)
    requires UnclippedSizing(cfg) && cfg.initialCapital >= 0.0 && st0 == Ledger(cfg.initialCapital, [], [])
    requires |signals| == |close| >= 1
    requires Replay(cfg, st0, close, signals, |close|).positions == []
    ensures Replay(cfg, st0, close, signals, |close|).capital ==
      cfg.initialCapital + Realised(Replay(cfg, st0, close, signals, |close|).history)
  {
    ReplayKeepsBook(cfg, st0, close, signals, |close|);
    FreshBook(cfg.initialCapital);
    FlatBook(Replay(cfg, st0, close, signals, |close|), cfg.initialCapital);
  }

  lemma FlatRunLastPoint(cfg: Config, st0: Ledger, close: seq<real>, signals: seq<int>)
    requires |signals| == |close| >= 1 && st0 == Ledger(cfg.initialCapital, [], [])
    requires Replay(cfg, st0, close, signals, |close|).positions == []
    ensures EquityCurve(cfg, st0, close, signals)[|close| - 1] == Replay(cfg, st0, close, signals, |close|).capital
  {
    var n := |close|;
    CurvePoint(cfg, st0, close, signals, n - 1);
    if n > 1 {
      FlatLastEquity(cfg, st0, close, signals);
    } else {
      assert Replay(cfg, st0, close, signals, n) == st0;
    }
  }

  lemma FreshBook(capital: real)
    ensures Book(Ledger(capital, [], [])) == capital
    ensures Realised([]) == 0.0
  {
  }

  lemma FlatBook(st: Ledger, book: real)
    requires st.positions == [] && Book(st) == book
    ensures st.capital == book + Realised(st.history)
  {
  }

  lemma CurvePoint(cfg: Config, st0: Ledger, close: seq<real>, signals: seq<int>, j: nat)
    requires |signals| == |close| && j < |close|
    ensures EquityCurve(cfg, st0, close, signals)[j] == EquityAt(cfg, st0, close, signals, j)
  {
  }

  lemma FlatLastEquity(cfg: Config, st0: Ledger, close: seq<real>, signals: seq<int>)
    requires |signals| == |close| >= 2
    requires Replay(cfg, st0, close, signals, |close|).positions == []
    ensures EquityAt(cfg, st0, close, signals, |close| - 1) == Replay(cfg, st0, close, signals, |close|).capital
  {
  }
}
