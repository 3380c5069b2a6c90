/** The backtester's single-position replay of one symbol (`_simulate_trading`
    with `_check_exit_signal` and `_calculate_trade_pnl`), the report and
    extra metrics computed from it, the longest winning/losing streak and the
    grid search over parameter combinations.

    The replay skips the first 50 bars (indicator warm-up), then on each bar:
    closes the open position when the exit rule fires, opens a new one when
    flat and the bar's signal has confidence above 0.6, and appends one
    equity sample. An entry deducts its notional from the balance while an
    exit credits only the P&L; this accounting is kept as written. */
module Backtest {
  import opened Common
  import opened Signals
  import Ledger
  import EvolvingStrategy

  /** Bars before this index only warm up the indicators. */
  const Warmup: nat := 50

  /** The entry threshold on a signal's confidence. */
  const EntryConfidence: real := 0.6

  /** One bar of the replay: its close and the signal the strategy produces on
      it (`_generate_signals_for_backtest`: at most one, never Hold). */
  datatype Bar = Bar(close: real, signal: Option<Decision>)

  /** `signals[0]` if any: the backtest takes the first signal. */
  function First(g: seq<Decision>): (r: Option<Decision>)
    ensures r.Some? <==> g != []
    ensures r.Some? ==> r.value == g[0]
  {
    if g == [] then None else Some(g[0])
  }

  /** The bar a snapshot yields under the original strategy when the fusion is
      given the bar's close as entry price. */
  function BarOf(p: EvolvingStrategy.Params, s: Snapshot, close: real, fmt: real -> string): (b: Bar)
    ensures b.close == close
    ensures b.signal.Some? <==> EvolvingStrategy.GenerateSignals(p, s, close, fmt) != []
    ensures b.signal.Some? ==> b.signal.value.signal != Hold && b.signal.value.confidence > 0.6
  {
    var g := EvolvingStrategy.GenerateSignals(p, s, close, fmt);
    Bar(close, First(g))
  }

  /** The bar as the code is written: the fusion's NameError is swallowed and
      no signal ever reaches the replay. */
  function BarAsWritten(p: EvolvingStrategy.Params, s: Snapshot, close: real, fmt: real -> string): (b: Bar)
    ensures b == Bar(close, None)
  {
    EvolvingStrategy.AsWrittenNeverSignals(p, s, close, fmt);
    var g := EvolvingStrategy.GenerateSignalsAsWritten(p, s, close, fmt);
    Bar(close, First(g))
  }

  /** The open position: side, entry price, quantity and protective levels. */
  datatype Holding = Holding(
    side: Side,
    entryPrice: real,
    quantity: real,
    stopLoss: Option<real>,
    takeProfit: Option<real>,
    entryBar: nat)

  /** Why a backtest trade was closed. */
  datatype Closure = Exited(cause: ExitCause) | EndOfBacktest

  /** One entry of the backtest's trade list. */
  datatype Trade = Trade(
    side: Side,
    entryPrice: real,
    exitPrice: real,
    quantity: real,
    pnl: real,
    reason: Closure,
    entryBar: nat,
    exitBar: nat)

  /** The replay state: balance, at most one open position, the closed trades
      and the equity curve. */
  datatype Sim = Sim(balance: real, position: Option<Holding>, trades: seq<Trade>, equity: seq<real>)

  function Start(initialCapital: real): Sim
  {
    Sim(initialCapital, None, [], [initialCapital])
  }

  /** `_calculate_trade_pnl`. */
  function PnlAt(h: Holding, price: real): real
  {
    Pnl(h.side, h.entryPrice, price, h.quantity)
  }

  function Closed(h: Holding, price: real, reason: Closure, exitBar: nat): (t: Trade)
    ensures t.pnl == PnlAt(h, price) && t.exitPrice == price && t.reason == reason
  {
    Trade(h.side, h.entryPrice, price, h.quantity, PnlAt(h, price), reason, h.entryBar, exitBar)
  }

  /** The bar's signal as the opinion the exit rule compares against. */
  function Fused(bar: Bar): Option<Opinion>
  {
    if bar.signal.None? then None
    else Some(Opinion(bar.signal.value.signal, bar.signal.value.confidence, bar.signal.value.reasoning))
  }

  /** `_check_exit_signal`: the shared exit rule at the bar's close. */
  function ExitCheck(h: Holding, bar: Bar): Option<ExitCause>
  {
    ExitReason(h.side, h.stopLoss, h.takeProfit, bar.close, Fused(bar))
  }

  predicate Exits(s: Sim, bar: Bar)
  {
    s.position.Some? && ExitCheck(s.position.value, bar).Some?
  }

  /** No position is left open once the exit check of the bar has run. */
  predicate FlatAfterExit(s: Sim, bar: Bar)
  {
    s.position.None? || Exits(s, bar)
  }

  predicate Enters(s: Sim, bar: Bar)
  {
    FlatAfterExit(s, bar) && bar.signal.Some? && bar.signal.value.confidence > EntryConfidence
  }

  /** The closing half of a bar. */
  function ExitLeg(s: Sim, i: nat, bar: Bar): Sim
  {
    if Exits(s, bar) then
      var h := s.position.value;
      Sim(s.balance + PnlAt(h, bar.close), None,
          s.trades + [Closed(h, bar.close, Exited(ExitCheck(h, bar).value), i)], s.equity)
    else s
  }

  /** `current_balance * signal.position_size`. */
  function PositionValue(balance: real, size: real): real
  {
    balance * size
  }

  /** The entering half of a bar: the quantity divides by the close, which
      raises ZeroDivisionError at a zero close. */
  function EntryLeg(s: Sim, i: nat, bar: Bar): Result<Sim>
  {
    if s.position.None? && bar.signal.Some? && bar.signal.value.confidence > EntryConfidence then
      if bar.close == 0.0 then Err(ZeroDivision)
      else
        var d := bar.signal.value;
        var value := PositionValue(s.balance, d.positionSize);
        var h := Holding(SideOf(d.signal), bar.close, value / bar.close, d.stopLoss, d.takeProfit, i);
        Ok(Sim(s.balance - value, Some(h), s.trades, s.equity))
    else Ok(s)
  }

  /** The equity sample of a state at a price: balance plus unrealised P&L. */
  function Marked(s: Sim, price: real): real
  {
    if s.position.Some? then s.balance + PnlAt(s.position.value, price) else s.balance
  }

  /** One bar of `_simulate_trading`. */
  function Step(s: Sim, i: nat, bar: Bar): (r: Result<Sim>)
    ensures r.Err? <==> Enters(s, bar) && bar.close == 0.0
    ensures r.Err? ==> r.error == ZeroDivision
    ensures r.Ok? ==> r.value.equity == s.equity + [Marked(r.value, bar.close)]
    ensures r.Ok? && Exits(s, bar) ==>
      var h := s.position.value;
      r.value.trades == s.trades + [Closed(h, bar.close, Exited(ExitCheck(h, bar).value), i)]
    ensures r.Ok? && !Exits(s, bar) ==> r.value.trades == s.trades
    ensures r.Ok? ==> (r.value.position.Some? <==> Enters(s, bar) || !FlatAfterExit(s, bar))
    ensures r.Ok? && !FlatAfterExit(s, bar) ==> r.value.position == s.position && r.value.balance == s.balance
    ensures r.Ok? && Enters(s, bar) ==>
      var d := bar.signal.value;
      r.value.position == Some(Holding(SideOf(d.signal), bar.close, r.value.position.value.quantity,
                                       d.stopLoss, d.takeProfit, i))
  {
    var e := ExitLeg(s, i, bar);
    match EntryLeg(e, i, bar)
    case Err(err) => Err(err)
    case Ok(t) => Ok(Sim(t.balance, t.position, t.trades, t.equity + [Marked(t, bar.close)]))
  }

  /** The state after the bars before index `n` have been replayed. */
  function Replay(bars: seq<Bar>, initialCapital: real, n: nat): (r: Result<Sim>)
    requires n <= |bars|
    ensures r.Ok? ==> |r.value.equity| == 1 + (if n > Warmup then n - Warmup else 0)
    ensures r.Ok? ==> r.value.equity[0] == initialCapital
    ensures r.Err? ==> r.error == ZeroDivision
  {
    if n <= Warmup then Ok(Start(initialCapital))
    else
      match Replay(bars, initialCapital, n - 1)
      case Err(e) => Err(e)
      case Ok(s) => Step(s, n - 1, bars[n - 1])
  }

  /** A position still open after the last bar is closed at its close. */
  function Finish(s: Sim, lastClose: real, lastBar: nat): (r: Sim)
    ensures r.position.None? && r.equity == s.equity
    ensures s.position.None? ==> r == s
    ensures s.position.Some? ==>
      r.balance == s.balance + PnlAt(s.position.value, lastClose) &&
      r.trades == s.trades + [Closed(s.position.value, lastClose, EndOfBacktest, lastBar)]
  {
    if s.position.None? then s
    else
      var h := s.position.value;
      Sim(s.balance + PnlAt(h, lastClose), None, s.trades + [Closed(h, lastClose, EndOfBacktest, lastBar)], s.equity)
  }

  /** The whole replay. */
  function Simulation(bars: seq<Bar>, initialCapital: real): (r: Result<Sim>)
    ensures r.Ok? ==> r.value.position.None?
  {
    match Replay(bars, initialCapital, |bars|)
    case Err(e) => Err(e)
    case Ok(s) => Ok(if bars == [] then s else Finish(s, bars[|bars| - 1].close, |bars| - 1))
  }

  /** Once a bar raises, every longer replay raises too. */
  lemma {:induction false} ErrSticks(bars: seq<Bar>, initialCapital: real, n: nat, m: nat)
    requires n <= m <= |bars|
    requires Replay(bars, initialCapital, n).Err?
    ensures Replay(bars, initialCapital, m).Err?
    decreases m - n
  {
    if n < m {
      ErrSticks(bars, initialCapital, n + 1, m);
    }
  }

  /** The exit check of one bar: a held position whose exit rule fires is
      closed at the bar's close and its P&L credited. */
  method CloseOnExit(s: Sim, i: nat, bar: Bar) returns (e: Sim)
    ensures e == ExitLeg(s, i, bar)
  {
    var balance, position, trades := s.balance, s.position, s.trades;
    if position.Some? {
      var cause := ExitCheck(position.value, bar);
      if cause.Some? {
        balance := balance + PnlAt(position.value, bar.close);
        trades := trades + [Closed(position.value, bar.close, Exited(cause.value), i)];
        position := None;
      }
    }
    e := Sim(balance, position, trades, s.equity);
  }

  /** The entry of one bar: when flat, a signal above the entry threshold
      opens a position at the bar's close and deducts its notional. */
  method OpenOnSignal(e: Sim, i: nat, bar: Bar) returns (r: Result<Sim>)
    ensures r == EntryLeg(e, i, bar)
  {
    if e.position.None? && bar.signal.Some? {
      var d := bar.signal.value;
      if d.confidence > EntryConfidence {
        var value := PositionValue(e.balance, d.positionSize);
        if bar.close == 0.0 {
          return Err(ZeroDivision);
        }
        var h := Holding(SideOf(d.signal), bar.close, value / bar.close, d.stopLoss, d.takeProfit, i);
        return Ok(Sim(e.balance - value, Some(h), e.trades, e.equity));
      }
    }
    r := Ok(e);
  }

  /** `_simulate_trading`'s loop over the bars after the warm-up, then the
      closing of a position still open. */
  method SimulateTrading(bars: seq<Bar>, initialCapital: real) returns (r: Result<Sim>)
    ensures r == Simulation(bars, initialCapital)
  {
    var s := Start(initialCapital);
    var i := if |bars| < Warmup then |bars| else Warmup;
    while i < |bars|
      invariant i <= |bars| && (i < Warmup ==> i == |bars|)
      invariant Replay(bars, initialCapital, i) == Ok(s)
    {
      var bar := bars[i];
      var e := CloseOnExit(s, i, bar);
      var t := OpenOnSignal(e, i, bar);
      if t.Err? {
        assert Replay(bars, initialCapital, i + 1).Err?;
        ErrSticks(bars, initialCapital, i + 1, |bars|);
        return Err(ZeroDivision);
      }
      var u := t.value;
      var mark := if u.position.Some? then u.balance + PnlAt(u.position.value, bar.close) else u.balance;
      assert mark == Marked(u, bar.close);
      assert Replay(bars, initialCapital, i + 1) == Step(s, i, bar);
      s := Sim(u.balance, u.position, u.trades, u.equity + [mark]);
      i := i + 1;
    }
    if s.position.Some? {
      var last := bars[|bars| - 1];
      var h := s.position.value;
      s := Sim(s.balance + PnlAt(h, last.close), None, s.trades + [Closed(h, last.close, EndOfBacktest, |bars| - 1)],
               s.equity);
    }
    r := Ok(s);
  }

  // ---------------------------------------------------------------------
  // Accounting
  // ---------------------------------------------------------------------

  function TradePnls(ts: seq<Trade>): (r: seq<real>)
    ensures |r| == |ts| && forall k :: 0 <= k < |ts| ==> r[k] == ts[k].pnl
  {
    seq(|ts|, k requires 0 <= k < |ts| => ts[k].pnl)
  }

  /** The notional of `quantity` units at `price`. */
  function Cost(price: real, quantity: real): real
  {
    price * quantity
  }

  /** What each trade's entry took out of the balance. */
  function Notionals(ts: seq<Trade>): (r: seq<real>)
    ensures |r| == |ts| && forall k :: 0 <= k < |ts| ==> r[k] == Cost(ts[k].entryPrice, ts[k].quantity)
  {
    seq(|ts|, k requires 0 <= k < |ts| => Cost(ts[k].entryPrice, ts[k].quantity))
  }

  function OpenNotional(p: Option<Holding>): real
  {
    if p.Some? then Cost(p.value.entryPrice, p.value.quantity) else 0.0
  }

  /** The balance is the initial capital less every entry's notional plus
      every closed trade's P&L. */
  predicate Balanced(s: Sim, initialCapital: real)
  {
    s.balance == initialCapital - Sum(Notionals(s.trades)) - OpenNotional(s.position) + Sum(TradePnls(s.trades))
  }

  lemma AppendTrade(ts: seq<Trade>, t: Trade)
    ensures Sum(TradePnls(ts + [t])) == Sum(TradePnls(ts)) + t.pnl
    ensures Sum(Notionals(ts + [t])) == Sum(Notionals(ts)) + Cost(t.entryPrice, t.quantity)
  {
    var ts' := ts + [t];
    assert TradePnls(ts') == TradePnls(ts) + [t.pnl];
    forall k | 0 <= k < |ts'|
      ensures Notionals(ts')[k] == (Notionals(ts) + [Cost(t.entryPrice, t.quantity)])[k]
    {
      if k < |ts| {
        assert ts'[k] == ts[k];
      }
    }
    assert Notionals(ts') == Notionals(ts) + [Cost(t.entryPrice, t.quantity)];
    SumAppend(TradePnls(ts), t.pnl);
    SumAppend(Notionals(ts), Cost(t.entryPrice, t.quantity));
  }

  /** Buying `value / price` units at `price` costs `value`. */
  lemma BuyBack(value: real, price: real)
    requires price != 0.0
    ensures Cost(price, value / price) == value
  {
  }

  lemma StepBalanced(s: Sim, i: nat, bar: Bar, initialCapital: real)
    requires Balanced(s, initialCapital)
    ensures Step(s, i, bar).Ok? ==> Balanced(Step(s, i, bar).value, initialCapital)
  {
    var e := ExitLeg(s, i, bar);
    if Exits(s, bar) {
      var h := s.position.value;
      AppendTrade(s.trades, Closed(h, bar.close, Exited(ExitCheck(h, bar).value), i));
    }
    assert Balanced(e, initialCapital);
    if EntryLeg(e, i, bar).Ok? && e.position.None? && bar.signal.Some? && bar.signal.value.confidence > EntryConfidence {
      var value := PositionValue(e.balance, bar.signal.value.positionSize);
      BuyBack(value, bar.close);
    }
  }

  lemma {:induction false} ReplayBalanced(bars: seq<Bar>, initialCapital: real, n: nat)
    requires n <= |bars|
    ensures Replay(bars, initialCapital, n).Ok? ==> Balanced(Replay(bars, initialCapital, n).value, initialCapital)
  {
    if n <= Warmup {
      StartBalanced(initialCapital);
    } else {
      ReplayBalanced(bars, initialCapital, n - 1);
      ReplayStepBalanced(bars, initialCapital, n);
    }
  }

  lemma ReplayStepBalanced(bars: seq<Bar>, initialCapital: real, n: nat)
    requires Warmup < n <= |bars|
    requires Replay(bars, initialCapital, n - 1).Ok? ==> Balanced(Replay(bars, initialCapital, n - 1).value, initialCapital)
    ensures Replay(bars, initialCapital, n).Ok? ==> Balanced(Replay(bars, initialCapital, n).value, initialCapital)
  {
    if Replay(bars, initialCapital, n).Ok? {
      var prev := ReplayExtends(bars, initialCapital, n);
      StepBalanced(prev, n - 1, bars[n - 1], initialCapital);
    }
  }

  lemma StartBalanced(initialCapital: real)
    ensures Balanced(Start(initialCapital), initialCapital)
  {
    assert Notionals([]) == [] && TradePnls([]) == [];
  }

  /** A successful replay past the warm-up is one step after a successful
      shorter replay. */
  lemma ReplayExtends(bars: seq<Bar>, initialCapital: real, n: nat) returns (prev: Sim)
    requires Warmup < n <= |bars| && Replay(bars, initialCapital, n).Ok?
    ensures Replay(bars, initialCapital, n - 1) == Ok(prev)
    ensures Replay(bars, initialCapital, n) == Step(prev, n - 1, bars[n - 1])
  {
    prev := Replay(bars, initialCapital, n - 1).value;
  }

  /** The final balance of a replay is the initial capital less every
      entry's notional plus every trade's P&L: an exit credits only the P&L,
      so the notional of each round trip stays deducted. */
  lemma SimulationAccounting(bars: seq<Bar>, initialCapital: real)
    ensures var r := Simulation(bars, initialCapital);
      r.Ok? ==> r.value.balance == initialCapital - Sum(Notionals(r.value.trades)) + Sum(TradePnls(r.value.trades))
  {
    ReplayBalanced(bars, initialCapital, |bars|);
    var r := Replay(bars, initialCapital, |bars|);
    if r.Ok? && bars != [] && r.value.position.Some? {
      var s := r.value;
      var h := s.position.value;
      var last := bars[|bars| - 1];
      var t := Closed(h, last.close, EndOfBacktest, |bars| - 1);
      AppendTrade(s.trades, t);
      var f := Finish(s, last.close, |bars| - 1);
      assert f.trades == s.trades + [t] && f.balance == s.balance + t.pnl;
      assert Simulation(bars, initialCapital) == Ok(f);
    }
  }

  /** A position entered on a bar and closed at the same price by the end of
      the backtest makes no P&L, yet leaves the balance short of its
      notional: the balance after the round trip is `b - b * size`. */
  lemma RoundTripAtEntryPriceKeepsNotional(s: Sim, i: nat, bar: Bar)
    requires s.position.None? && bar.signal.Some? && bar.signal.value.confidence > EntryConfidence
    requires bar.close != 0.0
    ensures Step(s, i, bar).Ok?
    ensures var f := Finish(Step(s, i, bar).value, bar.close, i);
      f.trades == s.trades + [f.trades[|s.trades|]] && f.trades[|s.trades|].pnl == 0.0 &&
      f.balance == s.balance - s.balance * bar.signal.value.positionSize
  {
    var t := Step(s, i, bar).value;
    var h := t.position.value;
    assert PnlAt(h, bar.close) == 0.0;
  }

  /** With no signal on any bar the replay never trades and the equity curve
      stays flat at the initial capital. */
  lemma {:induction false} NoSignalNoTrades(bars: seq<Bar>, initialCapital: real, n: nat)
    requires n <= |bars|
    requires forall k :: 0 <= k < |bars| ==> bars[k].signal.None?
    ensures Replay(bars, initialCapital, n).Ok?
    ensures var s := Replay(bars, initialCapital, n).value;
      s.position.None? && s.trades == [] && s.balance == initialCapital &&
      forall k :: 0 <= k < |s.equity| ==> s.equity[k] == initialCapital
  {
    if n > Warmup {
      NoSignalNoTrades(bars, initialCapital, n - 1);
    }
  }

  /** As written, the fusion's NameError reaches the backtester as "no
      signal", so a replay of any data makes no trade and ends with the
      initial capital. */
  lemma BacktestAsWrittenNeverTrades(p: EvolvingStrategy.Params, rows: seq<(Snapshot, real)>,
                                     fmt: real -> string, initialCapital: real)
    ensures var bars := seq(|rows|, k requires 0 <= k < |rows| => BarAsWritten(p, rows[k].0, rows[k].1, fmt));
      var r := Simulation(bars, initialCapital);
      r.Ok? && r.value.trades == [] && r.value.balance == initialCapital
  {
    var bars := seq(|rows|, k requires 0 <= k < |rows| => BarAsWritten(p, rows[k].0, rows[k].1, fmt));
    NoSignalNoTrades(bars, initialCapital, |bars|);
  }

  /** `_calculate_monthly_returns` gives up unless the equity curve has one
      sample per bar; the curve has `1 + max(0, n - 50)` samples for `n`
      bars, so the lengths agree only for a single bar (whose one month has
      no month-on-month return). */
  lemma EquityCurveMisaligned(bars: seq<Bar>, initialCapital: real)
    ensures var r := Simulation(bars, initialCapital);
      r.Ok? ==> (|r.value.equity| == |bars| <==> |bars| == 1)
  {
    if Replay(bars, initialCapital, |bars|).Ok? {
      assert |Replay(bars, initialCapital, |bars|).value.equity| == 1 + (if |bars| > Warmup then |bars| - Warmup else 0);
    }
  }

  // ---------------------------------------------------------------------
  // Report
  // ---------------------------------------------------------------------

  /** The running maximum of the equity curve (`expanding().max()`). */
  function Peak(curve: seq<real>): (p: real)
    requires curve != []
    ensures p >= curve[0] && p >= curve[|curve| - 1]
    ensures forall k :: 0 <= k < |curve| ==> curve[k] <= p
    ensures p in curve
  {
    if |curve| == 1 then curve[0]
    else
      var init := curve[..|curve| - 1];
      assert forall k :: 0 <= k < |init| ==> init[k] == curve[k];
      Max(Peak(init), curve[|curve| - 1])
  }

  /** `abs(min((e - running_max) / running_max)) * 100` for a curve that
      starts positive (every running maximum is then positive): the largest
      fall below the running peak, in percent of that peak. */
  function RelativeDrawdown(curve: seq<real>): (d: real)
    requires curve != [] && curve[0] > 0.0
    ensures d >= 0.0
    ensures d >= (Peak(curve) - curve[|curve| - 1]) / Peak(curve) * 100.0
  {
    var drop := (Peak(curve) - curve[|curve| - 1]) / Peak(curve) * 100.0;
    if |curve| == 1 then drop
    else Max(RelativeDrawdown(curve[..|curve| - 1]), drop)
  }

  /** The fall at index `k` below the peak reached so far, in percent of
      that peak (`(e - running_max) / running_max` negated, times 100). */
  function Fall(curve: seq<real>, k: nat): (f: real)
    requires k < |curve| && curve[0] > 0.0
    ensures f >= 0.0
  {
    var p := Peak(curve[..k + 1]);
    assert curve[..k + 1][0] == curve[0];
    assert curve[..k + 1][k] == curve[k];
    (p - curve[k]) / p * 100.0
  }

  /** No fall below the running peak exceeds the reported drawdown. */
  lemma {:induction false} FallsBounded(curve: seq<real>, k: nat)
    requires k < |curve| && curve[0] > 0.0
    ensures Fall(curve, k) <= RelativeDrawdown(curve)
    decreases |curve|
  {
    var n := |curve| - 1;
    if k == n {
      assert curve[..k + 1] == curve;
    } else {
      var init := curve[..n];
      FallOfPrefix(curve, n, k);
      FallsBounded(init, k);
    }
  }

  /** The reported drawdown is the fall at some index. */
  lemma {:induction false} FallAttained(curve: seq<real>) returns (k: nat)
    requires curve != [] && curve[0] > 0.0
    ensures k < |curve| && Fall(curve, k) == RelativeDrawdown(curve)
    decreases |curve|
  {
    var n := |curve| - 1;
    assert curve[..n + 1] == curve;
    if n == 0 || RelativeDrawdown(curve) == Fall(curve, n) {
      k := n;
    } else {
      k := FallAttained(curve[..n]);
      FallOfPrefix(curve, n, k);
    }
  }

  /** A prefix of the curve sees the same falls as the curve itself. */
  lemma FallOfPrefix(curve: seq<real>, n: nat, k: nat)
    requires k < n <= |curve| && curve[0] > 0.0
    ensures curve[..n][0] > 0.0 && Fall(curve[..n], k) == Fall(curve, k)
  {
    assert curve[..n][..k + 1] == curve[..k + 1];
  }

  /** The report's maximum drawdown for a curve that starts positive (the
      initial capital); pandas' division by a running peak that is not
      positive (NaN, infinite or sign-flipped falls) is not modelled
      (`None`). */
  function CurveDrawdown(curve: seq<real>): (r: Option<real>)
    ensures r.Some? <==> curve != [] && curve[0] > 0.0
    ensures r.Some? ==> r.value == RelativeDrawdown(curve) && r.value >= 0.0
  {
    if curve != [] && curve[0] > 0.0 then Some(RelativeDrawdown(curve)) else None
  }

  /** An equity curve that never falls has no drawdown. */
  lemma {:induction false} RisingCurveNoDrawdown(curve: seq<real>)
    requires curve != [] && curve[0] > 0.0
    requires forall k :: 0 < k < |curve| ==> curve[k - 1] <= curve[k]
    ensures RelativeDrawdown(curve) == 0.0
    ensures Peak(curve) == curve[|curve| - 1]
  {
    var n := |curve| - 1;
    if n > 0 {
      var init := curve[..n];
      assert forall k :: 0 <= k < |init| ==> init[k] == curve[k];
      RisingCurveNoDrawdown(init);
      assert Peak(init) == curve[n - 1] <= curve[n];
      assert Peak(curve) == curve[n];
      assert Peak(curve) - curve[n] == 0.0;
      assert RelativeDrawdown(curve) == Max(RelativeDrawdown(init), 0.0 / Peak(curve) * 100.0);
    }
  }

  /** The backtest's profit factor: 0 without trades, infinite without a
      losing trade, gross profit over gross loss otherwise. */
  function BacktestProfitFactor(xs: seq<real>): (r: ProfitFactor)
    ensures xs == [] ==> r == Finite(0.0)
    ensures xs != [] ==> (r == Infinite <==> forall k :: 0 <= k < |xs| ==> xs[k] >= 0.0)
    ensures r.Finite? ==> r.value >= 0.0
    ensures xs != [] && Ledger.GrossLoss(xs) < 0.0 ==>
      r == Finite(Ledger.GrossWin(xs) / -Ledger.GrossLoss(xs))
  {
    Ledger.LossesZeroIffNoNegative(xs);
    if xs == [] then Finite(0.0)
    else if Ledger.GrossLoss(xs) < 0.0 then Finite(Ledger.GrossWin(xs) / -Ledger.GrossLoss(xs))
    else Infinite
  }

  /** A finite profit factor scales the gross loss back to the gross profit,
      so it exceeds 1 exactly when the winners outweigh the losers. */
  lemma ProfitFactorBalances(xs: seq<real>)
    requires BacktestProfitFactor(xs).Finite? && xs != []
    ensures var f := BacktestProfitFactor(xs).value;
      f * -Ledger.GrossLoss(xs) == Ledger.GrossWin(xs) &&
      (f > 1.0 <==> Ledger.GrossWin(xs) > -Ledger.GrossLoss(xs))
  {
    var w, l := Ledger.GrossWin(xs), -Ledger.GrossLoss(xs);
    assert l > 0.0;
    assert BacktestProfitFactor(xs).value == w / l;
    RatioAboveOne(w, l);
  }

  /** The metrics `_simulate_trading` returns besides the trades and the
      curve (the Sharpe ratio is computed outside the model). The total
      return and the Calmar ratio may be NumPy infinities or NaN. */
  datatype Report = Report(
    totalReturn: Quotient,
    totalTrades: nat,
    winRate: real,
    profitFactor: ProfitFactor,
    maxDrawdown: Option<real>,
    sharpeRatio: real,
    calmarRatio: Option<Quotient>)

  /** The closing metrics of a replay. The total return divides by the
      initial capital: while no trade has closed the balance is still the
      Python float it started as, and a zero capital raises
      ZeroDivisionError; every closed trade adds a NumPy P&L to it, after
      which the division follows NumPy (infinite or NaN). A replay ends with
      a trade whenever it entered one, so the balance has been touched by
      NumPy exactly when the trade list is not empty. */
  function Summarize(run: Sim, initialCapital: real, sharpe: real): (r: Result<Report>)
    ensures r.Err? <==> initialCapital == 0.0 && run.trades == []
    ensures r.Err? ==> r.error == ZeroDivision
    ensures r.Ok? ==> r.value.totalTrades == |run.trades|
    ensures r.Ok? && initialCapital != 0.0 ==>
      r.value.totalReturn == Exact((run.balance - initialCapital) / initialCapital * 100.0)
    ensures r.Ok? && initialCapital == 0.0 ==>
      (r.value.totalReturn == PlusInf <==> run.balance > 0.0) &&
      (r.value.totalReturn == MinusInf <==> run.balance < 0.0) &&
      (r.value.totalReturn == NotANumber <==> run.balance == 0.0)
    ensures r.Ok? ==> r.value.winRate == Ledger.WinRate(TradePnls(run.trades))
    ensures r.Ok? && run.trades == [] ==> r.value.winRate == 0.0 && r.value.profitFactor == Finite(0.0)
    ensures r.Ok? ==> r.value.profitFactor == BacktestProfitFactor(TradePnls(run.trades))
    ensures r.Ok? ==> r.value.maxDrawdown == CurveDrawdown(run.equity)
    ensures r.Ok? ==> (r.value.calmarRatio.Some? <==> r.value.maxDrawdown.Some?)
    ensures r.Ok? && r.value.maxDrawdown == Some(0.0) ==> r.value.calmarRatio == Some(Exact(0.0))
    ensures r.Ok? && r.value.maxDrawdown.Some? && r.value.maxDrawdown.value > 0.0 ==>
      var c := r.value.calmarRatio.value;
      (c.Exact? <==> r.value.totalReturn.Exact?) &&
      (c.Exact? ==> c.v == r.value.totalReturn.v / r.value.maxDrawdown.value) &&
      (!c.Exact? ==> c == r.value.totalReturn)
  {
    if initialCapital == 0.0 && run.trades == [] then Err(ZeroDivision)
    else
      var totalReturn := QScale(NpDiv(run.balance - initialCapital, initialCapital), 100.0);
      var xs := TradePnls(run.trades);
      var dd := CurveDrawdown(run.equity);
      var calmar :=
        if dd.None? then None
        else if dd.value > 0.0 then Some(CalmarOf(totalReturn, dd.value))
        else Some(Exact(0.0));
      Ok(Report(totalReturn, |run.trades|, Ledger.WinRate(xs), BacktestProfitFactor(xs), dd, sharpe, calmar))
  }

  /** `(total_return / 100) / (max_drawdown / 100)` for a positive drawdown. */
  function CalmarOf(totalReturn: Quotient, maxDrawdown: real): (c: Quotient)
    requires maxDrawdown > 0.0
    ensures c.Exact? <==> totalReturn.Exact?
    ensures c.Exact? ==> c.v == totalReturn.v / maxDrawdown
    ensures !c.Exact? ==> c == totalReturn
  {
    var scaled := QScale(totalReturn, 1.0 / 100.0);
    if scaled.Exact? then
      assert scaled.v / (maxDrawdown / 100.0) == totalReturn.v / maxDrawdown;
      Exact(scaled.v / (maxDrawdown / 100.0))
    else scaled
  }

  /** The report of a replay from a positive capital always has a drawdown,
      and it is non-negative. */
  lemma ReplayDrawdownDefined(bars: seq<Bar>, initialCapital: real, sharpe: real)
    requires initialCapital > 0.0
    ensures var r := Simulation(bars, initialCapital);
      r.Ok? ==> Summarize(r.value, initialCapital, sharpe).Ok? &&
                Summarize(r.value, initialCapital, sharpe).value.maxDrawdown.Some?
  {
    var r := Replay(bars, initialCapital, |bars|);
    if r.Ok? && bars != [] {
      assert Finish(r.value, bars[|bars| - 1].close, |bars| - 1).equity == r.value.equity;
    }
  }

  // ---------------------------------------------------------------------
  // Streaks and extra metrics
  // ---------------------------------------------------------------------

  /** `(wins and pnl > 0) or (not wins and pnl < 0)`. */
  predicate Counts(x: real, wins: bool)
  {
    (wins && x > 0.0) || (!wins && x < 0.0)
  }

  /** Every P&L in `xs[i..j]` counts. */
  predicate Streak(xs: seq<real>, i: int, j: int, wins: bool)
    requires 0 <= i <= j <= |xs|
  {
    forall k :: i <= k < j ==> Counts(xs[k], wins)
  }

  /** The length of the streak ending at the last P&L. */
  function RunEnd(xs: seq<real>, wins: bool): (n: nat)
    ensures n <= |xs|
    ensures Streak(xs, |xs| - n, |xs|, wins)
    ensures n < |xs| ==> !Counts(xs[|xs| - 1 - n], wins)
  {
    if xs == [] then 0
    else if Counts(xs[|xs| - 1], wins) then
      var init := xs[..|xs| - 1];
      assert forall k :: 0 <= k < |init| ==> init[k] == xs[k];
      RunEnd(init, wins) + 1
    else 0
  }

  /** The longest streak, specified over prefixes. */
  function LongestRun(xs: seq<real>, wins: bool): (n: nat)
    ensures n <= |xs|
  {
    if xs == [] then 0
    else
      var m := LongestRun(xs[..|xs| - 1], wins);
      if RunEnd(xs, wins) > m then RunEnd(xs, wins) else m
  }

  /** A streak that ends at the last P&L is no longer than `RunEnd`. */
  lemma {:induction false} SuffixStreak(xs: seq<real>, i: int, wins: bool)
    requires 0 <= i <= |xs| && Streak(xs, i, |xs|, wins)
    ensures |xs| - i <= RunEnd(xs, wins)
  {
    if i < |xs| {
      var init := xs[..|xs| - 1];
      assert forall k :: 0 <= k < |init| ==> init[k] == xs[k];
      SuffixStreak(init, i, wins);
    }
  }

  /** `LongestRun` is the length of the longest streak: every streak is at
      most that long, and one streak is exactly that long. */
  lemma LongestRunIsLongest(xs: seq<real>, wins: bool)
    ensures forall i, j :: 0 <= i <= j <= |xs| && Streak(xs, i, j, wins) ==> j - i <= LongestRun(xs, wins)
    ensures exists i, j :: 0 <= i <= j <= |xs| && j - i == LongestRun(xs, wins) && Streak(xs, i, j, wins)
  {
    StreaksBounded(xs, wins);
    var i, j := StreakAttained(xs, wins);
  }

  lemma {:induction false} StreaksBounded(xs: seq<real>, wins: bool)
    ensures forall i, j :: 0 <= i <= j <= |xs| && Streak(xs, i, j, wins) ==> j - i <= LongestRun(xs, wins)
  {
    if xs != [] {
      var init := xs[..|xs| - 1];
      StreaksBounded(init, wins);
      forall i, j | 0 <= i <= j <= |xs| && Streak(xs, i, j, wins)
        ensures j - i <= LongestRun(xs, wins)
      {
        if j == |xs| {
          SuffixStreak(xs, i, wins);
        } else {
          assert forall k :: i <= k < j ==> init[k] == xs[k];
          assert Streak(init, i, j, wins);
        }
      }
    }
  }

  lemma {:induction false} StreakAttained(xs: seq<real>, wins: bool) returns (i: nat, j: nat)
    ensures i <= j <= |xs| && j - i == LongestRun(xs, wins) && Streak(xs, i, j, wins)
  {
    if xs == [] {
      i, j := 0, 0;
    } else {
      var n := LongestRun(xs, wins);
      if n == RunEnd(xs, wins) {
        i, j := |xs| - n, |xs|;
      } else {
        var init := xs[..|xs| - 1];
        i, j := StreakAttained(init, wins);
        assert forall k :: i <= k < j ==> init[k] == xs[k];
      }
    }
  }

  /** No streak is longer than the number of P&Ls that count. */
  lemma {:induction false} LongestRunAtMostCount(xs: seq<real>)
    ensures RunEnd(xs, true) <= Ledger.Wins(xs) && LongestRun(xs, true) <= Ledger.Wins(xs)
    ensures RunEnd(xs, false) <= Ledger.Losses(xs) && LongestRun(xs, false) <= Ledger.Losses(xs)
  {
    if xs != [] {
      LongestRunAtMostCount(xs[..|xs| - 1]);
    }
  }

  /** `_calculate_consecutive_wins_losses`. */
  method ConsecutiveWinsLosses(pnls: seq<real>, wins: bool) returns (maxConsecutive: nat)
    ensures maxConsecutive == LongestRun(pnls, wins)
    ensures maxConsecutive <= |pnls|
  {
    maxConsecutive := 0;
    var current: nat := 0;
    var i := 0;
    while i < |pnls|
      invariant 0 <= i <= |pnls|
      invariant current == RunEnd(pnls[..i], wins)
      invariant maxConsecutive == LongestRun(pnls[..i], wins)
    {
      RunStep(pnls, i, wins);
      if Counts(pnls[i], wins) {
        current := current + 1;
        if current > maxConsecutive {
          maxConsecutive := current;
        }
      } else {
        current := 0;
      }
      i := i + 1;
    }
    assert pnls[..|pnls|] == pnls;
  }

  /** One more P&L extends or resets the current run, and the longest run
      is the longer of the old one and the current one. */
  lemma RunStep(xs: seq<real>, i: nat, wins: bool)
    requires i < |xs|
    ensures RunEnd(xs[..i + 1], wins) == if Counts(xs[i], wins) then RunEnd(xs[..i], wins) + 1 else 0
    ensures var m, c := LongestRun(xs[..i], wins), RunEnd(xs[..i + 1], wins);
      LongestRun(xs[..i + 1], wins) == if c > m then c else m
  {
    var ys := xs[..i + 1];
    assert ys[..i] == xs[..i] && ys[i] == xs[i];
  }

  /** `max(winning_trades) if winning_trades else 0`. */
  function LargestWin(xs: seq<real>): (r: real)
    ensures r >= 0.0
    ensures forall k :: 0 <= k < |xs| && xs[k] > 0.0 ==> xs[k] <= r
    ensures r > 0.0 ==> exists k :: 0 <= k < |xs| && xs[k] == r
    ensures r == 0.0 ==> forall k :: 0 <= k < |xs| ==> xs[k] <= 0.0
  {
    if xs == [] then 0.0
    else
      var init := xs[..|xs| - 1];
      assert forall k :: 0 <= k < |init| ==> init[k] == xs[k];
      Max(LargestWin(init), xs[|xs| - 1])
  }

  /** `min(losing_trades) if losing_trades else 0`. */
  function LargestLoss(xs: seq<real>): (r: real)
    ensures r <= 0.0
    ensures forall k :: 0 <= k < |xs| && xs[k] < 0.0 ==> r <= xs[k]
    ensures r < 0.0 ==> exists k :: 0 <= k < |xs| && xs[k] == r
    ensures r == 0.0 ==> forall k :: 0 <= k < |xs| ==> xs[k] >= 0.0
  {
    if xs == [] then 0.0
    else
      var init := xs[..|xs| - 1];
      assert forall k :: 0 <= k < |init| ==> init[k] == xs[k];
      Min(LargestLoss(init), xs[|xs| - 1])
  }

  /** `_calculate_performance_metrics`. */
  datatype Extras = Extras(
    avgWin: real,
    avgLoss: real,
    largestWin: real,
    largestLoss: real,
    consecutiveWins: nat,
    consecutiveLosses: nat,
    recoveryFactor: real,
    expectancy: real,
    totalProfit: real,
    totalLoss: real)

  /** The extra metrics of a trade list (`None` is the empty dict returned
      when there are no trades). */
  function PerformanceMetrics(pnls: seq<real>, totalReturn: real, winRate: real, maxDrawdown: real): (r: Option<Extras>)
    ensures r.None? <==> pnls == []
    ensures r.Some? ==> r.value.consecutiveWins <= Ledger.Wins(pnls) && r.value.consecutiveLosses <= Ledger.Losses(pnls)
    ensures r.Some? ==> r.value.totalProfit >= 0.0 && r.value.totalLoss >= 0.0
    ensures r.Some? ==> r.value.largestWin >= r.value.avgWin >= 0.0
    ensures r.Some? && maxDrawdown <= 0.0 ==> r.value.recoveryFactor == 0.0
    ensures r.Some? && winRate == 100.0 ==> r.value.expectancy == r.value.avgWin
    ensures r.Some? ==>
      r.value.avgWin == Ledger.MeanWin(pnls) && r.value.avgLoss == Ledger.MeanLoss(pnls) &&
      r.value.largestWin == LargestWin(pnls) && r.value.largestLoss == LargestLoss(pnls) &&
      r.value.consecutiveWins == LongestRun(pnls, true) && r.value.consecutiveLosses == LongestRun(pnls, false) &&
      r.value.totalProfit == Ledger.GrossWin(pnls) && r.value.totalLoss == Abs(Ledger.GrossLoss(pnls))
    ensures r.Some? && maxDrawdown > 0.0 ==> r.value.recoveryFactor == totalReturn / maxDrawdown
    ensures r.Some? && 0.0 <= winRate <= 100.0 ==> r.value.avgLoss <= r.value.expectancy <= r.value.avgWin
  {
    if pnls == [] then None
    else
      LongestRunAtMostCount(pnls);
      MeanWinAtMostLargest(pnls);
      var avgWin, avgLoss := Ledger.MeanWin(pnls), Ledger.MeanLoss(pnls);
      var recovery := if maxDrawdown > 0.0 then totalReturn / maxDrawdown else 0.0;
      var expectancy := (winRate / 100.0) * avgWin + ((100.0 - winRate) / 100.0) * avgLoss;
      ExpectancyBetween(winRate, avgWin, avgLoss, expectancy);
      Some(Extras(
        avgWin, avgLoss, LargestWin(pnls), LargestLoss(pnls),
        LongestRun(pnls, true), LongestRun(pnls, false),
        recovery, expectancy, Ledger.GrossWin(pnls), -Ledger.GrossLoss(pnls)))
  }

  /** The expectancy weighs the mean win by the win rate and the mean loss by
      the rest, so it lies between them. */
  lemma ExpectancyBetween(winRate: real, hi: real, lo: real, e: real)
    requires e == (winRate / 100.0) * hi + ((100.0 - winRate) / 100.0) * lo
    requires lo <= hi
    ensures 0.0 <= winRate <= 100.0 ==> lo <= e <= hi
    ensures winRate == 100.0 ==> e == hi
  {
    var p := winRate / 100.0;
    assert (100.0 - winRate) / 100.0 == 1.0 - p;
    WeightedBetween(p, hi, lo, e);
  }

  /** A weighted average of two values lies between them. */
  lemma WeightedBetween(p: real, hi: real, lo: real, e: real)
    requires e == p * hi + (1.0 - p) * lo
    requires lo <= hi
    ensures 0.0 <= p <= 1.0 ==> lo <= e <= hi
    ensures p == 1.0 ==> e == hi
  {
    var q := 1.0 - p;
    assert p * (hi - lo) + lo == e && hi - q * (hi - lo) == e;
    if 0.0 <= p <= 1.0 {
      NonNegativeProduct(p, hi - lo);
      NonNegativeProduct(q, hi - lo);
    }
  }

  /** The mean of the winners never exceeds the largest winner. */
  lemma MeanWinAtMostLargest(xs: seq<real>)
    ensures Ledger.MeanWin(xs) <= LargestWin(xs)
  {
    GrossWinAtMost(xs);
    if Ledger.Wins(xs) > 0 {
      QuotientAtMost(Ledger.GrossWin(xs), Ledger.Wins(xs) as real, LargestWin(xs));
    }
  }

  /** A product kept out of the solver's arithmetic until a lemma opens it. */
  function Times(a: real, b: real): real
  {
    a * b
  }

  lemma QuotientAtMost(a: real, w: real, m: real)
    requires w > 0.0 && a <= Times(w, m)
    ensures a / w <= m
  {
    var q := a / w;
    assert q * w == a;
    if q > m {
      ScaleMonotone(m, q, w);
    }
  }

  lemma TimesStep(w: real, l: real, L: real)
    requires w >= 0.0 && l <= L
    ensures Times(w, l) <= Times(w, L)
    ensures Times(w + 1.0, L) == Times(w, L) + L
  {
    if w > 0.0 {
      ScaleMonotone(l, L, w);
    }
  }

  lemma {:induction false} GrossWinAtMost(xs: seq<real>)
    ensures Ledger.GrossWin(xs) <= Times(Ledger.Wins(xs) as real, LargestWin(xs))
  {
    if xs != [] {
      var init := xs[..|xs| - 1];
      GrossWinAtMost(init);
      TimesStep(Ledger.Wins(init) as real, LargestWin(init), LargestWin(xs));
    }
  }

  // ---------------------------------------------------------------------
  // Parameter optimisation
  // ---------------------------------------------------------------------

  /** `[x] + t` for every tail `t`, in order. */
  function Prefixed(x: real, tails: seq<seq<real>>): (r: seq<seq<real>>)
    ensures |r| == |tails| && forall k :: 0 <= k < |r| ==> r[k] == [x] + tails[k]
  {
    seq(|tails|, k requires 0 <= k < |tails| => [x] + tails[k])
  }

  /** Every candidate of `xs` in front of every tail, the tails varying fastest. */
  function Spread(xs: seq<real>, tails: seq<seq<real>>): seq<seq<real>>
  {
    if xs == [] then [] else Prefixed(xs[0], tails) + Spread(xs[1..], tails)
  }

  lemma {:induction false} SpreadSize(xs: seq<real>, tails: seq<seq<real>>)
    ensures |Spread(xs, tails)| == |xs| * |tails|
  {
    if xs != [] {
      SpreadSize(xs[1..], tails);
      assert |xs| * |tails| == |tails| + (|xs| - 1) * |tails|;
    }
  }

  lemma {:induction false} SpreadMembers(xs: seq<real>, tails: seq<seq<real>>)
    ensures forall c :: c in Spread(xs, tails) <==> |c| > 0 && c[0] in xs && c[1..] in tails
  {
    if xs != [] {
      SpreadMembers(xs[1..], tails);
      forall c | |c| > 0 && c[0] == xs[0] && c[1..] in tails
        ensures c in Prefixed(xs[0], tails)
      {
        var k :| 0 <= k < |tails| && tails[k] == c[1..];
        assert c == [xs[0]] + tails[k];
      }
    }
  }

  /** `itertools.product(*lists)`. */
  function Product(lists: seq<seq<real>>): seq<seq<real>>
    decreases |lists|
  {
    if lists == [] then [[]] else Spread(lists[0], Product(lists[1..]))
  }

  function Count(lists: seq<seq<real>>): nat
    decreases |lists|
  {
    if lists == [] then 1 else |lists[0]| * Count(lists[1..])
  }

  /** The product has one combination per choice of a candidate from each
      list. */
  lemma {:induction false} ProductSize(lists: seq<seq<real>>)
    ensures |Product(lists)| == Count(lists)
    decreases |lists|
  {
    if lists != [] {
      ProductSize(lists[1..]);
      SpreadSize(lists[0], Product(lists[1..]));
    }
  }

  /** The product holds exactly the sequences that pick one candidate from
      each list, in list order. */
  lemma {:induction false} ProductMembers(lists: seq<seq<real>>)
    ensures forall c :: c in Product(lists) <==>
      |c| == |lists| && forall k :: 0 <= k < |c| ==> c[k] in lists[k]
    decreases |lists|
  {
    if lists != [] {
      var rest := lists[1..];
      ProductMembers(rest);
      SpreadMembers(lists[0], Product(rest));
      forall c
        ensures c in Product(lists) <==> |c| == |lists| && forall k :: 0 <= k < |c| ==> c[k] in lists[k]
      {
        if |c| == |lists| && forall k :: 0 <= k < |c| ==> c[k] in lists[k] {
          assert forall k :: 0 <= k < |c[1..]| ==> c[1..][k] == c[k + 1];
        }
        if c in Product(lists) {
          assert forall k :: 1 <= k < |c| ==> c[k] == c[1..][k - 1];
        }
      }
    }
  }

  /** The figures of one backtest the optimiser scores. */
  datatype Outcome = Outcome(sharpeRatio: real, winRate: real, maxDrawdown: real)

  /** `sharpe_ratio * win_rate * (1 - max_drawdown / 100)`. */
  function Score(o: Outcome): real
  {
    o.sharpeRatio * o.winRate * (1.0 - o.maxDrawdown / 100.0)
  }

  /** `run_parameter_optimization`: one backtest per combination (the
      backtest itself is the parameter `backtest`), every score recorded, and
      the first combination of maximal score kept, since the comparison with
      the best so far (initially minus infinity) is strict. */
  method RunParameterOptimization(ranges: seq<seq<real>>, backtest: seq<real> -> Outcome)
    returns (best: Option<nat>, scores: seq<real>)
    ensures |scores| == |Product(ranges)| == Count(ranges)
    ensures forall k :: 0 <= k < |scores| ==> scores[k] == Score(backtest(Product(ranges)[k]))
    ensures best.None? <==> scores == []
    ensures best.Some? ==> best.value < |scores|
    ensures best.Some? ==> forall k :: 0 <= k < |scores| ==> scores[k] <= scores[best.value]
    ensures best.Some? ==> forall k :: 0 <= k < best.value ==> scores[k] < scores[best.value]
  {
    var combos := Product(ranges);
    ProductSize(ranges);
    best := None;
    scores := [];
    var i := 0;
    while i < |combos|
      invariant 0 <= i <= |combos| && |scores| == i
      invariant forall k :: 0 <= k < i ==> scores[k] == Score(backtest(combos[k]))
      invariant best.None? <==> i == 0
      invariant best.Some? ==> best.value < i
      invariant best.Some? ==> forall k :: 0 <= k < i ==> scores[k] <= scores[best.value]
      invariant best.Some? ==> forall k :: 0 <= k < best.value ==> scores[k] < scores[best.value]
    {
      var score := Score(backtest(combos[i]));
      scores := scores + [score];
      if best.None? || score > scores[best.value] {
        best := Some(i);
      }
      i := i + 1;
    }
  }
}
