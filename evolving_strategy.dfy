/** The original evolving strategy: four signal generators over the latest
    indicator snapshot (momentum, mean reversion, trend, volume), a weighted
    score fusion in which the volume generator only boosts the leading side,
    the live position book that opens, monitors and closes one position per
    symbol, and the performance summary over closed trades. */
module EvolvingStrategy {
  import opened Common
  import opened Signals
  import Ledger

  /** The tunable fields of `StrategyParameters` that the decision rules read
      (indicator periods only matter to the foreign indicator code). */
  datatype Params = Params(
    rsiOversold: real,
    rsiOverbought: real,
    volumeThreshold: real,
    maxPositionSize: real,
    stopLossPct: real,
    takeProfitPct: real,
    momentumWeight: real,
    meanReversionWeight: real,
    trendWeight: real,
    volumeWeight: real)

  const Defaults := Params(30.0, 70.0, 1.5, 0.1, 0.02, 0.04, 0.3, 0.3, 0.2, 0.2)

  /** The hard-coded fusion threshold (there is no parameter for it). */
  const FusionGate: real := 0.6

  // ---------------------------------------------------------------------
  // Signal generators
  // ---------------------------------------------------------------------

  /** RSI extremes, a confirmed MACD crossover and strong 5-bar momentum.
      `fmt` is the one-decimal rendering of a number used in the rationale. */
  function Momentum(p: Params, s: Snapshot, fmt: real -> string): (r: Opinion)
    ensures s.rsi.None? ==> r == Undecided
    ensures 0.0 <= r.confidence <= 1.0
    ensures r.signal != Hold <==> r.confidence > 0.6
    ensures r.signal == Buy <==> r.confidence > 0.6 && (Below(s.rsi, p.rsiOversold) || MacdAbove(s))
    ensures s.rsi.Some? ==> "Momentum: " <= r.reasoning
  {
    if s.rsi.None? then Undecided
    else
      var rsi := s.rsi.value;
      var t1 :=
        if rsi < p.rsiOversold then Add(NoTally, 0.3, "RSI oversold (" + fmt(rsi) + ")")
        else if rsi > p.rsiOverbought then Add(NoTally, 0.3, "RSI overbought (" + fmt(rsi) + ")")
        else NoTally;
      var t2 :=
        if s.macd.None? || s.macdSignal.None? then t1
        else if s.macd.value > s.macdSignal.value && Above(s.macdHistogram, 0.0) then Add(t1, 0.4, "MACD bullish crossover")
        else if s.macd.value < s.macdSignal.value && Below(s.macdHistogram, 0.0) then Add(t1, 0.4, "MACD bearish crossover")
        else t1;
      var t3 :=
        if Above(s.momentum5, 0.02) then Add(t2, 0.3, "Strong 5-period momentum")
        else if Below(s.momentum5, -0.02) then Add(t2, 0.3, "Strong 5-period negative momentum")
        else t2;
      var signal :=
        if t3.confidence > 0.6 then (if rsi < p.rsiOversold || MacdAbove(s) then Buy else Sell)
        else Hold;
      Opinion(signal, Min(t3.confidence, 1.0), "Momentum: " + Join(t3.parts, ", "))
  }

  /** Bollinger-band extremes plus a wide-band bonus. The band position is a
      float64 quotient, so a collapsed band is not an error. */
  function MeanReversion(p: Params, s: Snapshot, price: real): (r: Opinion)
    ensures s.bbUpper.None? || s.bbLower.None? || s.bbMiddle.None? ==> r == Undecided
    ensures 0.0 <= r.confidence <= 1.0
    ensures r.signal != Hold <==> r.confidence > 0.5
    ensures r.signal == Buy <==> r.confidence > 0.5 && QLess(BandPosition(s, price), 0.1)
    ensures r.signal != Hold ==> QLess(BandPosition(s, price), 0.1) || QGreater(BandPosition(s, price), 0.9)
  {
    if s.bbUpper.None? || s.bbLower.None? || s.bbMiddle.None? then Undecided
    else
      var pos := BandPosition(s, price);
      var t1 :=
        if QLess(pos, 0.1) then Add(NoTally, 0.6, "Price near BB lower band")
        else if QGreater(pos, 0.9) then Add(NoTally, 0.6, "Price near BB upper band")
        else NoTally;
      var t2 :=
        if Above(s.bbWidth, 0.1) then Add(t1, 0.2, "High volatility (mean reversion setup)") else t1;
      var signal :=
        if t2.confidence > 0.5 then (if QLess(pos, 0.1) then Buy else Sell) else Hold;
      Opinion(signal, Min(t2.confidence, 1.0), "Mean Reversion: " + Join(t2.parts, ", "))
  }

  /** EMA crossover and price relative to both EMAs. It buys only in a
      confirmed uptrend and sells only in a confirmed downtrend. */
  function Trend(p: Params, s: Snapshot, price: real): (r: Opinion)
    ensures s.emaFast.None? || s.emaSlow.None? ==> r == Undecided
    ensures 0.0 <= r.confidence <= 1.0
    ensures r.signal == Buy <==> s.emaFast.Some? && s.emaSlow.Some? && price > s.emaFast.value > s.emaSlow.value
    ensures r.signal == Sell <==> s.emaFast.Some? && s.emaSlow.Some? && price < s.emaFast.value < s.emaSlow.value
  {
    if s.emaFast.None? || s.emaSlow.None? then Undecided
    else
      var fast, slow := s.emaFast.value, s.emaSlow.value;
      var t1 :=
        if fast > slow then Add(NoTally, 0.5, "EMA fast > EMA slow (uptrend)")
        else Add(NoTally, 0.5, "EMA fast < EMA slow (downtrend)");
      var t2 :=
        if price > fast > slow then Add(t1, 0.3, "Price above both EMAs")
        else if price < fast < slow then Add(t1, 0.3, "Price below both EMAs")
        else t1;
      var signal :=
        if t2.confidence > 0.6 then
          if fast > slow && price > fast then Buy
          else if fast < slow && price < fast then Sell
          else Hold
        else Hold;
      Opinion(signal, Min(t2.confidence, 1.0), "Trend: " + Join(t2.parts, ", "))
  }

  /** Volume confirmation: never a direction, only a confidence. */
  function Volume(p: Params, s: Snapshot, fmt: real -> string): (r: Opinion)
    ensures r.signal == Hold
    ensures s.volumeRatio.None? ==> r == Undecided
    ensures 0.0 <= r.confidence <= 0.7
    ensures r.confidence > 0.0 <==> Above(s.volumeRatio, p.volumeThreshold) || Above(s.volumeRatio, 2.0)
  {
    if s.volumeRatio.None? then Undecided
    else
      var vr := s.volumeRatio.value;
      var t1 :=
        if vr > p.volumeThreshold then Add(NoTally, 0.4, "High volume (" + fmt(vr) + "x average)")
        else NoTally;
      var t2 := if vr > 2.0 then Add(t1, 0.3, "Very high volume") else t1;
      Opinion(Hold, Min(t2.confidence, 1.0), "Volume: " + Join(t2.parts, ", "))
  }

  // ---------------------------------------------------------------------
  // Score fusion
  // ---------------------------------------------------------------------

  datatype Scores = Scores(buy: real, sell: real)

  /** A directional opinion's weighted confidence, on its own side. */
  function Vote(o: Opinion, weight: real): (r: Scores)
    ensures o.signal == Hold ==> r == Scores(0.0, 0.0)
    ensures o.signal == Buy ==> r == Scores(o.confidence * weight, 0.0)
    ensures o.signal == Sell ==> r == Scores(0.0, o.confidence * weight)
  {
    match o.signal
    case Buy => Scores(o.confidence * weight, 0.0)
    case Sell => Scores(0.0, o.confidence * weight)
    case Hold => Scores(0.0, 0.0)
  }

  /** Scores of the three directional generators before the volume boost. */
  function DirectionalScores(p: Params, m: Opinion, mr: Opinion, t: Opinion): Scores
  {
    var a, b, c := Vote(m, p.momentumWeight), Vote(mr, p.meanReversionWeight), Vote(t, p.trendWeight);
    Scores(a.buy + b.buy + c.buy, a.sell + b.sell + c.sell)
  }

  /** The volume boost goes to whichever side strictly leads; a tie goes to
      the sell side. */
  function FusedScores(p: Params, m: Opinion, mr: Opinion, t: Opinion, v: Opinion): (r: Scores)
    ensures var d := DirectionalScores(p, m, mr, t);
      r.buy + r.sell == d.buy + d.sell + v.confidence * p.volumeWeight
    ensures var d := DirectionalScores(p, m, mr, t);
      if d.buy > d.sell then r.sell == d.sell else r.buy == d.buy
  {
    var d := DirectionalScores(p, m, mr, t);
    var boost := v.confidence * p.volumeWeight;
    if d.buy > d.sell then Scores(d.buy + boost, d.sell) else Scores(d.buy, d.sell + boost)
  }

  /** A non-negative boost never changes which side leads, and on a tie it
      makes the sell side lead. */
  lemma VolumeBoostKeepsLeader(p: Params, m: Opinion, mr: Opinion, t: Opinion, v: Opinion)
    requires v.confidence >= 0.0 && p.volumeWeight >= 0.0
    ensures var d, r := DirectionalScores(p, m, mr, t), FusedScores(p, m, mr, t, v);
      (d.buy > d.sell ==> r.buy > r.sell) && (d.sell > d.buy ==> r.sell > r.buy)
    ensures var d, r := DirectionalScores(p, m, mr, t), FusedScores(p, m, mr, t, v);
      d.buy == d.sell && v.confidence * p.volumeWeight > 0.0 ==> r.sell > r.buy
  {
  }

  /** The fused direction, its confidence, position size and rationale;
      everything of the decision except the protective levels. */
  datatype Verdict = Verdict(signal: Signal, confidence: real, positionSize: real, reasoning: string)

  function Fuse(p: Params, m: Opinion, mr: Opinion, t: Opinion, v: Opinion): (r: Verdict)
    ensures var sc := FusedScores(p, m, mr, t, v);
      (r.signal == Buy <==> sc.buy > sc.sell && sc.buy > FusionGate) &&
      (r.signal == Sell <==> sc.sell > sc.buy && sc.sell > FusionGate)
    ensures var sc := FusedScores(p, m, mr, t, v);
      r.confidence == (match r.signal case Buy => sc.buy case Sell => sc.sell case Hold => 0.0)
    ensures r.signal != Hold ==> r.confidence > FusionGate
    ensures p.maxPositionSize >= 0.0 ==> r.positionSize <= p.maxPositionSize
    ensures p.maxPositionSize >= 0.0 && r.signal == Hold ==> r.positionSize == 0.0
    ensures r.reasoning == Join(NonEmpty([m.reasoning, mr.reasoning, t.reasoning, v.reasoning]), " | ")
  {
    var sc := FusedScores(p, m, mr, t, v);
    var signal :=
      if sc.buy > sc.sell && sc.buy > FusionGate then Buy
      else if sc.sell > sc.buy && sc.sell > FusionGate then Sell
      else Hold;
    var confidence := match signal case Buy => sc.buy case Sell => sc.sell case Hold => 0.0;
    Verdict(signal, confidence,
            Min(confidence * p.maxPositionSize, p.maxPositionSize),
            Join(NonEmpty([m.reasoning, mr.reasoning, t.reasoning, v.reasoning]), " | "))
  }

  /** `_combine_signals` with the entry price supplied: the protective levels
      are placed around `price` on the side of the decision. */
  function Combine(p: Params, m: Opinion, mr: Opinion, t: Opinion, v: Opinion, price: real): (d: Decision)
    ensures var f := Fuse(p, m, mr, t, v);
      d.signal == f.signal && d.confidence == f.confidence &&
      d.positionSize == f.positionSize && d.reasoning == f.reasoning
    ensures d.stopLoss == StopLevel(d.signal, price, p.stopLossPct)
    ensures d.takeProfit == TargetLevel(d.signal, price, p.takeProfitPct)
  {
    var f := Fuse(p, m, mr, t, v);
    Decision(f.signal, f.confidence, f.positionSize,
             StopLevel(f.signal, price, p.stopLossPct),
             TargetLevel(f.signal, price, p.takeProfitPct),
             f.reasoning)
  }

  /** `_combine_signals` as written: the protective levels read a name that
      is not defined in the method, so any Buy or Sell raises NameError;
      only Hold decisions are returned. */
  function CombineAsWritten(p: Params, m: Opinion, mr: Opinion, t: Opinion, v: Opinion): (r: Result<Decision>)
    ensures r.Err? <==> Fuse(p, m, mr, t, v).signal != Hold
    ensures r.Err? ==> r.error == NameError("current_price")
    ensures r.Ok? ==> r.value.signal == Hold && r.value.stopLoss.None? && r.value.takeProfit.None?
  {
    var f := Fuse(p, m, mr, t, v);
    if f.signal != Hold then Err(NameError("current_price"))
    else Ok(Decision(Hold, f.confidence, f.positionSize, None, None, f.reasoning))
  }

  /** With the default weights and confidences in [0, 1], no single
      directional generator can push a side over the 0.6 gate, even with the
      full volume boost: a trade needs two generators agreeing. */
  lemma TradeNeedsTwoAgreeing(m: Opinion, mr: Opinion, t: Opinion, v: Opinion)
    requires 0.0 <= m.confidence <= 1.0 && 0.0 <= mr.confidence <= 1.0
    requires 0.0 <= t.confidence <= 1.0 && 0.0 <= v.confidence <= 1.0
    ensures Fuse(Defaults, m, mr, t, v).signal == Buy ==>
      (m.signal == Buy && mr.signal == Buy) || (m.signal == Buy && t.signal == Buy) || (mr.signal == Buy && t.signal == Buy)
    ensures Fuse(Defaults, m, mr, t, v).signal == Sell ==>
      (m.signal == Sell && mr.signal == Sell) || (m.signal == Sell && t.signal == Sell) || (mr.signal == Sell && t.signal == Sell)
  {
    var sc := FusedScores(Defaults, m, mr, t, v);
    var d := DirectionalScores(Defaults, m, mr, t);
    assert v.confidence * 0.2 <= 0.2;
    assert m.confidence * 0.3 <= 0.3 && mr.confidence * 0.3 <= 0.3 && t.confidence * 0.2 <= 0.2;
  }

  // ---------------------------------------------------------------------
  // Signal generation for one symbol
  // ---------------------------------------------------------------------

  /** The four generator opinions for a snapshot and the current price. */
  function Opinions(p: Params, s: Snapshot, price: real, fmt: real -> string): (r: seq<Opinion>)
    ensures |r| == 4 && r[3].signal == Hold
  {
    [Momentum(p, s, fmt), MeanReversion(p, s, price), Trend(p, s, price), Volume(p, s, fmt)]
  }

  /** `generate_signals` with the fusion price supplied: at most one signal,
      present exactly when the fused decision is not Hold. */
  function GenerateSignals(p: Params, s: Snapshot, price: real, fmt: real -> string): (r: seq<Decision>)
    ensures |r| <= 1
    ensures var o := Opinions(p, s, price, fmt);
      r == [] <==> Fuse(p, o[0], o[1], o[2], o[3]).signal == Hold
    ensures r != [] ==> r[0].signal != Hold && r[0].stopLoss.Some? && r[0].takeProfit.Some?
  {
    var o := Opinions(p, s, price, fmt);
    var d := Combine(p, o[0], o[1], o[2], o[3], price);
    if d.signal != Hold then [d] else []
  }

  /** `generate_signals` as written: the NameError from the fusion is caught
      and turned into an empty list, and a Hold is never emitted. */
  function GenerateSignalsAsWritten(p: Params, s: Snapshot, price: real, fmt: real -> string): seq<Decision>
  {
    var o := Opinions(p, s, price, fmt);
    var r := CombineAsWritten(p, o[0], o[1], o[2], o[3]);
    if r.Err? || r.value.signal == Hold then [] else [r.value]
  }

  /** As written, the live strategy never produces a trading signal. */
  lemma AsWrittenNeverSignals(p: Params, s: Snapshot, price: real, fmt: real -> string)
    ensures GenerateSignalsAsWritten(p, s, price, fmt) == []
  {
  }

  /** A snapshot on which the corrected pipeline buys while the as-written
      one raises: oversold RSI with a bullish MACD crossover and strong
      momentum, price below the lower band, and price above both EMAs in an
      uptrend. */
  lemma AsWrittenLosesBuy()
    ensures var s := Snapshot(Some(25.0), Some(2.0), Some(1.0), Some(1.0), Some(110.0), Some(100.0),
                              Some(105.0), Some(0.05), Some(95.0), Some(90.0), Some(1.0),
                              Some(0.03), None, None, None);
            var fmt := (x: real) => "";
            var o := Opinions(Defaults, s, 99.0, fmt);
            GenerateSignals(Defaults, s, 99.0, fmt) != [] &&
            GenerateSignals(Defaults, s, 99.0, fmt)[0].signal == Buy &&
            CombineAsWritten(Defaults, o[0], o[1], o[2], o[3]) == Err(NameError("current_price"))
  {
    var s := Snapshot(Some(25.0), Some(2.0), Some(1.0), Some(1.0), Some(110.0), Some(100.0),
                      Some(105.0), Some(0.05), Some(95.0), Some(90.0), Some(1.0),
                      Some(0.03), None, None, None);
    var fmt := (x: real) => "";
    var o := Opinions(Defaults, s, 99.0, fmt);
    assert o[0].signal == Buy && o[0].confidence == 1.0;
    assert BandPosition(s, 99.0) == Exact(-0.1);
    assert o[1].signal == Buy && o[1].confidence == 0.6;
    assert o[2].signal == Buy && o[2].confidence == 0.8;
  }

  // ---------------------------------------------------------------------
  // The live position book
  // ---------------------------------------------------------------------

  /** A signal handed to execution: the fused decision for a symbol, the
      price it was computed at and its creation time. */
  datatype TradeSignal = TradeSignal(symbol: string, decision: Decision, entryPrice: real, timestamp: int)

  /** An entry of `current_positions`. */
  datatype Position = Position(
    side: Side,
    quantity: real,
    entryPrice: real,
    stopLoss: Option<real>,
    takeProfit: Option<real>,
    timestamp: int,
    reasoning: string)

  /** An entry of `performance_history`. */
  datatype ClosedTrade = ClosedTrade(
    symbol: string,
    side: Side,
    entryPrice: real,
    exitPrice: real,
    quantity: real,
    pnl: real,
    reason: ExitCause,
    reasoning: string)

  /** The order quantity: the balance share divided by the entry price,
      rounded (half to even) to a whole number of lot steps. A zero entry
      price or step raises ZeroDivisionError. */
  function OrderQuantity(balance: real, size: real, entryPrice: real, stepSize: real): (r: Result<real>)
    ensures r.Err? <==> entryPrice == 0.0 || stepSize == 0.0
    ensures r.Err? ==> r.error == ZeroDivision
    ensures r.Ok? ==>
      -Abs(stepSize) / 2.0 <= r.value - balance * size / entryPrice <= Abs(stepSize) / 2.0
  {
    if entryPrice == 0.0 || stepSize == 0.0 then Err(ZeroDivision)
    else
      var raw := balance * size / entryPrice;
      var k := RoundHalfEven(raw / stepSize);
      QuantityBound(raw, stepSize, k);
      Ok((k as real) * stepSize)
  }

  /** Rounding to a whole number of steps moves the quantity by at most
      half a step. */
  lemma QuantityBound(raw: real, step: real, k: int)
    requires step != 0.0 && -0.5 <= (k as real) - raw / step <= 0.5
    ensures -Abs(step) / 2.0 <= (k as real) * step - raw <= Abs(step) / 2.0
  {
    var y := raw / step;
    var e := (k as real) - y;
    assert raw == y * step;
    assert (k as real) * step - raw == e * step;
    var a := Abs(step);
    ScaleMonotone(e, 0.5, a);
    ScaleMonotone(-0.5, e, a);
    assert -a / 2.0 <= e * a <= a / 2.0;
    if step < 0.0 {
      assert a == -step;
      assert e * step == -(e * a) by { assert e * (-step) == -(e * step); }
    }
  }

  function Opened(sig: TradeSignal, quantity: real): Position
  {
    Position(SideOf(sig.decision.signal), quantity, sig.entryPrice, sig.decision.stopLoss,
             sig.decision.takeProfit, sig.timestamp, sig.decision.reasoning)
  }

  /** The ledger record of closing `pos` at `exitPrice`. */
  function Closing(symbol: string, pos: Position, exitPrice: real, reason: ExitCause): (t: ClosedTrade)
    ensures t.pnl == Pnl(pos.side, pos.entryPrice, exitPrice, pos.quantity)
    ensures t.symbol == symbol && t.side == pos.side && t.quantity == pos.quantity
  {
    ClosedTrade(symbol, pos.side, pos.entryPrice, exitPrice, pos.quantity,
                Pnl(pos.side, pos.entryPrice, exitPrice, pos.quantity), reason, pos.reasoning)
  }

  function Keys(plan: seq<(string, ExitCause)>): (r: seq<string>)
    ensures |r| == |plan| && forall k :: 0 <= k < |r| ==> r[k] == plan[k].0
  {
    seq(|plan|, k requires 0 <= k < |plan| => plan[k].0)
  }

  /** The positions `monitor_positions` decides to close, in dict order,
      each with the first exit rule that fires for it. */
  function ExitPlan(syms: seq<string>, positions: map<string, Position>,
                    quote: string -> real, exitSignal: string -> Option<Opinion>): (plan: seq<(string, ExitCause)>)
    requires forall s :: s in syms ==> s in positions
    ensures forall k :: 0 <= k < |plan| ==> plan[k].0 in syms
  {
    if syms == [] then []
    else
      var s := syms[|syms| - 1];
      var rest := ExitPlan(syms[..|syms| - 1], positions, quote, exitSignal);
      var pos := positions[s];
      var why := ExitReason(pos.side, pos.stopLoss, pos.takeProfit, quote(s), exitSignal(s));
      if why.None? then rest else rest + [(s, why.value)]
  }

  /** A position is in the plan exactly when one of its exit rules fires,
      and no symbol is planned twice. */
  lemma {:induction false} ExitPlanExact(syms: seq<string>, positions: map<string, Position>,
                                         quote: string -> real, exitSignal: string -> Option<Opinion>)
    requires Distinct(syms)
    requires forall s :: s in syms ==> s in positions
    ensures var plan := ExitPlan(syms, positions, quote, exitSignal);
      Distinct(Keys(plan)) &&
      forall s :: s in syms ==>
        (s in Keys(plan) <==>
          ExitReason(positions[s].side, positions[s].stopLoss, positions[s].takeProfit, quote(s), exitSignal(s)).Some?)
  {
    if syms != [] {
      var s := syms[|syms| - 1];
      var init := syms[..|syms| - 1];
      ExitPlanExact(init, positions, quote, exitSignal);
      var rest := ExitPlan(init, positions, quote, exitSignal);
      var why := ExitReason(positions[s].side, positions[s].stopLoss, positions[s].takeProfit, quote(s), exitSignal(s));
      assert s !in init;
      assert forall t :: t in syms && t != s ==> t in init;
      assert forall t :: t in Keys(rest) ==> t in init;
      if why.Some? {
        assert Keys(rest + [(s, why.value)]) == Keys(rest) + [s];
      }
    }
  }

  lemma ExitPlanStep(syms: seq<string>, s: string, positions: map<string, Position>,
                     quote: string -> real, exitSignal: string -> Option<Opinion>)
    requires forall t :: t in syms + [s] ==> t in positions
    ensures var why := ExitReason(positions[s].side, positions[s].stopLoss, positions[s].takeProfit, quote(s), exitSignal(s));
      ExitPlan(syms + [s], positions, quote, exitSignal) ==
      ExitPlan(syms, positions, quote, exitSignal) + (if why.Some? then [(s, why.value)] else [])
  {
    assert (syms + [s])[..|syms|] == syms;
  }

  function KeySet(plan: seq<(string, ExitCause)>): set<string>
  {
    set k | 0 <= k < |plan| :: plan[k].0
  }

  /** The ledger records appended when the plan is carried out. */
  function Closings(plan: seq<(string, ExitCause)>, positions: map<string, Position>,
                    fill: string -> real): (r: seq<ClosedTrade>)
    requires forall k :: 0 <= k < |plan| ==> plan[k].0 in positions
    ensures |r| == |plan|
    ensures forall k :: 0 <= k < |r| ==> r[k] == Closing(plan[k].0, positions[plan[k].0], fill(plan[k].0), plan[k].1)
  {
    seq(|plan|, k requires 0 <= k < |plan| => Closing(plan[k].0, positions[plan[k].0], fill(plan[k].0), plan[k].1))
  }

  /** Closing the plan's entries one after another: the next symbol is
      still open with its original position, and closing it extends the
      closed set, the dropped keys and the ledger by that one entry. */
  lemma CloseStep(plan: seq<(string, ExitCause)>, j: int, positions: map<string, Position>,
                  order: seq<string>, fill: string -> real)
    requires 0 <= j < |plan| && Distinct(Keys(plan))
    requires forall k :: 0 <= k < |plan| ==> plan[k].0 in positions
    ensures var sym, done := plan[j].0, KeySet(plan[..j]);
      sym in positions - done && (positions - done)[sym] == positions[sym] &&
      (positions - done) - {sym} == positions - KeySet(plan[..j + 1]) &&
      Drop(Drop(order, done), {sym}) == Drop(order, KeySet(plan[..j + 1])) &&
      Closings(plan[..j + 1], positions, fill) ==
        Closings(plan[..j], positions, fill) + [Closing(sym, positions[sym], fill(sym), plan[j].1)]
  {
    var keys := Keys(plan);
    var sym := plan[j].0;
    forall k | 0 <= k < j ensures plan[k].0 != sym {
      assert keys[k] == plan[k].0 && keys[j] == sym;
    }
    assert plan[..j + 1] == plan[..j] + [plan[j]];
    assert KeySet(plan[..j + 1]) == KeySet(plan[..j]) + {sym};
    DropTwice(order, KeySet(plan[..j]), {sym});
  }

  /** The strategy's open positions (a dict keyed by symbol, iterated in
      insertion order) and its closed-trade history. */
  class PositionBook {
    var positions: map<string, Position>
    /** The keys of `positions` in insertion order. */
    var order: seq<string>
    var history: seq<ClosedTrade>

    ghost predicate Valid()
      reads this
    {
      Distinct(order) && forall s :: s in positions <==> s in order
    }

    constructor()
      ensures Valid() && positions == map[] && order == [] && history == []
    {
      positions := map[];
      order := [];
      history := [];
    }

    /** `execute_signal`: refuses a second position for a symbol, refuses a
        quantity that rounds to nothing, and treats a division by zero as a
        failed execution; otherwise places the order and records the new
        position. Balance and lot step are the exchange's answers;
        `orderPlaced` says whether the exchange accepted the order and
        `recorded` whether the database writes that follow succeeded. A
        failed write still reports failure, but the position stays. */
    method ExecuteSignal(sig: TradeSignal, balance: real, stepSize: real, orderPlaced: bool, recorded: bool)
      returns (ok: bool)
      requires Valid()
      modifies this
      ensures Valid()
      ensures history == old(history)
      ensures sig.symbol in old(positions) ==> !ok
      ensures var q := OrderQuantity(balance, sig.decision.positionSize, sig.entryPrice, stepSize);
        var placed := sig.symbol !in old(positions) && q.Ok? && q.value > 0.0 && orderPlaced;
        (ok <==> placed && recorded) &&
        (placed ==>
          positions == old(positions)[sig.symbol := Opened(sig, q.value)] &&
          order == old(order) + [sig.symbol]) &&
        (!placed ==> positions == old(positions) && order == old(order))
    {
      if sig.symbol in positions {
        return false;
      }
      var q := OrderQuantity(balance, sig.decision.positionSize, sig.entryPrice, stepSize);
      if q.Err? {
        return false;
      }
      if q.value <= 0.0 {
        return false;
      }
      if !orderPlaced {
        return false;
      }
      positions := positions[sig.symbol := Opened(sig, q.value)];
      order := order + [sig.symbol];
      ok := recorded;
    }

    /** `_close_position`: records the trade at `exitPrice` and forgets the
        position; an unknown symbol (KeyError, caught) changes nothing. */
    method ClosePosition(symbol: string, reason: ExitCause, exitPrice: real)
      requires Valid()
      modifies this
      ensures Valid()
      ensures symbol !in old(positions) ==>
        positions == old(positions) && order == old(order) && history == old(history)
      ensures symbol in old(positions) ==>
        history == old(history) + [Closing(symbol, old(positions)[symbol], exitPrice, reason)] &&
        positions == old(positions) - {symbol} &&
        order == Drop(old(order), {symbol})
    {
      if symbol !in positions {
        return;
      }
      var pos := positions[symbol];
      history := history + [Closing(symbol, pos, exitPrice, reason)];
      positions := positions - {symbol};
      order := Drop(order, {symbol});
    }

    /** The deciding pass of `monitor_positions`: walks the positions in
        dict order and collects those with an exit rule that fires. */
    method PlanExits(quote: string -> real, exitSignal: string -> Option<Opinion>)
      returns (toClose: seq<(string, ExitCause)>)
      requires Valid()
      ensures toClose == ExitPlan(order, positions, quote, exitSignal)
    {
      toClose := [];
      var i := 0;
      while i < |order|
        invariant 0 <= i <= |order|
        invariant toClose == ExitPlan(order[..i], positions, quote, exitSignal)
      {
        var sym := order[i];
        assert order[..i + 1] == order[..i] + [sym];
        ExitPlanStep(order[..i], sym, positions, quote, exitSignal);
        var pos := positions[sym];
        var why := ExitReason(pos.side, pos.stopLoss, pos.takeProfit, quote(sym), exitSignal(sym));
        if why.Some? {
          toClose := toClose + [(sym, why.value)];
        }
        i := i + 1;
      }
      assert order[..|order|] == order;
    }

    /** The closing pass of `monitor_positions`: closes the planned
        positions one after another at their fill prices. */
    method CloseAll(plan: seq<(string, ExitCause)>, fill: string -> real)
      requires Valid() && Distinct(Keys(plan))
      requires forall k :: 0 <= k < |plan| ==> plan[k].0 in positions
      modifies this
      ensures Valid()
      ensures history == old(history) + Closings(plan, old(positions), fill)
      ensures positions == old(positions) - KeySet(plan)
      ensures order == Drop(old(order), KeySet(plan))
    {
      assert KeySet(plan[..0]) == {};
      DropNothing(order);
      var j := 0;
      while j < |plan|
        invariant 0 <= j <= |plan|
        invariant Valid()
        invariant positions == old(positions) - KeySet(plan[..j])
        invariant order == Drop(old(order), KeySet(plan[..j]))
        invariant history == old(history) + Closings(plan[..j], old(positions), fill)
      {
        var sym := plan[j].0;
        CloseStep(plan, j, old(positions), old(order), fill);
        ClosePosition(sym, plan[j].1, fill(sym));
        j := j + 1;
      }
      assert plan[..|plan|] == plan;
    }

    /** `monitor_positions`: first decides, position by position in dict
        order, which ones to close (stop-loss, then take-profit, then an
        opposing signal), then closes them in that order. `quote` is the
        price seen while deciding, `fill` the price fetched when closing and
        `exitSignal` the signal `generate_signals` would return. */
    method MonitorPositions(quote: string -> real, fill: string -> real,
                            exitSignal: string -> Option<Opinion>)
      requires Valid()
      modifies this
      ensures Valid()
      ensures var plan := ExitPlan(old(order), old(positions), quote, exitSignal);
        history == old(history) + Closings(plan, old(positions), fill) &&
        positions == old(positions) - KeySet(plan) &&
        order == Drop(old(order), KeySet(plan))
    {
      var toClose := PlanExits(quote, exitSignal);
      ExitPlanExact(order, positions, quote, exitSignal);
      CloseAll(toClose, fill);
    }
  }

  // ---------------------------------------------------------------------
  // Performance summary
  // ---------------------------------------------------------------------

  function TradePnls(history: seq<ClosedTrade>): (r: seq<real>)
    ensures |r| == |history| && forall k :: 0 <= k < |r| ==> r[k] == history[k].pnl
  {
    seq(|history|, k requires 0 <= k < |history| => history[k].pnl)
  }

  /** `get_performance_summary`: only three figures for an empty history. */
  datatype Summary =
    | Brief(totalTrades: nat, totalPnl: real, winRate: real)
    | Full(totalTrades: nat, totalPnl: real, winRate: real, avgWin: real, avgLoss: real,
           profitFactor: ProfitFactor, currentPositions: nat)

  function PerformanceSummary(history: seq<ClosedTrade>, openPositions: nat): (r: Summary)
    ensures history == [] <==> r.Brief?
    ensures r.Brief? ==> r == Brief(0, 0.0, 0.0)
    ensures r.Full? ==> r.totalTrades == |history| > 0 && r.currentPositions == openPositions
    ensures 0.0 <= r.winRate <= 100.0
    ensures r.Full? ==> r.avgWin >= 0.0 && r.avgLoss <= 0.0
    ensures r.Full? ==> (r.profitFactor == Infinite <==> forall k :: 0 <= k < |history| ==> history[k].pnl >= 0.0)
    ensures r.Full? ==>
      var xs := TradePnls(history);
      r.totalPnl == Sum(xs) && r.winRate == Ledger.WinRate(xs) &&
      r.avgWin == Ledger.MeanWin(xs) && r.avgLoss == Ledger.MeanLoss(xs)
    ensures r.Full? && r.avgLoss != 0.0 ==> r.profitFactor == Finite(Abs(r.avgWin / r.avgLoss))
  {
    if history == [] then Brief(0, 0.0, 0.0)
    else
      var xs := TradePnls(history);
      var avgWin, avgLoss := Ledger.MeanWin(xs), Ledger.MeanLoss(xs);
      Ledger.LossesZeroIffNoNegative(xs);
      Full(|history|, Sum(xs), Ledger.WinRate(xs), avgWin, avgLoss,
           if avgLoss != 0.0 then Finite(Abs(avgWin / avgLoss)) else Infinite,
           openPositions)
  }

  /** The summary's profit factor is the mean win over the size of the mean
      loss: it exceeds 1 exactly when the average winner is larger than the
      average loser. */
  lemma SummaryFactorAboveOne(history: seq<ClosedTrade>, openPositions: nat)
    requires PerformanceSummary(history, openPositions).Full?
    requires PerformanceSummary(history, openPositions).profitFactor.Finite?
    ensures var r := PerformanceSummary(history, openPositions);
      r.profitFactor.value * -r.avgLoss == r.avgWin &&
      (r.profitFactor.value > 1.0 <==> r.avgWin > -r.avgLoss)
  {
    var r := PerformanceSummary(history, openPositions);
    assert r.avgLoss < 0.0;
    NegatedRatio(r.avgWin, r.avgLoss);
  }
}
