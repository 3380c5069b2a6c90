/** The alternative evolving strategy: the original's four generators
    without the confidence cap, each firing above 0.6, a trend generator
    that sells whenever it fires without a confirmed uptrend, and the vote
    fusion with a 0.6 gate. */
module AlternativeStrategy {
  import opened Common
  import opened Signals
  import opened VoteFusion

  /** The fields of this variant's `StrategyParameters` the rules read. */
  datatype Params = Params(
    rsiOversold: real,
    rsiOverbought: real,
    maxPositionSize: real,
    stopLossPct: real,
    takeProfitPct: real,
    minSignalConfidence: real)

  const Defaults := Params(30.0, 70.0, 0.1, 0.02, 0.04, 0.6)

  /** The original momentum rules, uncapped, with a "; " rationale. */
  function Momentum(p: Params, s: Snapshot, fmt: real -> string): (r: Opinion)
    ensures s.rsi.None? ==> r == Undecided
    ensures 0.0 <= r.confidence <= 1.0
    ensures r.signal != Hold <==> r.confidence > 0.6
    ensures r.signal == Buy <==> r.confidence > 0.6 && (Below(s.rsi, p.rsiOversold) || MacdAbove(s))
    ensures s.rsi.Some? ==> r.reasoning != ""
  {
    if s.rsi.None? then Undecided
    else
      var rsi := s.rsi.value;
      var t1 :=
        if rsi < p.rsiOversold then Add(NoTally, 0.3, "RSI oversold (" + fmt(rsi) + ")")
        else if rsi > p.rsiOverbought then Add(NoTally, 0.3, "RSI overbought (" + fmt(rsi) + ")")
        else NoTally;
      var t2 :=
        if s.macd.None? || s.macdSignal.None? then t1
        else if s.macd.value > s.macdSignal.value && Above(s.macdHistogram, 0.0) then Add(t1, 0.4, "MACD bullish crossover")
        else if s.macd.value < s.macdSignal.value && Below(s.macdHistogram, 0.0) then Add(t1, 0.4, "MACD bearish crossover")
        else t1;
      var t3 :=
        if Above(s.momentum5, 0.02) then Add(t2, 0.3, "Strong 5-period momentum")
        else if Below(s.momentum5, -0.02) then Add(t2, 0.3, "Strong 5-period negative momentum")
        else t2;
      var signal :=
        if t3.confidence > 0.6 then (if rsi < p.rsiOversold || MacdAbove(s) then Buy else Sell)
        else Hold;
      Opinion(signal, t3.confidence, Rationale(t3.parts, "No momentum signals"))
  }

  /** Outer-fifth band positions with RSI confirmation: it fires only with
      both a band extreme and a confirming RSI. */
  function MeanReversion(p: Params, s: Snapshot, price: real): (r: Opinion)
    ensures s.bbUpper.None? || s.bbLower.None? ==> r == Undecided
    ensures 0.0 <= r.confidence <= 0.8
    ensures r.signal != Hold <==> r.confidence > 0.6
    ensures r.signal == Buy <==> r.confidence > 0.6 && QLess(BandPosition(s, price), 0.2)
    ensures r.signal == Buy ==> Below(s.rsi, 40.0)
    ensures r.signal == Sell ==> Above(s.rsi, 60.0) && QGreater(BandPosition(s, price), 0.8)
  {
    if s.bbUpper.None? || s.bbLower.None? then Undecided
    else
      var pos := BandPosition(s, price);
      var t1 :=
        if QLess(pos, 0.2) then Add(NoTally, 0.5, "Price near lower Bollinger Band")
        else if QGreater(pos, 0.8) then Add(NoTally, 0.5, "Price near upper Bollinger Band")
        else NoTally;
      var t2 :=
        if s.rsi.None? then t1
        else if QLess(pos, 0.2) && s.rsi.value < 40.0 then Add(t1, 0.3, "RSI confirms oversold")
        else if QGreater(pos, 0.8) && s.rsi.value > 60.0 then Add(t1, 0.3, "RSI confirms overbought")
        else t1;
      var signal :=
        if t2.confidence > 0.6 then (if QLess(pos, 0.2) then Buy else Sell) else Hold;
      Opinion(signal, t2.confidence, Rationale(t2.parts, "No mean reversion signals"))
  }

  /** Fires only when the price is beyond both EMAs on the trend's side;
      then Buy for a confirmed uptrend and Sell otherwise (no Hold branch). */
  function Trend(p: Params, s: Snapshot, price: real): (r: Opinion)
    ensures s.emaFast.None? || s.emaSlow.None? ==> r == Undecided
    ensures 0.0 <= r.confidence <= 0.7
    ensures r.signal != Hold <==> r.confidence > 0.6
    ensures r.signal == Buy <==> s.emaFast.Some? && s.emaSlow.Some? && price > s.emaFast.value > s.emaSlow.value
    ensures r.signal == Sell <==> s.emaFast.Some? && s.emaSlow.Some? && price < s.emaFast.value < s.emaSlow.value
  {
    if s.emaFast.None? || s.emaSlow.None? then Undecided
    else
      var fast, slow := s.emaFast.value, s.emaSlow.value;
      var t1 :=
        if fast > slow then Add(NoTally, 0.4, "EMA fast above slow (bullish)")
        else Add(NoTally, 0.4, "EMA fast below slow (bearish)");
      var t2 :=
        if price > fast > slow then Add(t1, 0.3, "Price above both EMAs")
        else if price < fast < slow then Add(t1, 0.3, "Price below both EMAs")
        else t1;
      var signal :=
        if t2.confidence > 0.6 then (if fast > slow && price > fast then Buy else Sell) else Hold;
      Opinion(signal, t2.confidence, Rationale(t2.parts, "No trend signals"))
  }

  /** Volume level: never a direction. */
  function Volume(p: Params, s: Snapshot, fmt: real -> string): (r: Opinion)
    ensures r.signal == Hold
    ensures s.volumeRatio.None? ==> r == Undecided
    ensures 0.0 <= r.confidence <= 0.7
    ensures r.confidence == 0.0 <==> s.volumeRatio.None? || 0.5 <= s.volumeRatio.value <= 1.5
  {
    if s.volumeRatio.None? then Undecided
    else
      var vr := s.volumeRatio.value;
      var t1 :=
        if vr > 1.5 then Add(NoTally, 0.4, "High volume (" + fmt(vr) + "x average)")
        else if vr < 0.5 then Add(NoTally, 0.2, "Low volume (" + fmt(vr) + "x average)")
        else NoTally;
      var t2 := if vr > 2.0 then Add(t1, 0.3, "Very high volume - potential breakout") else t1;
      Opinion(Hold, t2.confidence, Rationale(t2.parts, "No volume signals"))
  }

  /** The four opinions in loop order with their fixed weights. */
  function Ballots(m: Opinion, mr: Opinion, t: Opinion, v: Opinion): (b: seq<Ballot>)
    ensures |b| == 4
  {
    [Ballot("Momentum", m, 0.3), Ballot("Mean_Reversion", mr, 0.25), Ballot("Trend", t, 0.3),
     Ballot("Volume", v, 0.15)]
  }

  function Settings(p: Params): FusionParams
  {
    FusionParams(p.minSignalConfidence, p.maxPositionSize, p.stopLossPct, p.takeProfitPct)
  }

  /** `_combine_signals` with the entry price supplied. */
  function Combine(p: Params, m: Opinion, mr: Opinion, t: Opinion, v: Opinion, price: real): (d: Decision)
    ensures var vt := TallyOf(Ballots(m, mr, t, v));
      (d.signal == Hold <==> vt.total < p.minSignalConfidence) &&
      (d.signal == Buy <==> vt.total >= p.minSignalConfidence && vt.buy > vt.sell) &&
      d.confidence == vt.total == vt.buy + vt.sell
    ensures p.maxPositionSize >= 0.0 ==> d.positionSize <= p.maxPositionSize
    ensures d.stopLoss == StopLevel(d.signal, price, p.stopLossPct)
    ensures d.takeProfit == TargetLevel(d.signal, price, p.takeProfitPct)
  {
    TallyAccounts(Ballots(m, mr, t, v));
    VoteFusion.Fuse(Settings(p), Ballots(m, mr, t, v), price)
  }

  /** `_combine_signals` as written: a Buy or Sell raises NameError on the
      undefined entry price, so only Hold decisions come back. */
  function CombineAsWritten(p: Params, m: Opinion, mr: Opinion, t: Opinion, v: Opinion): (r: Result<Decision>)
    ensures r.Err? <==> Combine(p, m, mr, t, v, 0.0).signal != Hold
    ensures r.Ok? ==> r.value.signal == Hold
  {
    FuseAsWritten(Settings(p), Ballots(m, mr, t, v))
  }

  /** With the default 0.6 gate a trade needs all three directional
      generators to vote: a voting momentum weighs at most 0.3, a voting mean
      reversion exactly 0.2 and a voting trend exactly 0.21, and the volume
      generator never votes, so any two reach at most 0.51. The bounds
      required here are the generators' own. */
  lemma TradeNeedsThreeVoters(m: Opinion, mr: Opinion, t: Opinion, v: Opinion, price: real)
    requires 0.0 <= m.confidence <= 1.0 && 0.0 <= mr.confidence <= 0.8 && 0.0 <= t.confidence <= 0.7
    requires v.signal == Hold
    ensures Combine(Defaults, m, mr, t, v, price).signal != Hold ==>
      m.signal != Hold && mr.signal != Hold && t.signal != Hold
  {
    var b := Ballots(m, mr, t, v);
    TallyAccounts(b);
    assert b[..3][..2] == b[..2] && b[..2][..1] == b[..1] && b[..1][..0] == [] && b[..4] == b;
    assert SumWeighted(b[..1]) == Weighted(b[0]);
    assert SumWeighted(b[..2]) == SumWeighted(b[..1]) + Weighted(b[1]);
    assert SumWeighted(b[..3]) == SumWeighted(b[..2]) + Weighted(b[2]);
    assert SumWeighted(b) == SumWeighted(b[..3]) + Weighted(b[3]);
  }
}
