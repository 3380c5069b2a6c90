/** The optimized strategy: five more sensitive generators whose confidences
    are not capped, each firing above a common individual threshold, and the
    vote fusion with a 0.3 gate. */
module OptimizedStrategy {
  import opened Common
  import opened Signals
  import opened VoteFusion

  /** The fields of `OptimizedStrategyParameters` the decision rules read. */
  datatype Params = Params(
    rsiOversold: real,
    rsiOverbought: real,
    maxPositionSize: real,
    stopLossPct: real,
    takeProfitPct: real,
    minSignalConfidence: real,
    minIndividualConfidence: real)

  const Defaults := Params(35.0, 65.0, 0.1, 0.015, 0.03, 0.3, 0.2)

  /** RSI zones (extreme or mild), MACD side and 1% momentum. */
  function Momentum(p: Params, s: Snapshot, fmt: real -> string): (r: Opinion)
    ensures s.rsi.None? ==> r == Undecided
    ensures 0.0 <= r.confidence <= 0.9
    ensures s.rsi.Some? ==> (r.signal != Hold <==> r.confidence > p.minIndividualConfidence)
    ensures r.signal == Buy <==>
      s.rsi.Some? && r.confidence > p.minIndividualConfidence && (Below(s.rsi, p.rsiOversold) || MacdAbove(s))
    ensures s.rsi.Some? ==> r.reasoning != ""
  {
    if s.rsi.None? then Undecided
    else
      var rsi := s.rsi.value;
      var t1 :=
        if rsi < p.rsiOversold then Add(NoTally, 0.4, "RSI oversold (" + fmt(rsi) + ")")
        else if rsi > p.rsiOverbought then Add(NoTally, 0.4, "RSI overbought (" + fmt(rsi) + ")")
        else if rsi < 45.0 then Add(NoTally, 0.2, "RSI below 45 (" + fmt(rsi) + ")")
        else if rsi > 55.0 then Add(NoTally, 0.2, "RSI above 55 (" + fmt(rsi) + ")")
        else NoTally;
      var t2 :=
        if s.macd.None? || s.macdSignal.None? then t1
        else if s.macd.value > s.macdSignal.value then Add(t1, 0.3, "MACD bullish")
        else if s.macd.value < s.macdSignal.value then Add(t1, 0.3, "MACD bearish")
        else t1;
      var t3 :=
        if Above(s.momentum5, 0.01) then Add(t2, 0.2, "Positive momentum")
        else if Below(s.momentum5, -0.01) then Add(t2, 0.2, "Negative momentum")
        else t2;
      var signal :=
        if t3.confidence > p.minIndividualConfidence then
          (if rsi < p.rsiOversold || MacdAbove(s) then Buy else Sell)
        else Hold;
      Opinion(signal, t3.confidence, Rationale(t3.parts, "No momentum signals"))
  }

  /** Band position zones with RSI confirmation; only the two outer bands
      are required (the middle band is not read). */
  function MeanReversion(p: Params, s: Snapshot, price: real): (r: Opinion)
    ensures s.bbUpper.None? || s.bbLower.None? ==> r == Undecided
    ensures 0.0 <= r.confidence <= 0.7
    ensures s.bbUpper.Some? && s.bbLower.Some? ==> (r.signal != Hold <==> r.confidence > p.minIndividualConfidence)
    ensures r.signal == Buy <==>
      s.bbUpper.Some? && s.bbLower.Some? && r.confidence > p.minIndividualConfidence &&
      QLess(BandPosition(s, price), 0.4)
    ensures s.bbUpper.Some? && s.bbLower.Some? ==> r.reasoning != ""
  {
    if s.bbUpper.None? || s.bbLower.None? then Undecided
    else
      var pos := BandPosition(s, price);
      var t1 :=
        if QLess(pos, 0.3) then Add(NoTally, 0.4, "Price near lower Bollinger Band")
        else if QGreater(pos, 0.7) then Add(NoTally, 0.4, "Price near upper Bollinger Band")
        else if QLess(pos, 0.4) then Add(NoTally, 0.2, "Price below BB middle")
        else if QGreater(pos, 0.6) then Add(NoTally, 0.2, "Price above BB middle")
        else NoTally;
      var t2 :=
        if s.rsi.None? then t1
        else if QLess(pos, 0.3) && s.rsi.value < 45.0 then Add(t1, 0.3, "RSI confirms oversold")
        else if QGreater(pos, 0.7) && s.rsi.value > 55.0 then Add(t1, 0.3, "RSI confirms overbought")
        else t1;
      var signal :=
        if t2.confidence > p.minIndividualConfidence then (if QLess(pos, 0.4) then Buy else Sell)
        else Hold;
      Opinion(signal, t2.confidence, Rationale(t2.parts, "No mean reversion signals"))
  }

  /** EMA side plus price relative to the EMAs. Its base confidence 0.4 is
      always earned, so with the default threshold it always fires once
      both EMAs are defined, and then it follows the EMA crossover. */
  function Trend(p: Params, s: Snapshot, price: real): (r: Opinion)
    ensures s.emaFast.None? || s.emaSlow.None? ==> r == Undecided
    ensures s.emaFast.Some? && s.emaSlow.Some? ==> 0.4 <= r.confidence <= 0.7
    ensures s.emaFast.Some? && s.emaSlow.Some? ==> (r.signal != Hold <==> r.confidence > p.minIndividualConfidence)
    ensures s.emaFast.Some? && s.emaSlow.Some? && p.minIndividualConfidence < 0.4 ==> r.signal != Hold
    ensures r.signal == Buy <==> r.signal != Hold && s.emaFast.value > s.emaSlow.value
  {
    if s.emaFast.None? || s.emaSlow.None? then Undecided
    else
      var fast, slow := s.emaFast.value, s.emaSlow.value;
      var t1 :=
        if fast > slow then Add(NoTally, 0.4, "EMA fast above slow (bullish)")
        else Add(NoTally, 0.4, "EMA fast below slow (bearish)");
      var t2 :=
        if price > fast > slow then Add(t1, 0.3, "Price above both EMAs")
        else if price < fast < slow then Add(t1, 0.3, "Price below both EMAs")
        else if price > fast then Add(t1, 0.2, "Price above fast EMA")
        else if price < fast then Add(t1, 0.2, "Price below fast EMA")
        else t1;
      var signal :=
        if t2.confidence > p.minIndividualConfidence then (if fast > slow then Buy else Sell)
        else Hold;
      Opinion(signal, t2.confidence, Rationale(t2.parts, "No trend signals"))
  }

  /** Volume level: never a direction. */
  function Volume(p: Params, s: Snapshot, fmt: real -> string): (r: Opinion)
    ensures r.signal == Hold
    ensures s.volumeRatio.None? ==> r == Undecided
    ensures 0.0 <= r.confidence <= 0.5
    ensures r.confidence == 0.0 <==> s.volumeRatio.None? || 0.8 <= s.volumeRatio.value <= 1.2
  {
    if s.volumeRatio.None? then Undecided
    else
      var vr := s.volumeRatio.value;
      var t1 :=
        if vr > 1.2 then Add(NoTally, 0.3, "High volume (" + fmt(vr) + "x average)")
        else if vr < 0.8 then Add(NoTally, 0.2, "Low volume (" + fmt(vr) + "x average)")
        else NoTally;
      var t2 := if vr > 1.5 then Add(t1, 0.2, "Very high volume") else t1;
      Opinion(Hold, t2.confidence, Rationale(t2.parts, "No volume signals"))
  }

  /** Stochastic %K/%D extremes with Williams %R confirmation. */
  function Stochastic(p: Params, s: Snapshot): (r: Opinion)
    ensures s.stochK.None? || s.stochD.None? ==> r == Undecided
    ensures 0.0 <= r.confidence <= 0.5
    ensures s.stochK.Some? && s.stochD.Some? ==> (r.signal != Hold <==> r.confidence > p.minIndividualConfidence)
    ensures r.signal == Buy <==>
      s.stochK.Some? && s.stochD.Some? && r.confidence > p.minIndividualConfidence && s.stochK.value < 30.0
  {
    if s.stochK.None? || s.stochD.None? then Undecided
    else
      var k, d := s.stochK.value, s.stochD.value;
      var t1 :=
        if k < 20.0 && d < 20.0 then Add(NoTally, 0.3, "Stochastic oversold")
        else if k > 80.0 && d > 80.0 then Add(NoTally, 0.3, "Stochastic overbought")
        else NoTally;
      var t2 :=
        if Below(s.williamsR, -80.0) then Add(t1, 0.2, "Williams %R oversold")
        else if Above(s.williamsR, -20.0) then Add(t1, 0.2, "Williams %R overbought")
        else t1;
      var signal :=
        if t2.confidence > p.minIndividualConfidence then (if k < 30.0 then Buy else Sell)
        else Hold;
      Opinion(signal, t2.confidence, Rationale(t2.parts, "No stochastic signals"))
  }

  /** The five opinions in loop order with their fixed weights. */
  function Ballots(m: Opinion, mr: Opinion, t: Opinion, v: Opinion, st: Opinion): (b: seq<Ballot>)
    ensures |b| == 5
  {
    [Ballot("Momentum", m, 0.25), Ballot("Mean_Reversion", mr, 0.2), Ballot("Trend", t, 0.25),
     Ballot("Volume", v, 0.15), Ballot("Stochastic", st, 0.15)]
  }

  function Settings(p: Params): FusionParams
  {
    FusionParams(p.minSignalConfidence, p.maxPositionSize, p.stopLossPct, p.takeProfitPct)
  }

  /** `_combine_signals` with the entry price supplied. */
  function Combine(p: Params, m: Opinion, mr: Opinion, t: Opinion, v: Opinion, st: Opinion, price: real): (d: Decision)
    ensures var vt := TallyOf(Ballots(m, mr, t, v, st));
      (d.signal == Hold <==> vt.total < p.minSignalConfidence) &&
      (d.signal == Buy <==> vt.total >= p.minSignalConfidence && vt.buy > vt.sell) &&
      d.confidence == vt.total == vt.buy + vt.sell
    ensures p.maxPositionSize >= 0.0 ==> d.positionSize <= p.maxPositionSize
    ensures d.stopLoss == StopLevel(d.signal, price, p.stopLossPct)
    ensures d.takeProfit == TargetLevel(d.signal, price, p.takeProfitPct)
  {
    TallyAccounts(Ballots(m, mr, t, v, st));
    VoteFusion.Fuse(Settings(p), Ballots(m, mr, t, v, st), price)
  }

  /** `_combine_signals` as written: a Buy or Sell raises NameError on the
      undefined entry price, so only Hold decisions come back. */
  function CombineAsWritten(p: Params, m: Opinion, mr: Opinion, t: Opinion, v: Opinion, st: Opinion): (r: Result<Decision>)
    ensures r.Err? <==> Combine(p, m, mr, t, v, st, 0.0).signal != Hold
    ensures r.Ok? ==> r.value.signal == Hold
  {
    FuseAsWritten(Settings(p), Ballots(m, mr, t, v, st))
  }

  /** The volume opinion, always Hold, never reaches the tally. */
  lemma VolumeNeverVotes(m: Opinion, mr: Opinion, t: Opinion, v: Opinion, v': Opinion, st: Opinion)
    requires v.signal == Hold && v'.signal == Hold
    ensures TallyOf(Ballots(m, mr, t, v, st)) == TallyOf(Ballots(m, mr, t, v', st))
  {
    var b, b' := Ballots(m, mr, t, v, st), Ballots(m, mr, t, v', st);
    assert b[..4][..3] == b'[..4][..3];
    assert TallyOf(b[..4]) == TallyOf(b'[..4]);
  }

  /** With the default settings no single generator can reach the 0.3 gate
      (the largest weighted confidence is 0.9 x 0.25), so a trade needs at
      least two generators voting. The bounds required here are the
      generators' own confidence bounds. */
  lemma TradeNeedsTwoVoters(m: Opinion, mr: Opinion, t: Opinion, v: Opinion, st: Opinion, price: real)
    requires 0.0 <= m.confidence <= 0.9 && 0.0 <= mr.confidence <= 0.7 && 0.0 <= t.confidence <= 0.7
    requires 0.0 <= v.confidence <= 0.5 && 0.0 <= st.confidence <= 0.5
    ensures Combine(Defaults, m, mr, t, v, st, price).signal != Hold ==> Voters(Ballots(m, mr, t, v, st)) >= 2
  {
    var b := Ballots(m, mr, t, v, st);
    TallyAccounts(b);
    assert forall k :: 0 <= k < |b| ==> Weighted(b[k]) <= 0.225;
    TotalAtMostVotersTimesCap(b, 0.225);
  }
}
