/** The market analyzer's decision rules over bars whose indicators are
    already computed: the regime classifier and its recommendations, the
    volume profile, the three-part sentiment score, support and resistance
    levels from the extremes of the last 50 bars, the pattern detectors and
    the per-symbol pattern database. */
module MarketAnalysis {
  import opened Common

  /** One row of the frame: prices and the volume ratio (None is NaN). */
  datatype Bar = Bar(high: real, low: real, close: real, volumeRatio: Option<real>)

  function Highs(bars: seq<Bar>): (r: seq<real>)
    ensures |r| == |bars| && forall k :: 0 <= k < |bars| ==> r[k] == bars[k].high
  {
    seq(|bars|, k requires 0 <= k < |bars| => bars[k].high)
  }

  function Lows(bars: seq<Bar>): (r: seq<real>)
    ensures |r| == |bars| && forall k :: 0 <= k < |bars| ==> r[k] == bars[k].low
  {
    seq(|bars|, k requires 0 <= k < |bars| => bars[k].low)
  }

  function Closes(bars: seq<Bar>): (r: seq<real>)
    ensures |r| == |bars| && forall k :: 0 <= k < |bars| ==> r[k] == bars[k].close
  {
    seq(|bars|, k requires 0 <= k < |bars| => bars[k].close)
  }

  // ---------------------------------------------------------------------
  // Regime
  // ---------------------------------------------------------------------

  datatype Regime = TrendingUp | TrendingDown | Ranging | HighVolatility | LowVolatility | BreakoutRegime | Reversal

  /** `abs(adx)`, or 0 when ADX is undefined. */
  function TrendStrength(adx: Option<real>): (r: real)
    ensures r >= 0.0
    ensures adx.None? ==> r == 0.0
  {
    if adx.Some? then Abs(adx.value) else 0.0
  }

  /** The first matching rule of `_detect_market_regime`, with its
      confidence; `volatility` is the mean volatility of the last 20 bars and
      `change` the 20-bar price change as a float64 quotient. */
  function RegimeOf(volatility: Option<real>, trendStrength: real, change: Quotient): (r: (Regime, real))
    ensures Above(volatility, 0.03) ==> r == (HighVolatility, 0.8)
    ensures !Above(volatility, 0.03) && Below(volatility, 0.01) ==> r == (LowVolatility, 0.7)
    ensures !Above(volatility, 0.03) && !Below(volatility, 0.01) ==>
      (r.0 == TrendingUp <==> trendStrength > 25.0 && QGreater(change, 0.05))
    ensures !Above(volatility, 0.03) && !Below(volatility, 0.01) ==>
      (r.0 == TrendingDown <==> trendStrength > 25.0 && !QGreater(change, 0.05) && QLess(change, -0.05))
    ensures r.0 == TrendingUp || r.0 == TrendingDown ==> r.1 == 0.8
    ensures r.0 == Ranging ==> (r.1 == 0.7 <==> change.Exact? && Abs(change.v) < 0.02)
    ensures r.0 == Ranging ==> (r.1 == 0.5 <==> !(change.Exact? && Abs(change.v) < 0.02))
    ensures r.0 != BreakoutRegime && r.0 != Reversal
  {
    if Above(volatility, 0.03) then (HighVolatility, 0.8)
    else if Below(volatility, 0.01) then (LowVolatility, 0.7)
    else if trendStrength > 25.0 && QGreater(change, 0.05) then (TrendingUp, 0.8)
    else if trendStrength > 25.0 && QLess(change, -0.05) then (TrendingDown, 0.8)
    else if change.Exact? && Abs(change.v) < 0.02 then (Ranging, 0.7)
    else (Ranging, 0.5)
  }

  /** A trend regime needs a strong trend and a 5% move in its direction. */
  lemma TrendNeedsStrengthAndMove(volatility: Option<real>, trendStrength: real, first: real, latest: real)
    requires first > 0.0
    ensures RegimeOf(volatility, trendStrength, NpDiv(latest - first, first)).0 == TrendingUp ==>
            trendStrength > 25.0 && latest > first * 1.05
    ensures RegimeOf(volatility, trendStrength, NpDiv(latest - first, first)).0 == TrendingDown ==>
            trendStrength > 25.0 && latest < first * 0.95
  {
    NpDivCompare(latest - first, first, 0.05);
    NpDivCompare(latest - first, first, -0.05);
  }

  /** "high" above an average volume ratio of 1.5, "normal" above 0.8,
      otherwise (also for NaN) "low". */
  function VolumeProfile(avgVolumeRatio: Option<real>): (r: string)
    ensures r == "high" <==> Above(avgVolumeRatio, 1.5)
    ensures r == "normal" <==> !Above(avgVolumeRatio, 1.5) && Above(avgVolumeRatio, 0.8)
    ensures r == "low" <==> !Above(avgVolumeRatio, 0.8)
  {
    if Above(avgVolumeRatio, 1.5) then "high"
    else if Above(avgVolumeRatio, 0.8) then "normal"
    else "low"
  }

  /** `_generate_regime_recommendations`: three fixed texts for each of the
      five regimes the classifier yields, none for the other two. */
  function Recommendations(regime: Regime): (r: seq<string>)
    ensures |r| == (if regime == BreakoutRegime || regime == Reversal then 0 else 3)
  {
    match regime
    case TrendingUp => TrendingUpAdvice
    case TrendingDown => TrendingDownAdvice
    case HighVolatility => HighVolatilityAdvice
    case LowVolatility => LowVolatilityAdvice
    case Ranging => RangingAdvice
    case _ => []
  }

  const TrendingUpAdvice: seq<string> := ["Follow the trend with momentum strategies",
    "Use pullbacks as entry opportunities", "Set wider stop losses to avoid whipsaws"]
  const TrendingDownAdvice: seq<string> := ["Consider short positions or avoid long positions",
    "Use rallies as exit opportunities", "Implement strict risk management"]
  const HighVolatilityAdvice: seq<string> := ["Reduce position sizes", "Use wider stop losses",
    "Consider volatility-based strategies"]
  const LowVolatilityAdvice: seq<string> := ["Prepare for potential breakout", "Use range-bound strategies",
    "Monitor for volatility expansion"]
  const RangingAdvice: seq<string> := ["Use mean reversion strategies", "Buy support, sell resistance",
    "Avoid trend-following strategies"]

  /** `MarketRegimeAnalysis`. */
  datatype RegimeAnalysis = RegimeAnalysis(
    regime: Regime,
    confidence: real,
    volatilityLevel: Option<real>,
    trendStrength: real,
    volumeProfile: string,
    levels: seq<real>,
    recommendations: seq<string>)

  /** `_detect_market_regime` over the last bars and the indicator
      aggregates computed outside (mean volatility and mean volume ratio of
      the last 20 bars, the latest ADX). */
  function DetectRegime(bars: seq<Bar>, volatility: Option<real>, adx: Option<real>,
                        avgVolumeRatio: Option<real>): (a: RegimeAnalysis)
    requires bars != []
    ensures var first := Last(bars, 20)[0].close;
      (a.regime, a.confidence) == RegimeOf(volatility, TrendStrength(adx), NpDiv(bars[|bars| - 1].close - first, first))
    ensures a.volatilityLevel == volatility && a.trendStrength == TrendStrength(adx)
    ensures a.recommendations == Recommendations(a.regime) && |a.recommendations| == 3
    ensures a.levels == SupportResistance(bars)
    ensures a.volumeProfile == VolumeProfile(avgVolumeRatio)
  {
    var first := Last(bars, 20)[0].close;
    var rc := RegimeOf(volatility, TrendStrength(adx), NpDiv(bars[|bars| - 1].close - first, first));
    RegimeAnalysis(rc.0, rc.1, volatility, TrendStrength(adx), VolumeProfile(avgVolumeRatio),
                   SupportResistance(bars), Recommendations(rc.0))
  }

  /** A detected trend is a strong one that moved more than 5% over the
      last 20 bars, in its direction. */
  lemma DetectedTrendMoved(bars: seq<Bar>, volatility: Option<real>, adx: Option<real>, avgVolumeRatio: Option<real>)
    requires bars != [] && Last(bars, 20)[0].close > 0.0
    ensures var a := DetectRegime(bars, volatility, adx, avgVolumeRatio);
      var first, latest := Last(bars, 20)[0].close, bars[|bars| - 1].close;
      (a.regime == TrendingUp ==> a.trendStrength > 25.0 && latest > first * 1.05) &&
      (a.regime == TrendingDown ==> a.trendStrength > 25.0 && latest < first * 0.95)
  {
    var first, latest := Last(bars, 20)[0].close, bars[|bars| - 1].close;
    var rc := RegimeOf(volatility, TrendStrength(adx), NpDiv(latest - first, first));
    TrendNeedsStrengthAndMove(volatility, TrendStrength(adx), first, latest);
    RegimeDetected(bars, volatility, adx, avgVolumeRatio);
  }

  lemma RegimeDetected(bars: seq<Bar>, volatility: Option<real>, adx: Option<real>, avgVolumeRatio: Option<real>)
    requires bars != []
    ensures var a := DetectRegime(bars, volatility, adx, avgVolumeRatio);
      var first := Last(bars, 20)[0].close;
      a.regime == RegimeOf(volatility, TrendStrength(adx), NpDiv(bars[|bars| - 1].close - first, first)).0 &&
      a.trendStrength == TrendStrength(adx)
  {
  }

  /** The analysis `_detect_market_regime` returns from its except branch. */
  const RegimeFallback := RegimeAnalysis(Ranging, 0.5, Some(0.02), 0.0, "normal", [], ["Monitor market conditions"])

  /** `_detect_market_regime` on the frame the indicator step leaves as
      written: that step asks the Bollinger band object for
      `bollinger_lower`, which it does not have, catches the AttributeError
      and returns the frame without the volatility, volume-ratio, ADX and
      later columns; the first lookup of `volatility` then raises KeyError
      and every call ends in the except branch. */
  function DetectRegimeAsWritten(bars: seq<Bar>): (a: RegimeAnalysis)
    ensures a.regime == Ranging && a.confidence == 0.5
    ensures a.volatilityLevel == Some(0.02) && a.trendStrength == 0.0 && a.volumeProfile == "normal"
    ensures a.levels == [] && a.recommendations == ["Monitor market conditions"]
  {
    RegimeFallback
  }

  /** A strong 10% rise over two bars is a rising trend for the regime rule,
      while the as-written analyzer reports a ranging market. */
  lemma AsWrittenMissesTrend()
    ensures var bars := [Bar(101.0, 99.0, 100.0, None), Bar(111.0, 109.0, 110.0, None)];
      DetectRegime(bars, Some(0.02), Some(30.0), None).regime == TrendingUp &&
      DetectRegimeAsWritten(bars).regime == Ranging
  {
    var bars := [Bar(101.0, 99.0, 100.0, None), Bar(111.0, 109.0, 110.0, None)];
    assert Last(bars, 20) == bars;
    assert NpDiv(110.0 - 100.0, 100.0) == Exact(0.1);
    RegimeDetected(bars, Some(0.02), Some(30.0), None);
  }

  // ---------------------------------------------------------------------
  // Sentiment
  // ---------------------------------------------------------------------

  datatype Mood = Bullish | Bearish | Neutral

  /** +1, -1 or 0 towards the sentiment score. */
  function Points(m: Mood): int
  {
    match m
    case Bullish => 1
    case Bearish => -1
    case Neutral => 0
  }

  /** RSI (50 when undefined) above 60 is bullish, below 40 bearish. */
  function RsiMood(rsi: Option<real>): (m: Mood)
    ensures rsi.None? ==> m == Neutral
    ensures m == Bullish <==> Above(rsi, 60.0)
    ensures m == Bearish <==> Below(rsi, 40.0)
  {
    var value := if rsi.Some? then rsi.value else 50.0;
    if value > 60.0 then Bullish else if value < 40.0 then Bearish else Neutral
  }

  /** MACD (0 when undefined) above its signal line (0 when undefined) is
      bullish, anything else bearish: never neutral. */
  function MacdMood(macd: Option<real>, macdSignal: Option<real>): (m: Mood)
    ensures m != Neutral
    ensures m == Bullish <==> (if macd.Some? then macd.value else 0.0) > (if macdSignal.Some? then macdSignal.value else 0.0)
  {
    var value := if macd.Some? then macd.value else 0.0;
    var signal := if macdSignal.Some? then macdSignal.value else 0.0;
    if value > signal then Bullish else Bearish
  }

  /** A 5-bar change (0 when undefined) above 2% is bullish, below -2%
      bearish. */
  function MomentumMood(change: Option<real>): (m: Mood)
    ensures change.None? ==> m == Neutral
    ensures m == Bullish <==> Above(change, 0.02)
    ensures m == Bearish <==> Below(change, -0.02)
  {
    var value := if change.Some? then change.value else 0.0;
    if value > 0.02 then Bullish else if value < -0.02 then Bearish else Neutral
  }

  datatype Sentiment = Sentiment(rsiMood: Mood, macdMood: Mood, momentumMood: Mood, overall: Mood, score: int)

  /** `_calculate_sentiment_indicators`: the three moods, their score and its
      sign as the overall sentiment. */
  function SentimentOf(rsi: Option<real>, macd: Option<real>, macdSignal: Option<real>, change: Option<real>): (s: Sentiment)
    ensures -3 <= s.score <= 3
    ensures s.score == Points(s.rsiMood) + Points(s.macdMood) + Points(s.momentumMood)
    ensures s.overall == Bullish <==> s.score > 0
    ensures s.overall == Bearish <==> s.score < 0
    ensures s.score == 3 <==> s.rsiMood == Bullish && s.macdMood == Bullish && s.momentumMood == Bullish
    ensures s.score == -3 <==> s.rsiMood == Bearish && s.macdMood == Bearish && s.momentumMood == Bearish
    ensures rsi.None? && change.None? ==> s.overall == s.macdMood
  {
    var r := RsiMood(rsi);
    var m := MacdMood(macd, macdSignal);
    var mo := MomentumMood(change);
    var score := Points(r) + Points(m) + Points(mo);
    Sentiment(r, m, mo, if score > 0 then Bullish else if score < 0 then Bearish else Neutral, score)
  }

  // ---------------------------------------------------------------------
  // Support and resistance
  // ---------------------------------------------------------------------

  predicate StrictlyIncreasing(s: seq<real>)
  {
    forall i, j :: 0 <= i < j < |s| ==> s[i] < s[j]
  }

  /** `xs` without its first occurrence of `v`. */
  function RemoveFirst(xs: seq<real>, v: real): (r: seq<real>)
    requires v in xs
    ensures |r| == |xs| - 1
    ensures forall u :: u in r ==> u in xs
    ensures multiset(r) == multiset(xs) - multiset{v}
  {
    assert xs == [xs[0]] + xs[1..];
    if xs[0] == v then xs[1..] else [xs[0]] + RemoveFirst(xs[1..], v)
  }

  /** `nlargest(k)`: the k largest values, largest first, duplicates kept. */
  function Largest(xs: seq<real>, k: nat): (r: seq<real>)
    ensures |r| == if |xs| < k then |xs| else k
    ensures forall v :: v in r ==> v in xs
    ensures xs != [] && k > 0 ==> r[0] == MaxOf(xs)
    ensures TopOf(xs, r)
    decreases k
  {
    if k == 0 || xs == [] then []
    else
      var m := MaxOf(xs);
      var rest := RemoveFirst(xs, m);
      var picked := Largest(rest, k - 1);
      MaxOfBounds(xs);
      TopStep(xs, rest, m, picked);
      [m] + picked
  }

  /** `nsmallest(k)`: the k smallest values, smallest first. */
  function Smallest(xs: seq<real>, k: nat): (r: seq<real>)
    ensures |r| == if |xs| < k then |xs| else k
    ensures forall v :: v in r ==> v in xs
    ensures xs != [] && k > 0 ==> r[0] == MinOf(xs)
    ensures BottomOf(xs, r)
    decreases k
  {
    if k == 0 || xs == [] then []
    else
      var m := MinOf(xs);
      var rest := RemoveFirst(xs, m);
      var picked := Smallest(rest, k - 1);
      MinOfBounds(xs);
      BottomStep(xs, rest, m, picked);
      [m] + picked
  }

  /** `r` holds the |r| largest values of `xs`: drawn from `xs` with their
      multiplicities, largest first, and no value left over exceeds one
      taken. */
  predicate TopOf(xs: seq<real>, r: seq<real>)
  {
    multiset(r) <= multiset(xs) &&
    (forall i, j :: 0 <= i < j < |r| ==> r[i] >= r[j]) &&
    (forall u, v :: u in multiset(xs) - multiset(r) && v in r ==> u <= v)
  }

  /** `r` holds the |r| smallest values of `xs`, smallest first. */
  predicate BottomOf(xs: seq<real>, r: seq<real>)
  {
    multiset(r) <= multiset(xs) &&
    (forall i, j :: 0 <= i < j < |r| ==> r[i] <= r[j]) &&
    (forall u, v :: u in multiset(xs) - multiset(r) && v in r ==> v <= u)
  }

  /** Putting the largest value in front of the top values of the rest
      gives top values of the whole. */
  lemma TopStep(xs: seq<real>, rest: seq<real>, m: real, top: seq<real>)
    requires m in xs && multiset(rest) == multiset(xs) - multiset{m}
    requires forall v :: v in multiset(xs) ==> v <= m
    requires TopOf(rest, top)
    ensures TopOf(xs, [m] + top)
    ensures forall v :: v in [m] + top ==> v in xs
  {
    forall v | v in [m] + top
      ensures v in xs
    {
      if v != m {
        assert v in multiset(top) && v in multiset(rest);
      }
    }
    ConsLeftOver(xs, rest, m, top);
    BelowBound(xs, rest, top, m);
    SortedDownCons(m, top);
    LeftOverBelowCons(m, top, multiset(rest) - multiset(top));
  }

  lemma BottomStep(xs: seq<real>, rest: seq<real>, m: real, bottom: seq<real>)
    requires m in xs && multiset(rest) == multiset(xs) - multiset{m}
    requires forall v :: v in multiset(xs) ==> m <= v
    requires BottomOf(rest, bottom)
    ensures BottomOf(xs, [m] + bottom)
    ensures forall v :: v in [m] + bottom ==> v in xs
  {
    forall v | v in [m] + bottom
      ensures v in xs
    {
      if v != m {
        assert v in multiset(bottom) && v in multiset(rest);
      }
    }
    ConsLeftOver(xs, rest, m, bottom);
    AboveBound(xs, rest, bottom, m);
    SortedUpCons(m, bottom);
    LeftOverAboveCons(m, bottom, multiset(rest) - multiset(bottom));
  }

  lemma MaxOfBounds(xs: seq<real>)
    requires xs != []
    ensures forall v :: v in multiset(xs) ==> v <= MaxOf(xs)
  {
  }

  lemma MinOfBounds(xs: seq<real>)
    requires xs != []
    ensures forall v :: v in multiset(xs) ==> MinOf(xs) <= v
  {
  }

  /** What is taken from `rest` or left over of it is bounded like `xs`. */
  lemma BelowBound(xs: seq<real>, rest: seq<real>, picked: seq<real>, m: real)
    requires forall v :: v in multiset(xs) ==> v <= m
    requires multiset(rest) <= multiset(xs) && multiset(picked) <= multiset(rest)
    ensures forall v :: v in picked ==> v <= m
    ensures forall u :: u in multiset(rest) - multiset(picked) ==> u <= m
  {
    forall v | v in picked
      ensures v <= m
    {
      assert v in multiset(picked);
    }
  }

  lemma AboveBound(xs: seq<real>, rest: seq<real>, picked: seq<real>, m: real)
    requires forall v :: v in multiset(xs) ==> m <= v
    requires multiset(rest) <= multiset(xs) && multiset(picked) <= multiset(rest)
    ensures forall v :: v in picked ==> m <= v
    ensures forall u :: u in multiset(rest) - multiset(picked) ==> m <= u
  {
    forall v | v in picked
      ensures m <= v
    {
      assert v in multiset(picked);
    }
  }

  lemma SortedDownCons(m: real, top: seq<real>)
    requires forall i, j :: 0 <= i < j < |top| ==> top[i] >= top[j]
    requires forall v :: v in top ==> v <= m
    ensures forall i, j :: 0 <= i < j < |[m] + top| ==> ([m] + top)[i] >= ([m] + top)[j]
  {
    var r := [m] + top;
    assert forall j :: 0 < j < |r| ==> r[j] == top[j - 1] && r[j] in top;
  }

  lemma SortedUpCons(m: real, bottom: seq<real>)
    requires forall i, j :: 0 <= i < j < |bottom| ==> bottom[i] <= bottom[j]
    requires forall v :: v in bottom ==> m <= v
    ensures forall i, j :: 0 <= i < j < |[m] + bottom| ==> ([m] + bottom)[i] <= ([m] + bottom)[j]
  {
    var r := [m] + bottom;
    assert forall j :: 0 < j < |r| ==> r[j] == bottom[j - 1] && r[j] in bottom;
  }

  lemma LeftOverBelowCons(m: real, top: seq<real>, left: multiset<real>)
    requires forall u, v :: u in left && v in top ==> u <= v
    requires forall u :: u in left ==> u <= m
    ensures forall u, v :: u in left && v in [m] + top ==> u <= v
  {
    assert forall v :: v in [m] + top ==> v == m || v in top;
  }

  lemma LeftOverAboveCons(m: real, bottom: seq<real>, left: multiset<real>)
    requires forall u, v :: u in left && v in bottom ==> v <= u
    requires forall u :: u in left ==> m <= u
    ensures forall u, v :: u in left && v in [m] + bottom ==> v <= u
  {
    assert forall v :: v in [m] + bottom ==> v == m || v in bottom;
  }

  /** Taking `m` out of `xs` and putting it in front of a selection from
      the rest leaves the same values over. */
  lemma ConsLeftOver(xs: seq<real>, rest: seq<real>, m: real, picked: seq<real>)
    requires m in xs && multiset(rest) == multiset(xs) - multiset{m}
    requires multiset(picked) <= multiset(rest)
    ensures multiset([m] + picked) <= multiset(xs)
    ensures multiset(xs) - multiset([m] + picked) == multiset(rest) - multiset(picked)
  {
    assert multiset(xs) == multiset(rest) + multiset{m};
    assert multiset([m] + picked) == multiset(picked) + multiset{m};
  }

  /** Adds `x` to a strictly increasing list, keeping it strictly increasing
      and without duplicates. */
  function Insert(s: seq<real>, x: real): (r: seq<real>)
    requires StrictlyIncreasing(s)
    ensures StrictlyIncreasing(r)
    ensures forall v :: v in r <==> v in s || v == x
    ensures |r| <= |s| + 1
  {
    if s == [] then [x]
    else if x < s[0] then [x] + s
    else if x == s[0] then s
    else
      HeadBelowTail(s);
      var rest := Insert(s[1..], x);
      ConsIncreasing(s[0], rest);
      [s[0]] + rest
  }

  lemma HeadBelowTail(s: seq<real>)
    requires s != [] && StrictlyIncreasing(s)
    ensures StrictlyIncreasing(s[1..]) && forall v :: v in s[1..] ==> s[0] < v
  {
    assert forall j :: 0 <= j < |s| - 1 ==> s[1..][j] == s[j + 1];
  }

  lemma ConsIncreasing(a: real, rest: seq<real>)
    requires StrictlyIncreasing(rest) && forall v :: v in rest ==> a < v
    ensures StrictlyIncreasing([a] + rest)
  {
    var r := [a] + rest;
    assert forall j :: 1 <= j < |r| ==> r[j] == rest[j - 1] && r[j] in rest;
  }

  /** `sorted(set(xs))`. */
  function SortedDistinct(xs: seq<real>): (r: seq<real>)
    ensures StrictlyIncreasing(r)
    ensures forall v :: v in r <==> v in xs
    ensures |r| <= |xs|
  {
    if xs == [] then []
    else
      var init := xs[..|xs| - 1];
      var r := Insert(SortedDistinct(init), xs[|xs| - 1]);
      assert forall v :: v in xs <==> v in init || v == xs[|xs| - 1] by {
        assert xs == init + [xs[|xs| - 1]];
      }
      r
  }

  /** `_find_support_resistance`: none below 50 bars, otherwise the three
      highest highs and three lowest lows of the last 50 bars, deduplicated
      and ascending. */
  function SupportResistance(bars: seq<Bar>): (r: seq<real>)
    ensures |bars| < 50 ==> r == []
    ensures StrictlyIncreasing(r) && |r| <= 6
    ensures |bars| >= 50 ==> forall v :: v in r <==>
      v in Largest(Highs(Last(bars, 50)), 3) || v in Smallest(Lows(Last(bars, 50)), 3)
    ensures |bars| >= 50 ==> MaxOf(Highs(Last(bars, 50))) in r && MinOf(Lows(Last(bars, 50))) in r
  {
    if |bars| < 50 then []
    else
      var recent := Last(bars, 50);
      SortedDistinct(Largest(Highs(recent), 3) + Smallest(Lows(recent), 3))
  }

  /** Every level is the high or the low of one of the last 50 bars. */
  lemma LevelsComeFromWindow(bars: seq<Bar>, v: real)
    requires v in SupportResistance(bars)
    ensures exists k :: 0 <= k < |bars| && |bars| - 50 <= k && (bars[k].high == v || bars[k].low == v)
  {
    LevelSources(bars, v);
    var k := WindowIndex(bars, v);
    assert bars[k].high == v || bars[k].low == v;
  }

  /** A level is a high or a low of the last 50 bars. */
  lemma LevelSources(bars: seq<Bar>, v: real)
    requires v in SupportResistance(bars)
    ensures |bars| >= 50 && (v in Highs(Last(bars, 50)) || v in Lows(Last(bars, 50)))
  {
  }

  /** The bar among the last 50 whose high or low is `v`. */
  lemma WindowIndex(bars: seq<Bar>, v: real) returns (k: nat)
    requires |bars| >= 50 && (v in Highs(Last(bars, 50)) || v in Lows(Last(bars, 50)))
    ensures |bars| - 50 <= k < |bars| && (bars[k].high == v || bars[k].low == v)
  {
    var recent := Last(bars, 50);
    var j: nat;
    if v in Highs(recent) {
      j :| 0 <= j < |recent| && Highs(recent)[j] == v;
    } else {
      j :| 0 <= j < |recent| && Lows(recent)[j] == v;
    }
    k := |bars| - 50 + j;
    assert bars[k] == recent[j];
  }

  // ---------------------------------------------------------------------
  // Patterns
  // ---------------------------------------------------------------------

  datatype PatternKind =
    HeadShoulders | DoubleTop | DoubleBottom | SymmetricalTriangle | Flag | BullishBreakout | BearishBreakout

  /** `MarketPattern` without its texts and timestamp. */
  datatype Pattern = Pattern(kind: PatternKind, confidence: real, historicalSuccessRate: real)

  /** `high[i]` equals the centred five-bar rolling maximum (undefined for
      the first and last two bars). */
  predicate IsPeak(h: seq<real>, i: int)
    requires 0 <= i < |h|
  {
    2 <= i && i + 2 < |h| && forall j :: i - 2 <= j <= i + 2 ==> h[j] <= h[i]
  }

  /** The peak values among the first `n` highs, in order. */
  function PeaksUpTo(h: seq<real>, n: nat): seq<real>
    requires n <= |h|
  {
    if n == 0 then [] else PeaksUpTo(h, n - 1) + (if IsPeak(h, n - 1) then [h[n - 1]] else [])
  }

  function Peaks(h: seq<real>): seq<real>
  {
    PeaksUpTo(h, |h|)
  }

  /** Every listed peak value is the high of a peak bar. */
  lemma {:induction false} PeaksArePeaks(h: seq<real>, n: nat, v: real)
    requires n <= |h| && v in PeaksUpTo(h, n)
    ensures exists i :: 0 <= i < n && IsPeak(h, i) && h[i] == v
  {
    if v in PeaksUpTo(h, n - 1) {
      PeaksArePeaks(h, n - 1, v);
    } else {
      assert IsPeak(h, n - 1) && h[n - 1] == v;
    }
  }

  /** `_detect_head_shoulders`: from 50 bars, the middle of the last three
      peaks is above both others. */
  function DetectHeadShoulders(bars: seq<Bar>): (r: Option<Pattern>)
    ensures r.Some? ==> r.value == Pattern(HeadShoulders, 0.7, 0.65)
    ensures r.Some? <==> |bars| >= 50 && var p := Peaks(Highs(bars));
      |p| >= 3 && p[|p| - 2] > p[|p| - 3] && p[|p| - 2] > p[|p| - 1]
  {
    if |bars| < 50 then None
    else
      var p := Peaks(Highs(bars));
      if |p| >= 3 && p[|p| - 2] > p[|p| - 3] && p[|p| - 2] > p[|p| - 1] then Some(Pattern(HeadShoulders, 0.7, 0.65))
      else None
  }

  /** A detected head is the high of a peak bar strictly above the last peak. */
  lemma HeadIsAPeak(bars: seq<Bar>)
    requires DetectHeadShoulders(bars).Some?
    ensures var h := Highs(bars);
      (exists i :: 0 <= i < |h| && IsPeak(h, i) && h[i] > Peaks(h)[|Peaks(h)| - 1])
  {
    var h := Highs(bars);
    var p := Peaks(h);
    assert p[|p| - 2] in PeaksUpTo(h, |h|);
    PeaksArePeaks(h, |h|, p[|p| - 2]);
  }

  /** How many of `xs` are at least `t`. */
  function CountAtLeast(xs: seq<real>, t: real): (n: nat)
    ensures n <= |xs|
  {
    if xs == [] then 0 else CountAtLeast(xs[..|xs| - 1], t) + (if xs[|xs| - 1] >= t then 1 else 0)
  }

  /** How many of `xs` are at most `t`. */
  function CountAtMost(xs: seq<real>, t: real): (n: nat)
    ensures n <= |xs|
  {
    if xs == [] then 0 else CountAtMost(xs[..|xs| - 1], t) + (if xs[|xs| - 1] <= t then 1 else 0)
  }

  /** A count of two or more is two distinct bars over the threshold. */
  lemma {:induction false} TwoAtLeast(xs: seq<real>, t: real)
    ensures CountAtLeast(xs, t) >= 2 <==>
      exists i, j :: 0 <= i < j < |xs| && xs[i] >= t && xs[j] >= t
  {
    if xs != [] {
      var init := xs[..|xs| - 1];
      TwoAtLeast(init, t);
      OneAtLeast(init, t);
      if exists i, j :: 0 <= i < j < |xs| && xs[i] >= t && xs[j] >= t {
        var i, j :| 0 <= i < j < |xs| && xs[i] >= t && xs[j] >= t;
        if j < |xs| - 1 {
          assert init[i] >= t && init[j] >= t;
        } else {
          assert init[i] >= t;
        }
      }
      if CountAtLeast(xs, t) >= 2 {
        if CountAtLeast(init, t) >= 2 {
          var i, j :| 0 <= i < j < |init| && init[i] >= t && init[j] >= t;
          assert xs[i] >= t && xs[j] >= t;
        } else {
          var i :| 0 <= i < |init| && init[i] >= t;
          assert xs[i] >= t && xs[|xs| - 1] >= t;
        }
      }
    }
  }

  lemma {:induction false} OneAtLeast(xs: seq<real>, t: real)
    ensures CountAtLeast(xs, t) >= 1 <==> exists i :: 0 <= i < |xs| && xs[i] >= t
  {
    if xs != [] {
      var init := xs[..|xs| - 1];
      OneAtLeast(init, t);
      if exists i :: 0 <= i < |xs| && xs[i] >= t {
        var i :| 0 <= i < |xs| && xs[i] >= t;
        if i < |xs| - 1 {
          assert init[i] >= t;
        }
      }
      if CountAtLeast(init, t) >= 1 {
        var i :| 0 <= i < |init| && init[i] >= t;
        assert xs[i] >= t;
      }
    }
  }

  /** `_detect_double_top_bottom`: from 30 bars, two of the last 20 highs
      within 2% of their maximum make a double top; failing that, two of the
      last 20 lows within 2% of their minimum make a double bottom. */
  function DetectDoubleTopBottom(bars: seq<Bar>): (r: Option<Pattern>)
    ensures |bars| < 30 ==> r.None?
    ensures r.Some? ==> r.value.confidence == 0.6 && r.value.historicalSuccessRate == 0.6
    ensures |bars| >= 30 ==> var h := Highs(Last(bars, 20));
      (r.Some? && r.value.kind == DoubleTop <==> CountAtLeast(h, MaxOf(h) * 0.98) >= 2)
    ensures |bars| >= 30 ==> var h := Highs(Last(bars, 20)); var l := Lows(Last(bars, 20));
      (r.Some? && r.value.kind == DoubleBottom <==>
        CountAtLeast(h, MaxOf(h) * 0.98) < 2 && CountAtMost(l, MinOf(l) * 1.02) >= 2)
    ensures r.Some? ==> r.value.kind == DoubleTop || r.value.kind == DoubleBottom
  {
    if |bars| < 30 then None
    else
      var recent := Last(bars, 20);
      assert |Highs(recent)| == 20 && |Lows(recent)| == 20;
      DoubleFrom(Highs(recent), Lows(recent))
  }

  /** The double top/bottom decision on the last highs and lows. */
  function DoubleFrom(h: seq<real>, l: seq<real>): (r: Option<Pattern>)
    requires h != [] && l != []
    ensures r.Some? ==> r.value.confidence == 0.6 && r.value.historicalSuccessRate == 0.6
    ensures r.Some? && r.value.kind == DoubleTop <==> CountAtLeast(h, MaxOf(h) * 0.98) >= 2
    ensures r.Some? && r.value.kind == DoubleBottom <==>
      CountAtLeast(h, MaxOf(h) * 0.98) < 2 && CountAtMost(l, MinOf(l) * 1.02) >= 2
    ensures r.Some? ==> r.value.kind == DoubleTop || r.value.kind == DoubleBottom
  {
    if CountAtLeast(h, MaxOf(h) * 0.98) >= 2 then Some(Pattern(DoubleTop, 0.6, 0.6))
    else if CountAtMost(l, MinOf(l) * 1.02) >= 2 then Some(Pattern(DoubleBottom, 0.6, 0.6))
    else None
  }

  /** `_detect_triangle`, given the slopes of the lines fitted to the last 20
      highs and lows. */
  function DetectTriangle(bars: seq<Bar>, highSlope: real, lowSlope: real): (r: Option<Pattern>)
    ensures r.Some? <==> |bars| >= 20 && Abs(highSlope) < 0.1 && Abs(lowSlope) < 0.1
    ensures r.Some? ==> r.value == Pattern(SymmetricalTriangle, 0.5, 0.55)
  {
    if |bars| < 20 then None
    else if Abs(highSlope) < 0.1 && Abs(lowSlope) < 0.1 then Some(Pattern(SymmetricalTriangle, 0.5, 0.55))
    else None
  }

  /** `_detect_flag`: from 15 bars, the range of the last 15 over their mean
      close (a float64 quotient) below 3%. */
  function DetectFlag(bars: seq<Bar>): (r: Option<Pattern>)
    ensures r.Some? ==> |bars| >= 15 && r.value == Pattern(Flag, 0.6, 0.7)
    ensures |bars| >= 15 ==> var recent := Last(bars, 15);
      (r.Some? <==> QLess(NpDiv(MaxOf(Highs(recent)) - MinOf(Lows(recent)), Sum(Closes(recent)) / 15.0), 0.03))
  {
    if |bars| < 15 then None
    else
      var recent := Last(bars, 15);
      var priceRange := MaxOf(Highs(recent)) - MinOf(Lows(recent));
      var avgPrice := Sum(Closes(recent)) / 15.0;
      if QLess(NpDiv(priceRange, avgPrice), 0.03) then Some(Pattern(Flag, 0.6, 0.7)) else None
  }

  /** With a positive mean close, a flag is a range below 3% of it. */
  lemma FlagIsTightRange(bars: seq<Bar>)
    requires |bars| >= 15 && Sum(Closes(Last(bars, 15))) > 0.0
    ensures var recent := Last(bars, 15);
      DetectFlag(bars).Some? <==> MaxOf(Highs(recent)) - MinOf(Lows(recent)) < 0.03 * (Sum(Closes(recent)) / 15.0)
  {
    var recent := Last(bars, 15);
    var range, avg := MaxOf(Highs(recent)) - MinOf(Lows(recent)), Sum(Closes(recent)) / 15.0;
    assert DetectFlag(bars).Some? <==> QLess(NpDiv(range, avg), 0.03);
    NpDivCompare(range, avg, 0.03);
  }

  /** `_detect_breakout`: from 20 bars, a close above the highest high (or
      below the lowest low) of the last 20 bars on a volume ratio above 1.5
      (1 when undefined). */
  function DetectBreakout(bars: seq<Bar>): (r: Option<Pattern>)
    ensures r.Some? ==> |bars| >= 20 && r.value.confidence == 0.7 && r.value.historicalSuccessRate == 0.65
    ensures |bars| >= 20 ==> var latest := bars[|bars| - 1]; var recent := Last(bars, 20);
      (r.Some? && r.value.kind == BullishBreakout <==>
        latest.close > MaxOf(Highs(recent)) && Above(latest.volumeRatio, 1.5))
    ensures |bars| >= 20 ==> var latest := bars[|bars| - 1]; var recent := Last(bars, 20);
      (r.Some? && r.value.kind == BearishBreakout <==>
        latest.close <= MaxOf(Highs(recent)) && latest.close < MinOf(Lows(recent)) && Above(latest.volumeRatio, 1.5))
    ensures r.Some? ==> r.value.kind == BullishBreakout || r.value.kind == BearishBreakout
  {
    if |bars| < 20 then None
    else
      var latest := bars[|bars| - 1];
      var recent := Last(bars, 20);
      var volumeRatio := if latest.volumeRatio.Some? then latest.volumeRatio.value else 1.0;
      if latest.close > MaxOf(Highs(recent)) && volumeRatio > 1.5 then Some(Pattern(BullishBreakout, 0.7, 0.65))
      else if latest.close < MinOf(Lows(recent)) && volumeRatio > 1.5 then Some(Pattern(BearishBreakout, 0.7, 0.65))
      else None
  }

  /** The window includes the latest bar, so a latest close inside its own
      low-high range never breaks out. */
  lemma BreakoutNeedsCloseOutsideOwnRange(bars: seq<Bar>)
    requires bars != [] && bars[|bars| - 1].low <= bars[|bars| - 1].close <= bars[|bars| - 1].high
    ensures DetectBreakout(bars).None?
  {
    if |bars| >= 20 {
      var recent := Last(bars, 20);
      assert Highs(recent)[19] == bars[|bars| - 1].high;
      assert Lows(recent)[19] == bars[|bars| - 1].low;
    }
  }

  /** `_detect_breakout` on the frame the indicator step leaves as written:
      the `volume_ratio` column is missing, so from 20 bars the lookup raises
      KeyError and the except branch returns None; below 20 bars it returns
      None before the lookup. */
  function DetectBreakoutAsWritten(bars: seq<Bar>): (r: Option<Pattern>)
    ensures r.None?
  {
    None
  }

  /** On bars whose latest close lies within its own range the breakout rule
      also finds nothing, so the missing column changes the result only for
      malformed bars. */
  lemma BreakoutAsWrittenAgreesOnWellFormedBars(bars: seq<Bar>)
    requires bars != [] && bars[|bars| - 1].low <= bars[|bars| - 1].close <= bars[|bars| - 1].high
    ensures DetectBreakoutAsWritten(bars) == DetectBreakout(bars)
  {
    BreakoutNeedsCloseOutsideOwnRange(bars);
  }

  /** The detections of `_identify_patterns`, in detector order. */
  function Detected(bars: seq<Bar>, highSlope: real, lowSlope: real): (r: seq<Pattern>)
    ensures |r| <= 5
    ensures forall p :: p in r ==> 0.5 <= p.confidence <= 0.7
    ensures |bars| < 15 ==> r == []
  {
    var found := Found(bars, highSlope, lowSlope);
    FoundPlausible(bars, highSlope, lowSlope);
    PresentKeepsPlausible(found);
    Present(found)
  }

  /** The five detectors' results, in the order `identify_patterns` runs
      them. */
  function Found(bars: seq<Bar>, highSlope: real, lowSlope: real): (r: seq<Option<Pattern>>)
    ensures |r| == 5
  {
    [DetectHeadShoulders(bars), DetectDoubleTopBottom(bars), DetectTriangle(bars, highSlope, lowSlope),
     DetectFlag(bars), DetectBreakout(bars)]
  }

  lemma FoundPlausible(bars: seq<Bar>, highSlope: real, lowSlope: real)
    ensures forall k :: 0 <= k < 5 ==> Plausible(Found(bars, highSlope, lowSlope)[k])
    ensures |bars| < 15 ==> forall k :: 0 <= k < 5 ==> Found(bars, highSlope, lowSlope)[k].None?
  {
    var found := Found(bars, highSlope, lowSlope);
    assert Plausible(found[0]) && Plausible(found[1]) && Plausible(found[2]);
    assert Plausible(found[3]) && Plausible(found[4]);
  }

  /** A detector's result: none, or a confidence between 0.5 and 0.7. */
  predicate Plausible(o: Option<Pattern>)
  {
    o.Some? ==> 0.5 <= o.value.confidence <= 0.7
  }

  /** The detectors' results that are not None, in order. */
  function Present(found: seq<Option<Pattern>>): (r: seq<Pattern>)
    ensures |r| <= |found|
    ensures forall p :: p in r <==> Some(p) in found
    ensures (forall k :: 0 <= k < |found| ==> found[k].None?) ==> r == []
  {
    if found == [] then []
    else if found[0].Some? then [found[0].value] + Present(found[1..])
    else Present(found[1..])
  }

  lemma PresentKeepsPlausible(found: seq<Option<Pattern>>)
    requires forall k :: 0 <= k < |found| ==> Plausible(found[k])
    ensures forall p :: p in Present(found) ==> 0.5 <= p.confidence <= 0.7
  {
    forall p | p in Present(found)
      ensures 0.5 <= p.confidence <= 0.7
    {
      var k :| 0 <= k < |found| && found[k] == Some(p);
      assert Plausible(found[k]);
    }
  }

  /** One entry of `pattern_database[symbol]` (the timestamp is not kept). */
  datatype PatternRecord = PatternRecord(kind: PatternKind, confidence: real)

  function RecordOf(p: Pattern): PatternRecord
  {
    PatternRecord(p.kind, p.confidence)
  }

  class MarketAnalyzer {
    var patternDatabase: map<string, seq<PatternRecord>>

    constructor()
      ensures patternDatabase == map[]
    {
      patternDatabase := map[];
    }

    /** The records already stored for `symbol` (none when the key is absent). */
    function Stored(symbol: string): seq<PatternRecord>
      reads this
    {
      if symbol in patternDatabase then patternDatabase[symbol] else []
    }

    /** `_identify_patterns`: runs the detectors and stores their records. */
    method IdentifyPatterns(symbol: string, bars: seq<Bar>, highSlope: real, lowSlope: real) returns (patterns: seq<Pattern>)
      modifies this
      ensures patterns == Detected(bars, highSlope, lowSlope)
      ensures patternDatabase == old(patternDatabase)[symbol := old(Stored(symbol)) + Records(patterns)]
    {
      patterns := Detected(bars, highSlope, lowSlope);
      Store(symbol, patterns);
    }

    /** The storing loop of `_identify_patterns`: one record per detection
        appended to the symbol's list, the key created if absent. */
    method Store(symbol: string, patterns: seq<Pattern>)
      modifies this
      ensures patternDatabase == old(patternDatabase)[symbol := old(Stored(symbol)) + Records(patterns)]
    {
      if symbol !in patternDatabase {
        patternDatabase := patternDatabase[symbol := []];
      }
      ghost var before := old(Stored(symbol));
      assert before + Records(patterns[..0]) == before;
      assert patternDatabase == old(patternDatabase)[symbol := before];
      var i := 0;
      while i < |patterns|
        invariant 0 <= i <= |patterns|
        invariant patternDatabase == old(patternDatabase)[symbol := before + Records(patterns[..i])]
      {
        assert Records(patterns[..i + 1]) == Records(patterns[..i]) + [RecordOf(patterns[i])];
        assert patternDatabase[symbol] + [RecordOf(patterns[i])] == before + Records(patterns[..i + 1]);
        patternDatabase := patternDatabase[symbol := patternDatabase[symbol] + [RecordOf(patterns[i])]];
        i := i + 1;
      }
      assert patterns[..|patterns|] == patterns;
    }
  }

  /** The records of a list of detections, in order. */
  function Records(ps: seq<Pattern>): (r: seq<PatternRecord>)
    ensures |r| == |ps| && forall k :: 0 <= k < |ps| ==> r[k] == RecordOf(ps[k])
  {
    seq(|ps|, k requires 0 <= k < |ps| => RecordOf(ps[k]))
  }
}
