/** The deterministic parts of the LLM strategy analyzer: the performance
    metrics handed to the model, the extraction of the JSON object from its
    reply, the metric-based fallback when no object can be decoded, and the
    filter that picks insight lines out of a free-text reply. The model call
    itself and the JSON decoder are parameters. */
module StrategyAnalysis {
  import opened Common
  import opened Signals
  import Ledger

  /** `PerformanceMetrics`. */
  datatype Metrics = Metrics(
    totalTrades: nat,
    totalPnl: real,
    winRate: real,
    avgWin: real,
    avgLoss: real,
    profitFactor: ProfitFactor,
    maxDrawdown: real,
    sharpeRatio: real,
    recentPerformance: seq<real>)

  /** `_calculate_performance_metrics` over the trades' P&Ls; `sharpe` is the
      mean-over-deviation figure, computed outside. */
  function MetricsOf(xs: seq<real>, sharpe: real): (m: Metrics)
    ensures xs == [] ==> m == Metrics(0, 0.0, 0.0, 0.0, 0.0, Finite(0.0), 0.0, 0.0, [])
    ensures m.totalTrades == |xs| && m.totalPnl == Sum(xs)
    ensures 0.0 <= m.winRate <= 100.0 && m.avgWin >= 0.0 && m.avgLoss <= 0.0
    ensures xs != [] ==> m.winRate == Ledger.WinRate(xs) && m.avgWin == Ledger.MeanWin(xs) && m.avgLoss == Ledger.MeanLoss(xs)
    ensures xs != [] && m.avgLoss != 0.0 ==> m.profitFactor == Finite(Abs(m.avgWin / m.avgLoss))
    ensures xs != [] ==> (m.profitFactor == Infinite <==> forall k :: 0 <= k < |xs| ==> xs[k] >= 0.0)
    ensures m.profitFactor.Finite? ==> m.profitFactor.value >= 0.0
    ensures m.maxDrawdown >= 0.0
    ensures xs != [] ==> m.maxDrawdown == Ledger.DrawdownFromFirst(xs)
    ensures m.recentPerformance == Last(xs, 20)
    ensures |xs| <= 1 ==> m.sharpeRatio == 0.0
  {
    if xs == [] then Metrics(0, 0.0, 0.0, 0.0, 0.0, Finite(0.0), 0.0, 0.0, [])
    else
      var avgWin, avgLoss := Ledger.MeanWin(xs), Ledger.MeanLoss(xs);
      Ledger.LossesZeroIffNoNegative(xs);
      Metrics(|xs|, Sum(xs), Ledger.WinRate(xs), avgWin, avgLoss,
              if avgLoss != 0.0 then Finite(Abs(avgWin / avgLoss)) else Infinite,
              Ledger.DrawdownFromFirst(xs), if |xs| > 1 then sharpe else 0.0, Last(xs, 20))
  }

  /** `StrategyAnalysis`. */
  datatype Analysis = Analysis(
    shouldEvolve: bool,
    confidence: real,
    reasoning: string,
    newParameters: map<string, real>,
    riskAssessment: string,
    recommendations: seq<string>)

  /** `profit_factor < t` (never for an infinite factor). */
  predicate FactorBelow(pf: ProfitFactor, t: real)
  {
    pf.Finite? && pf.value < t
  }

  /** `profit_factor > t` (always for an infinite factor). */
  predicate FactorAbove(pf: ProfitFactor, t: real)
  {
    pf.Infinite? || pf.value > t
  }

  /** The first rule of the fallback: poor performance. */
  predicate Poor(m: Metrics)
  {
    m.winRate < 40.0 || FactorBelow(m.profitFactor, 1.2) || m.maxDrawdown > 100.0
  }

  /** The second rule of the fallback: good performance. */
  predicate Good(m: Metrics)
  {
    m.winRate > 60.0 && FactorAbove(m.profitFactor, 2.0)
  }

  /** The parameter changes suggested for poor performance: tighter RSI
      thresholds for a low win rate, a wider target and tighter stop for a
      low profit factor. */
  function PoorAdjustments(m: Metrics): (r: map<string, real>)
    ensures ("rsi_oversold" in r) == ("rsi_overbought" in r) == (m.winRate < 40.0)
    ensures ("take_profit_pct" in r) == ("stop_loss_pct" in r) == FactorBelow(m.profitFactor, 1.2)
    ensures "rsi_oversold" in r ==> r["rsi_oversold"] == 25.0 && r["rsi_overbought"] == 75.0
    ensures "take_profit_pct" in r ==> r["take_profit_pct"] == 0.06 && r["stop_loss_pct"] == 0.015
    ensures r.Keys <= {"rsi_oversold", "rsi_overbought", "take_profit_pct", "stop_loss_pct"}
  {
    var rsi: map<string, real> := if m.winRate < 40.0 then map["rsi_oversold" := 25.0, "rsi_overbought" := 75.0] else map[];
    if FactorBelow(m.profitFactor, 1.2) then rsi["take_profit_pct" := 0.06]["stop_loss_pct" := 0.015] else rsi
  }

  const FallbackRecommendations: seq<string> := ["Monitor performance closely", "Consider parameter adjustments"]

  const PoorReasoning := "Poor performance detected: "
  const GoodReasoning := "Good performance, optimizing for better results: "
  const NeutralReasoning := "Fallback analysis based on performance metrics"

  /** `{profit_factor:.2f}`: "inf" for an infinite factor, otherwise the
      two-decimal text `fmt2` renders. */
  function FactorText(pf: ProfitFactor, fmt2: real -> string): string
  {
    if pf.Finite? then fmt2(pf.value) else "inf"
  }

  /** The figures the fallback quotes: the win rate to one decimal
      (`fmt1`), the profit factor to two, and for poor performance the
      drawdown to two. */
  function Figures(m: Metrics, withDrawdown: bool, fmt1: real -> string, fmt2: real -> string): string
  {
    "Win rate " + fmt1(m.winRate) + "%, Profit factor " + FactorText(m.profitFactor, fmt2) +
    (if withDrawdown then ", Max drawdown " + fmt2(m.maxDrawdown) else "")
  }

  /** `_fallback_parse_analysis` as written: the good-performance branch
      reads `metrics.max_position_size`, a field the metrics record does not
      have. The number formatting is the `fmt1`/`fmt2` parameters. */
  function FallbackAsWritten(m: Metrics, fmt1: real -> string, fmt2: real -> string): (r: Result<Analysis>)
    ensures r.Err? <==> !Poor(m) && Good(m)
    ensures r.Err? ==> r.error == AttributeError("max_position_size")
    ensures r.Ok? ==> r.value.shouldEvolve == Poor(m)
    ensures r.Ok? && Poor(m) ==> r.value.reasoning == PoorReasoning + Figures(m, true, fmt1, fmt2)
    ensures r.Ok? && !Poor(m) ==> r.value.reasoning == NeutralReasoning
  {
    if Poor(m) then
      Ok(Analysis(true, 0.8, PoorReasoning + Figures(m, true, fmt1, fmt2), PoorAdjustments(m),
                  "Standard risk assessment", FallbackRecommendations))
    else if Good(m) then Err(AttributeError("max_position_size"))
    else
      Ok(Analysis(false, 0.5, NeutralReasoning, map[], "Standard risk assessment",
                  FallbackRecommendations))
  }

  /** Every non-empty history of winning trades reaches the missing field. */
  lemma WinningHistoryHitsMissingField(xs: seq<real>, sharpe: real, fmt1: real -> string, fmt2: real -> string)
    requires xs != [] && forall k :: 0 <= k < |xs| ==> xs[k] > 0.0
    ensures FallbackAsWritten(MetricsOf(xs, sharpe), fmt1, fmt2) == Err(AttributeError("max_position_size"))
  {
    var m := MetricsOf(xs, sharpe);
    assert Ledger.Wins(xs) == |xs| by {
      Ledger.LossesZeroIffNoNegative(xs);
      Ledger.WinsPlusLossesBound(xs);
    }
    assert m.winRate == 100.0;
    assert m.maxDrawdown == 0.0 by {
      Ledger.PeakFromFirstAtMostFromZero(xs);
      Ledger.NoDrawdownWhenNeverFalling(xs);
    }
    assert m.profitFactor == Infinite;
    assert !Poor(m) && Good(m);
  }

  /** The fallback with the size ceiling read from the strategy's current
      parameters: 10% more, but never above 0.15. */
  function Fallback(m: Metrics, maxPositionSize: real, fmt1: real -> string, fmt2: real -> string): (r: Analysis)
    ensures r.shouldEvolve <==> Poor(m) || Good(m)
    ensures r.confidence == (if Poor(m) then 0.8 else if Good(m) then 0.7 else 0.5)
    ensures Poor(m) ==> r.newParameters == PoorAdjustments(m)
    ensures !Poor(m) && Good(m) ==> r.newParameters.Keys == {"max_position_size"}
    ensures !Poor(m) && Good(m) ==> r.newParameters["max_position_size"] == Min(0.15, maxPositionSize * 1.1) <= 0.15
    ensures !r.shouldEvolve ==> r.newParameters == map[]
    ensures r.recommendations == FallbackRecommendations
    ensures r.reasoning == (if Poor(m) then PoorReasoning + Figures(m, true, fmt1, fmt2)
                            else if Good(m) then GoodReasoning + Figures(m, false, fmt1, fmt2)
                            else NeutralReasoning)
  {
    var r := FallbackAsWritten(m, fmt1, fmt2);
    if r.Ok? then r.value
    else
      Analysis(true, 0.7, GoodReasoning + Figures(m, false, fmt1, fmt2),
               map["max_position_size" := Min(0.15, maxPositionSize * 1.1)], "Standard risk assessment",
               FallbackRecommendations)
  }

  /** A history of losing trades has a zero win rate and a zero profit
      factor. */
  lemma {:induction false} LosingHistoryMetrics(xs: seq<real>, sharpe: real)
    requires xs != [] && forall k :: 0 <= k < |xs| ==> xs[k] < 0.0
    ensures MetricsOf(xs, sharpe).winRate == 0.0
    ensures MetricsOf(xs, sharpe).profitFactor == Finite(0.0)
  {
    Ledger.WinsZeroIffNoPositive(xs);
    Ledger.LossesZeroIffNoNegative(xs);
    assert xs[0] < 0.0;
    var avgWin, avgLoss := Ledger.MeanWin(xs), Ledger.MeanLoss(xs);
    assert avgWin == 0.0 && avgLoss < 0.0;
    ZeroOver(avgWin, avgLoss);
    assert Ledger.WinRate(xs) == 0.0;
  }

  lemma ZeroOver(a: real, b: real)
    requires a == 0.0 && b != 0.0
    ensures Abs(a / b) == 0.0
  {
  }

  /** A history of losing trades always asks for evolution with the RSI and
      exit changes. */
  lemma LosingHistoryEvolves(xs: seq<real>, sharpe: real, maxPositionSize: real, fmt1: real -> string, fmt2: real -> string)
    requires xs != [] && forall k :: 0 <= k < |xs| ==> xs[k] < 0.0
    ensures var a := Fallback(MetricsOf(xs, sharpe), maxPositionSize, fmt1, fmt2);
      a.shouldEvolve && a.confidence == 0.8 &&
      "rsi_oversold" in a.newParameters && a.newParameters["rsi_oversold"] == 25.0 &&
      "take_profit_pct" in a.newParameters && a.newParameters["take_profit_pct"] == 0.06
  {
    LosingHistoryMetrics(xs, sharpe);
    PoorOnBothCounts(MetricsOf(xs, sharpe), maxPositionSize, fmt1, fmt2);
  }

  lemma PoorOnBothCounts(m: Metrics, maxPositionSize: real, fmt1: real -> string, fmt2: real -> string)
    requires m.winRate < 40.0 && FactorBelow(m.profitFactor, 1.2)
    ensures var a := Fallback(m, maxPositionSize, fmt1, fmt2);
      a.shouldEvolve && a.confidence == 0.8 &&
      "rsi_oversold" in a.newParameters && a.newParameters["rsi_oversold"] == 25.0 &&
      "take_profit_pct" in a.newParameters && a.newParameters["take_profit_pct"] == 0.06
  {
  }

  // ---------------------------------------------------------------------
  // Extracting the JSON object
  // ---------------------------------------------------------------------

  /** `s.find(c)`: the first index of `c`, or -1. */
  function Find(s: string, c: char): (i: int)
    ensures -1 <= i < |s|
    ensures i == -1 <==> c !in s
    ensures i >= 0 ==> s[i] == c && forall k :: 0 <= k < i ==> s[k] != c
  {
    if s == [] then -1
    else if s[0] == c then 0
    else
      var j := Find(s[1..], c);
      assert forall k :: 1 <= k < |s| ==> s[k] == s[1..][k - 1];
      assert c in s <==> c in s[1..] by {
        assert s == [s[0]] + s[1..];
      }
      if j == -1 then -1 else j + 1
  }

  /** `s.rfind(c)`: the last index of `c`, or -1. */
  function RFind(s: string, c: char): (i: int)
    ensures -1 <= i < |s|
    ensures i == -1 <==> c !in s
    ensures i >= 0 ==> s[i] == c && forall k :: i < k < |s| ==> s[k] != c
  {
    if s == [] then -1
    else if s[|s| - 1] == c then |s| - 1
    else
      var init := s[..|s| - 1];
      assert forall k :: 0 <= k < |init| ==> init[k] == s[k];
      assert c in s <==> c in init by {
        assert s == init + [s[|s| - 1]];
      }
      RFind(init, c)
  }

  /** The text from the first '{' to the last '}' inclusive, when there is a
      '{' and the last '}' comes after it. */
  function JsonSpan(text: string): (r: Option<string>)
    ensures r.Some? <==> '{' in text && '}' in text && Find(text, '{') < RFind(text, '}')
    ensures r.Some? ==> r.value == text[Find(text, '{')..RFind(text, '}') + 1]
    ensures r.Some? ==> |r.value| >= 2 && r.value[0] == '{' && r.value[|r.value| - 1] == '}'
  {
    var start := Find(text, '{');
    var end := RFind(text, '}') + 1;
    if start != -1 && end > start then Some(text[start..end]) else None
  }

  /** The fields a decoded JSON object may carry; absent ones are None. */
  datatype Decoded = Decoded(
    shouldEvolve: Option<bool>,
    confidence: Option<real>,
    reasoning: Option<string>,
    newParameters: Option<map<string, real>>,
    riskAssessment: Option<string>,
    recommendations: Option<seq<string>>)

  /** The analysis built from a decoded object, absent fields defaulted. */
  function FromDecoded(d: Decoded): (a: Analysis)
    ensures a.shouldEvolve == OrElse(d.shouldEvolve, false) && a.confidence == OrElse(d.confidence, 0.5)
    ensures a.reasoning == OrElse(d.reasoning, "No reasoning provided")
    ensures a.newParameters == OrElse(d.newParameters, map[])
    ensures a.riskAssessment == OrElse(d.riskAssessment, "No risk assessment")
    ensures a.recommendations == OrElse(d.recommendations, [])
  {
    Analysis(OrElse(d.shouldEvolve, false), OrElse(d.confidence, 0.5), OrElse(d.reasoning, "No reasoning provided"),
             OrElse(d.newParameters, map[]), OrElse(d.riskAssessment, "No risk assessment"),
             OrElse(d.recommendations, []))
  }

  /** `_parse_analysis_response`: the decoded span when there is one that
      decodes (`decode` returns None for a decode error), the fallback
      otherwise. */
  function ParseResponse(text: string, m: Metrics, decode: string -> Option<Decoded>, maxPositionSize: real,
                         fmt1: real -> string, fmt2: real -> string): (a: Analysis)
    ensures JsonSpan(text).None? ==> a == Fallback(m, maxPositionSize, fmt1, fmt2)
    ensures JsonSpan(text).Some? && decode(JsonSpan(text).value).None? ==> a == Fallback(m, maxPositionSize, fmt1, fmt2)
    ensures JsonSpan(text).Some? && decode(JsonSpan(text).value).Some? ==>
      a == FromDecoded(decode(JsonSpan(text).value).value)
  {
    match JsonSpan(text)
    case None => Fallback(m, maxPositionSize, fmt1, fmt2)
    case Some(span) =>
      match decode(span)
      case None => Fallback(m, maxPositionSize, fmt1, fmt2)
      case Some(d) => FromDecoded(d)
  }

  /** A reply without a closing brace after its first opening brace always
      falls back, whatever the decoder. */
  lemma NoObjectFallsBack(text: string, m: Metrics, decode: string -> Option<Decoded>, maxPositionSize: real,
                         fmt1: real -> string, fmt2: real -> string)
    requires '{' !in text || '}' !in text || RFind(text, '}') < Find(text, '{')
    ensures ParseResponse(text, m, decode, maxPositionSize, fmt1, fmt2) == Fallback(m, maxPositionSize, fmt1, fmt2)
  {
  }

  // ---------------------------------------------------------------------
  // Insight lines
  // ---------------------------------------------------------------------

  /** `str.split('\n')`. */
  function Lines(text: string): (r: seq<string>)
    ensures |r| >= 1
    ensures forall i :: 0 <= i < |r| ==> '\n' !in r[i]
  {
    if text == [] then [""]
    else
      var rest := Lines(text[1..]);
      if text[0] == '\n' then [""] + rest else [[text[0]] + rest[0]] + rest[1..]
  }

  /** The characters `str.isspace()` accepts, which `str.strip()` removes:
      the ASCII controls 9-13 and 28-31, the space, NEL, NBSP and the
      Unicode space separators and line/paragraph separators. */
  predicate IsSpace(c: char)
  {
    var n := c as int;
    (9 <= n <= 13) || (28 <= n <= 32) || n == 0x85 || n == 0xA0 || n == 0x1680 ||
    (0x2000 <= n <= 0x200A) || n == 0x2028 || n == 0x2029 || n == 0x202F || n == 0x205F || n == 0x3000
  }

  function StripStart(s: string): (r: string)
    ensures r == [] || !IsSpace(r[0])
    ensures |r| <= |s| && r == s[|s| - |r|..]
    ensures forall k :: 0 <= k < |s| - |r| ==> IsSpace(s[k])
  {
    if s != [] && IsSpace(s[0]) then StripStart(s[1..]) else s
  }

  function StripEnd(s: string): (r: string)
    ensures r == [] || !IsSpace(r[|r| - 1])
    ensures |r| <= |s| && r == s[..|r|]
    ensures forall k :: |r| <= k < |s| ==> IsSpace(s[k])
  {
    if s != [] && IsSpace(s[|s| - 1]) then StripEnd(s[..|s| - 1]) else s
  }

  /** `str.strip()`. */
  function Strip(s: string): (r: string)
    ensures r == [] || (!IsSpace(r[0]) && !IsSpace(r[|r| - 1]))
  {
    var t := StripStart(s);
    var r := StripEnd(t);
    assert r != [] ==> r[0] == t[0];
    r
  }

  /** `Strip(s)` is the slice of `s` left after its leading and trailing
      whitespace: everything outside the slice is whitespace, and the slice
      neither starts nor ends with it. */
  lemma StripIsTrimmedSlice(s: string) returns (i: nat, j: nat)
    ensures i <= j <= |s| && Strip(s) == s[i..j]
    ensures forall k :: 0 <= k < i ==> IsSpace(s[k])
    ensures forall k :: j <= k < |s| ==> IsSpace(s[k])
  {
    var t := StripStart(s);
    var r := StripEnd(t);
    i := |s| - |t|;
    j := i + |r|;
    forall k | j <= k < |s|
      ensures IsSpace(s[k])
    {
      assert s[k] == t[k - i];
    }
    assert s[i..j] == t[..|r|];
  }

  /** A stripped line that reads as a bullet ("-" or "•") or one of the
      first three numbered points ("1.", "2.", "3."). */
  predicate IsInsight(line: string)
  {
    line != [] &&
    (line[0] == '-' || line[0] == '•' ||
     (|line| >= 2 && line[1] == '.' && (line[0] == '1' || line[0] == '2' || line[0] == '3')))
  }

  /** Each line of the reply, stripped. */
  function StripAll(lines: seq<string>): (r: seq<string>)
    ensures |r| == |lines| && forall k :: 0 <= k < |lines| ==> r[k] == Strip(lines[k])
  {
    seq(|lines|, k requires 0 <= k < |lines| => Strip(lines[k]))
  }

  /** The stripped lines that read as insights, in order. */
  function KeepInsights(xs: seq<string>): (r: seq<string>)
    ensures |r| <= |xs|
  {
    if xs == [] then []
    else
      var last := xs[|xs| - 1];
      KeepInsights(xs[..|xs| - 1]) + (if IsInsight(last) then [last] else [])
  }

  /** The insight lines among `lines`, stripped, in order. */
  function Insights(lines: seq<string>): seq<string>
  {
    KeepInsights(StripAll(lines))
  }

  /** Every kept line reads as an insight. */
  lemma {:induction false} InsightsSound(xs: seq<string>)
    ensures forall k :: 0 <= k < |KeepInsights(xs)| ==> IsInsight(KeepInsights(xs)[k])
  {
    if xs != [] {
      InsightsSound(xs[..|xs| - 1]);
    }
  }

  /** A stripped line that reads as an insight is kept. */
  lemma {:induction false} InsightKept(xs: seq<string>, i: nat)
    requires i < |xs| && IsInsight(xs[i])
    ensures xs[i] in KeepInsights(xs)
  {
    var n := |xs| - 1;
    if i < n {
      assert xs[..n][i] == xs[i];
      InsightKept(xs[..n], i);
    }
  }

  lemma InsightsStep(xs: seq<string>, i: nat)
    requires i < |xs|
    ensures KeepInsights(xs[..i + 1]) == KeepInsights(xs[..i]) + (if IsInsight(xs[i]) then [xs[i]] else [])
  {
    assert xs[..i + 1][..i] == xs[..i];
  }

  const DefaultInsights: seq<string> := ["Monitor performance closely", "Consider strategy adjustments"]

  /** The loop over the reply's lines: each stripped line that reads as an
      insight is kept, in order. */
  method CollectInsights(lines: seq<string>) returns (insights: seq<string>)
    ensures insights == Insights(lines)
  {
    var xs := StripAll(lines);
    insights := [];
    var i := 0;
    while i < |xs|
      invariant 0 <= i <= |xs|
      invariant insights == KeepInsights(xs[..i])
    {
      InsightsStep(xs, i);
      insights := insights + (if IsInsight(xs[i]) then [xs[i]] else []);
      i := i + 1;
    }
    assert xs[..|xs|] == xs;
  }

  /** The insight filter of `generate_trading_insights`: the matching lines
      of the reply, or the two-item default when none match. */
  method FilterInsights(text: string) returns (insights: seq<string>)
    ensures Insights(Lines(text)) == [] ==> insights == DefaultInsights
    ensures Insights(Lines(text)) != [] ==> insights == Insights(Lines(text))
  {
    insights := CollectInsights(Lines(text));
    if insights == [] {
      insights := DefaultInsights;
    }
  }
}
