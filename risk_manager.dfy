/** The risk manager: five sub-assessments of a proposed trade, a combined
    score capped at 100, the level it maps to, the position-size ceiling and
    adjustment that follow from the level, and the rolling histories
    (30 daily P&Ls, 100 positions) and correlation map the assessments
    read. Every sub-assessment catches its own exceptions (a zero portfolio
    value makes the divisions raise) and reports "not within limits". */
module Risk {
  import opened Common
  import Ledger

  datatype RiskLevel = Low | Medium | High | Critical

  /** The order of the levels. */
  function Rank(l: RiskLevel): nat
  {
    match l
    case Low => 0
    case Medium => 1
    case High => 2
    case Critical => 3
  }

  /** `_determine_risk_level`. */
  function LevelOf(score: real): (l: RiskLevel)
    ensures l == Critical <==> score >= 80.0
    ensures l == High <==> 60.0 <= score < 80.0
    ensures l == Medium <==> 40.0 <= score < 60.0
    ensures l == Low <==> score < 40.0
  {
    if score >= 80.0 then Critical
    else if score >= 60.0 then High
    else if score >= 40.0 then Medium
    else Low
  }

  /** A higher score never maps to a lower level. */
  lemma LevelMonotone(s1: real, s2: real)
    requires s1 <= s2
    ensures Rank(LevelOf(s1)) <= Rank(LevelOf(s2))
  {
  }

  /** One recorded position (`update_position_history`). */
  datatype PositionEntry = PositionEntry(symbol: string, size: real, price: real, side: string)

  /** `size * price`. */
  function Value(p: PositionEntry): real
  {
    p.size * p.price
  }

  function Values(ps: seq<PositionEntry>): (r: seq<real>)
    ensures |r| == |ps| && forall k :: 0 <= k < |ps| ==> r[k] == Value(ps[k])
  {
    seq(|ps|, k requires 0 <= k < |ps| => Value(ps[k]))
  }

  function Sizes(ps: seq<PositionEntry>): (r: seq<real>)
    ensures |r| == |ps| && forall k :: 0 <= k < |ps| ==> r[k] == ps[k].size
  {
    seq(|ps|, k requires 0 <= k < |ps| => ps[k].size)
  }

  // ---------------------------------------------------------------------
  // Portfolio metrics
  // ---------------------------------------------------------------------

  /** `RiskMetrics` without the VaR and Sharpe figures. */
  datatype Metrics = Metrics(
    portfolioValue: real,
    totalExposure: real,
    maxDrawdown: real,
    maxPositionSize: real,
    correlationRisk: real,
    concentrationRisk: real,
    liquidityRisk: real)

  /** The metrics returned when their computation raises. */
  function ZeroMetrics(pv: real, maxPositionSize: real): Metrics
  {
    Metrics(pv, 0.0, 0.0, maxPositionSize, 0.0, 0.0, 0.0)
  }

  /** `_calculate_portfolio_metrics`: exposure, the drawdown of the cumulative
      daily P&L from its running maximum, the largest position's share of
      the total value, a count-based correlation figure and total size over
      portfolio value (which raises for a zero portfolio value when a
      position is recorded, giving the all-zero metrics). */
  function MetricsOf(ps: seq<PositionEntry>, daily: seq<real>, maxPositionSize: real, pv: real): (m: Metrics)
    ensures m.portfolioValue == pv && m.maxPositionSize == maxPositionSize
    ensures m.maxDrawdown >= 0.0
    ensures 0.0 <= m.correlationRisk <= 0.5
    ensures m.liquidityRisk <= 0.3
    ensures ps != [] && pv == 0.0 ==> m == ZeroMetrics(pv, maxPositionSize)
    ensures pv != 0.0 || ps == [] ==> m.totalExposure == Sum(Values(ps))
    ensures pv != 0.0 || ps == [] ==>
      m.maxDrawdown == (if daily == [] then 0.0 else Ledger.DrawdownFromFirst(daily)) &&
      m.concentrationRisk == ConcentrationOf(ps) &&
      m.correlationRisk == CorrelationOf(|ps|) && m.liquidityRisk == LiquidityOf(ps, pv)
  {
    if ps != [] && pv == 0.0 then ZeroMetrics(pv, maxPositionSize)
    else
      var dd := if daily == [] then 0.0 else Ledger.DrawdownFromFirst(daily);
      Metrics(pv, Sum(Values(ps)), dd, maxPositionSize, CorrelationOf(|ps|), ConcentrationOf(ps), LiquidityOf(ps, pv))
  }

  /** The largest position value over the total value (0 when there is no
      positive total). */
  function ConcentrationOf(ps: seq<PositionEntry>): real
  {
    if ps == [] then 0.0
    else if Sum(Values(ps)) > 0.0 then MaxOf(Values(ps)) / Sum(Values(ps))
    else 0.0
  }

  /** A tenth per recorded position, from two positions on, capped at 0.5. */
  function CorrelationOf(n: nat): (r: real)
    ensures 0.0 <= r <= 0.5
    ensures n <= 1 ==> r == 0.0
  {
    if n > 1 then Min((n as real) * 0.1, 0.5) else 0.0
  }

  /** Total recorded size over the portfolio value, capped at 0.3. */
  function LiquidityOf(ps: seq<PositionEntry>, pv: real): (r: real)
    requires ps == [] || pv != 0.0
    ensures r <= 0.3
  {
    if ps == [] then 0.0 else Min(Sum(Sizes(ps)) / pv, 0.3)
  }

  /** With no short (negative-value) positions, the concentration figure is
      a fraction between 0 and 1. */
  lemma ConcentrationIsFraction(ps: seq<PositionEntry>)
    requires forall k :: 0 <= k < |ps| ==> Value(ps[k]) >= 0.0
    ensures 0.0 <= ConcentrationOf(ps) <= 1.0
  {
    if ps != [] {
      MaxAtMostSum(Values(ps));
      if Sum(Values(ps)) > 0.0 {
        QuotientAtMostOne(MaxOf(Values(ps)), Sum(Values(ps)));
      }
    }
  }

  /** The largest of non-negative values is at most their sum. */
  lemma {:induction false} MaxAtMostSum(xs: seq<real>)
    requires xs != [] && forall k :: 0 <= k < |xs| ==> xs[k] >= 0.0
    ensures MaxOf(xs) <= Sum(xs)
    ensures Sum(xs) >= 0.0
  {
    if |xs| > 1 {
      var init := xs[..|xs| - 1];
      assert forall k :: 0 <= k < |init| ==> init[k] == xs[k];
      MaxAtMostSum(init);
    } else {
      assert xs[..0] == [];
    }
  }

  lemma QuotientAtMostOne(a: real, b: real)
    requires b > 0.0 && 0.0 <= a <= b
    ensures 0.0 <= a / b <= 1.0
  {
  }

  // ---------------------------------------------------------------------
  // Sub-assessments
  // ---------------------------------------------------------------------

  /** The two entries of a sub-assessment the score and guidance read:
      `within_limits` and the magnitude the score weighs (0 when absent). */
  datatype Check = Check(withinLimits: bool, magnitude: real)

  /** What a sub-assessment returns when its computation raises. */
  const Failed := Check(false, 0.0)

  /** The configured limits the assessments compare against. */
  datatype Limits = Limits(maxDailyLoss: real, maxPositionRisk: real, maxPositionSize: real)

  /** `_assess_individual_trade_risk`: the position's share of the portfolio
      and 2% of it as the risk per trade (the weighed magnitude). */
  function TradeRisk(lim: Limits, proposedSize: real, price: real, pv: real): (c: Check)
    ensures pv == 0.0 ==> c == Failed
    ensures pv != 0.0 ==> c.magnitude == proposedSize * price / pv * 0.02
    ensures pv != 0.0 ==> (c.withinLimits <==>
      proposedSize * price / pv <= lim.maxPositionSize && c.magnitude <= lim.maxPositionRisk)
  {
    if pv == 0.0 then Failed
    else
      var pct := proposedSize * price / pv;
      var riskPerTrade := pct * 0.02;
      Check(pct <= lim.maxPositionSize && riskPerTrade <= lim.maxPositionRisk, riskPerTrade)
  }

  /** `_assess_portfolio_risk`: exposure and drawdown over the portfolio
      value (the exposure is the weighed magnitude). */
  function PortfolioRisk(lim: Limits, m: Metrics): (c: Check)
    ensures m.portfolioValue == 0.0 ==> c == Failed
    ensures m.portfolioValue != 0.0 ==> c.magnitude == m.totalExposure / m.portfolioValue
    ensures m.portfolioValue != 0.0 ==> (c.withinLimits <==>
      c.magnitude <= 1.0 && m.maxDrawdown / m.portfolioValue <= lim.maxDailyLoss && m.concentrationRisk <= 0.3)
  {
    if m.portfolioValue == 0.0 then Failed
    else
      var exposure := m.totalExposure / m.portfolioValue;
      var drawdown := m.maxDrawdown / m.portfolioValue;
      Check(exposure <= 1.0 && drawdown <= lim.maxDailyLoss && m.concentrationRisk <= 0.3, exposure)
  }

  /** The counterparts of `symbol` correlated beyond 0.7 in absolute value. */
  function HighlyCorrelated(correlations: map<string, real>): set<string>
  {
    set k | k in correlations && Abs(correlations[k]) > 0.7
  }

  /** `_assess_correlation_risk`: a tenth per highly correlated counterpart,
      capped at 0.5, so it is always within the 0.7 limit. */
  function CorrelationRisk(matrix: map<string, map<string, real>>, symbol: string): (c: Check)
    ensures c.withinLimits
    ensures 0.0 <= c.magnitude <= 0.5
    ensures symbol !in matrix ==> c.magnitude == 0.0
    ensures symbol in matrix ==> c.magnitude == Min((|HighlyCorrelated(matrix[symbol])| as real) * 0.1, 0.5)
  {
    var risk := if symbol in matrix then Min((|HighlyCorrelated(matrix[symbol])| as real) * 0.1, 0.5) else 0.0;
    Check(risk <= 0.7, risk)
  }

  /** The portfolio share of one recorded position. */
  function Share(p: PositionEntry, pv: real): real
    requires pv != 0.0
  {
    p.size * p.price / pv
  }

  /** The summed shares of the recorded positions in `symbol`. */
  function SymbolShare(ps: seq<PositionEntry>, symbol: string, pv: real): real
    requires pv != 0.0
  {
    if ps == [] then 0.0
    else
      SymbolShare(ps[..|ps| - 1], symbol, pv) +
      (if ps[|ps| - 1].symbol == symbol then Share(ps[|ps| - 1], pv) else 0.0)
  }

  /** `_assess_concentration_risk`: the recorded and proposed share of one
      symbol, capped at 1; within limits up to 20%. */
  function ConcentrationRisk(ps: seq<PositionEntry>, symbol: string, proposedSize: real, pv: real): (c: Check)
    ensures pv == 0.0 ==> c == Failed
    ensures c.magnitude <= 1.0
    ensures pv != 0.0 ==> c.magnitude == Min(SymbolShare(ps, symbol, pv) + proposedSize * 1.0 / pv, 1.0)
    ensures c.withinLimits <==> pv != 0.0 && c.magnitude <= 0.2
  {
    if pv == 0.0 then Failed
    else
      var risk := Min(SymbolShare(ps, symbol, pv) + proposedSize * 1.0 / pv, 1.0);
      Check(risk <= 0.2, risk)
  }

  /** `np.cumsum(xs)`. */
  function PrefixSums(xs: seq<real>): (r: seq<real>)
    ensures |r| == |xs| && forall k :: 0 <= k < |xs| ==> r[k] == Sum(xs[..k + 1])
  {
    seq(|xs|, k requires 0 <= k < |xs| => Sum(xs[..k + 1]))
  }

  /** The number of negative P&Ls at the end of `xs`, counted backwards until
      the first non-negative one. */
  function TrailingLosses(xs: seq<real>): (n: nat)
    ensures n <= |xs|
    ensures forall k :: |xs| - n <= k < |xs| ==> xs[k] < 0.0
    ensures n < |xs| ==> xs[|xs| - 1 - n] >= 0.0
  {
    if xs == [] || xs[|xs| - 1] >= 0.0 then 0
    else
      var init := xs[..|xs| - 1];
      assert forall k :: 0 <= k < |init| ==> init[k] == xs[k];
      TrailingLosses(init) + 1
  }

  const MaxConsecutiveLosses: nat := 5

  /** `_assess_drawdown_risk`: with five or more daily P&Ls, the spread of
      the cumulative sum over the last five (per 1000 of capital) and the run
      of losses ending the history. */
  function DrawdownRisk(lim: Limits, daily: seq<real>): (c: Check)
    ensures |daily| < 5 ==> c == Check(true, 0.0)
    ensures c.magnitude >= 0.0
    ensures |daily| >= 5 ==> (c.withinLimits <==>
      c.magnitude <= lim.maxDailyLoss && TrailingLosses(daily[|daily| - 5..]) < MaxConsecutiveLosses)
  {
    if |daily| < 5 then Check(true, 0.0)
    else
      var recent := daily[|daily| - 5..];
      var cumulative := PrefixSums(recent);
      var maxDrawdown := MaxOf(cumulative) - MinOf(cumulative);
      var losses := TrailingLosses(recent);
      var risk := maxDrawdown / 1000.0;
      Check(risk <= lim.maxDailyLoss && losses < MaxConsecutiveLosses, risk)
  }

  /** Five losing days in a row put the drawdown assessment out of limits. */
  lemma FiveLossesOutOfLimits(lim: Limits, daily: seq<real>)
    requires |daily| >= 5 && forall k :: |daily| - 5 <= k < |daily| ==> daily[k] < 0.0
    ensures !DrawdownRisk(lim, daily).withinLimits
  {
    AllLossesTrail(daily[|daily| - 5..]);
  }

  /** A history of losses only is one run of losses. */
  lemma {:induction false} AllLossesTrail(xs: seq<real>)
    requires forall k :: 0 <= k < |xs| ==> xs[k] < 0.0
    ensures TrailingLosses(xs) == |xs|
  {
    if xs != [] {
      var init := xs[..|xs| - 1];
      assert forall k :: 0 <= k < |init| ==> init[k] == xs[k];
      AllLossesTrail(init);
    }
  }

  // ---------------------------------------------------------------------
  // Score, guidance, ceilings
  // ---------------------------------------------------------------------

  /** The fixed penalties of the sub-assessments that are out of limits. */
  function Penalties(trade: Check, portfolio: Check, correlation: Check, concentration: Check, drawdown: Check): (p: real)
    ensures 0.0 <= p <= 100.0
    ensures p == 0.0 <==> trade.withinLimits && portfolio.withinLimits && correlation.withinLimits &&
                          concentration.withinLimits && drawdown.withinLimits
  {
    (if trade.withinLimits then 0.0 else 30.0) +
    (if portfolio.withinLimits then 0.0 else 25.0) +
    (if correlation.withinLimits then 0.0 else 20.0) +
    (if concentration.withinLimits then 0.0 else 15.0) +
    (if drawdown.withinLimits then 0.0 else 10.0)
  }

  /** `_calculate_combined_risk_score`: penalties plus weighted magnitudes,
      capped at 100. */
  function CombinedScore(trade: Check, portfolio: Check, correlation: Check, concentration: Check, drawdown: Check): (s: real)
    ensures s <= 100.0
    ensures var raw := Penalties(trade, portfolio, correlation, concentration, drawdown) +
                       trade.magnitude * 100.0 + portfolio.magnitude * 50.0 + correlation.magnitude * 100.0 +
                       concentration.magnitude * 100.0 + drawdown.magnitude * 100.0;
            s == Min(raw, 100.0)
    ensures trade.magnitude >= 0.0 && portfolio.magnitude >= 0.0 && correlation.magnitude >= 0.0 &&
            concentration.magnitude >= 0.0 && drawdown.magnitude >= 0.0 ==>
            s >= Penalties(trade, portfolio, correlation, concentration, drawdown)
  {
    var score := Penalties(trade, portfolio, correlation, concentration, drawdown);
    var score' := score + trade.magnitude * 100.0 + portfolio.magnitude * 50.0 + correlation.magnitude * 100.0 +
                  concentration.magnitude * 100.0 + drawdown.magnitude * 100.0;
    Min(score', 100.0)
  }

  /** `_generate_risk_guidance`: one warning and one recommendation for a
      high or critical level, and one of each per sub-assessment out of
      limits, in a fixed order. */
  function Guidance(level: RiskLevel, checks: seq<Check>, texts: seq<(string, string)>): (r: (seq<string>, seq<string>))
    requires |texts| == |checks|
    ensures |r.0| == |r.1|
    ensures |r.0| == (if level == Critical || level == High then 1 else 0) + Failing(checks)
    ensures level == Critical ==>
      r.0[0] == "CRITICAL RISK: Trade should be avoided" && r.1[0] == "Reduce position size or avoid trade entirely"
    ensures level == High ==>
      r.0[0] == "HIGH RISK: Significant risk detected" && r.1[0] == "Consider reducing position size"
    ensures var h := if level == Critical || level == High then 1 else 0;
      r.0[h..] == Specific(checks, texts).0 && r.1[h..] == Specific(checks, texts).1
  {
    var head: (seq<string>, seq<string>) :=
      if level == Critical then (["CRITICAL RISK: Trade should be avoided"], ["Reduce position size or avoid trade entirely"])
      else if level == High then (["HIGH RISK: Significant risk detected"], ["Consider reducing position size"])
      else ([], []);
    var tail := Specific(checks, texts);
    (head.0 + tail.0, head.1 + tail.1)
  }

  /** The number of sub-assessments out of limits. */
  function Failing(checks: seq<Check>): (n: nat)
    ensures n <= |checks|
  {
    if checks == [] then 0 else (if checks[0].withinLimits then 0 else 1) + Failing(checks[1..])
  }

  /** The warning/recommendation pairs of the checks out of limits, in the
      checks' order. */
  function Specific(checks: seq<Check>, texts: seq<(string, string)>): (r: (seq<string>, seq<string>))
    requires |texts| == |checks|
    ensures |r.0| == |r.1| == Failing(checks)
    ensures Covers(checks, texts, r) && FromFailing(checks, texts, r)
  {
    if checks == [] then ([], [])
    else
      var rest := Specific(checks[1..], texts[1..]);
      var r := if checks[0].withinLimits then rest else ([texts[0].0] + rest.0, [texts[0].1] + rest.1);
      SpecificStep(checks, texts, rest, r);
      r
  }

  /** Every check out of limits contributes its warning and its
      recommendation. */
  predicate Covers(checks: seq<Check>, texts: seq<(string, string)>, r: (seq<string>, seq<string>))
    requires |texts| == |checks|
  {
    forall k :: 0 <= k < |checks| && !checks[k].withinLimits ==> texts[k].0 in r.0 && texts[k].1 in r.1
  }

  /** Every warning, with the recommendation beside it, is the pair of a
      check out of limits. */
  predicate FromFailing(checks: seq<Check>, texts: seq<(string, string)>, r: (seq<string>, seq<string>))
    requires |texts| == |checks|
  {
    |r.0| == |r.1| &&
    forall j :: 0 <= j < |r.0| ==>
      exists k :: 0 <= k < |checks| && !checks[k].withinLimits && r.0[j] == texts[k].0 && r.1[j] == texts[k].1
  }

  lemma SpecificStep(checks: seq<Check>, texts: seq<(string, string)>, rest: (seq<string>, seq<string>),
                     r: (seq<string>, seq<string>))
    requires |texts| == |checks| > 0
    requires Covers(checks[1..], texts[1..], rest) && FromFailing(checks[1..], texts[1..], rest)
    requires r == if checks[0].withinLimits then rest else ([texts[0].0] + rest.0, [texts[0].1] + rest.1)
    ensures Covers(checks, texts, r) && FromFailing(checks, texts, r)
  {
    CoversStep(checks, texts, rest, r);
    FromFailingStep(checks, texts, rest, r);
  }

  lemma CoversStep(checks: seq<Check>, texts: seq<(string, string)>, rest: (seq<string>, seq<string>),
                   r: (seq<string>, seq<string>))
    requires |texts| == |checks| > 0
    requires Covers(checks[1..], texts[1..], rest)
    requires r == if checks[0].withinLimits then rest else ([texts[0].0] + rest.0, [texts[0].1] + rest.1)
    ensures Covers(checks, texts, r)
  {
    forall k | 0 <= k < |checks| && !checks[k].withinLimits
      ensures texts[k].0 in r.0 && texts[k].1 in r.1
    {
      if k > 0 {
        assert checks[1..][k - 1] == checks[k] && texts[1..][k - 1] == texts[k];
        assert texts[k].0 in rest.0 && texts[k].1 in rest.1;
      }
    }
  }

  lemma FromFailingStep(checks: seq<Check>, texts: seq<(string, string)>, rest: (seq<string>, seq<string>),
                        r: (seq<string>, seq<string>))
    requires |texts| == |checks| > 0
    requires FromFailing(checks[1..], texts[1..], rest)
    requires r == if checks[0].withinLimits then rest else ([texts[0].0] + rest.0, [texts[0].1] + rest.1)
    ensures FromFailing(checks, texts, r)
  {
    var d := if checks[0].withinLimits then 0 else 1;
    forall j | 0 <= j < |r.0|
      ensures exists k :: 0 <= k < |checks| && !checks[k].withinLimits && r.0[j] == texts[k].0 && r.1[j] == texts[k].1
    {
      if j < d {
        assert !checks[0].withinLimits && r.0[j] == texts[0].0 && r.1[j] == texts[0].1;
      } else {
        assert r.0[j] == rest.0[j - d] && r.1[j] == rest.1[j - d];
        var k :| 0 <= k < |checks| - 1 && !checks[1..][k].withinLimits &&
                 rest.0[j - d] == texts[1..][k].0 && rest.1[j - d] == texts[1..][k].1;
        assert !checks[k + 1].withinLimits && r.0[j] == texts[k + 1].0 && r.1[j] == texts[k + 1].1;
      }
    }
  }

  /** The warning/recommendation pairs of the five sub-assessments. */
  const GuidanceTexts: seq<(string, string)> := [
    ("Position size exceeds individual trade limits", "Reduce position size to within risk limits"),
    ("Portfolio risk limits exceeded", "Reduce overall portfolio exposure"),
    ("High correlation risk detected", "Diversify across uncorrelated assets"),
    ("Concentration risk too high", "Reduce position size in this asset"),
    ("Drawdown risk detected", "Consider reducing risk or taking a break")]

  /** `_calculate_position_adjustments`: the proposed size scaled down by
      level (nothing for critical), then halved above 5% drawdown and cut by
      30% above 20% concentration. */
  function PositionAdjustment(level: RiskLevel, proposedSize: real, m: Metrics): (r: real)
    ensures level == Critical ==> r == 0.0
    ensures proposedSize >= 0.0 ==> 0.0 <= r <= proposedSize
    ensures proposedSize >= 0.0 && level == High ==> r <= proposedSize * 0.5
  {
    var base :=
      match level
      case Critical => 0.0
      case High => proposedSize * 0.5
      case Medium => proposedSize * 0.75
      case Low => proposedSize;
    var afterDrawdown := if m.maxDrawdown > 0.05 then base * 0.5 else base;
    if m.concentrationRisk > 0.2 then afterDrawdown * 0.7 else afterDrawdown
  }

  /** `_calculate_max_position_size`: the configured maximum scaled by level
      (nothing for critical, at most 80% otherwise), halved above 3% drawdown
      and cut by 30% above 15% concentration. */
  function MaxNewPositionSize(level: RiskLevel, maxPositionSize: real, m: Metrics): (r: real)
    ensures level == Critical ==> r == 0.0
    ensures maxPositionSize >= 0.0 ==> 0.0 <= r <= 0.8 * maxPositionSize
    ensures maxPositionSize >= 0.0 && m.maxDrawdown > 0.03 ==> r <= 0.4 * maxPositionSize
  {
    if level == Critical then 0.0
    else
      var base :=
        match level
        case High => maxPositionSize * 0.3
        case Medium => maxPositionSize * 0.6
        case _ => maxPositionSize * 0.8;
      var afterDrawdown := if m.maxDrawdown > 0.03 then base * 0.5 else base;
      if m.concentrationRisk > 0.15 then afterDrawdown * 0.7 else afterDrawdown
  }

  /** A riskier level never allows a larger position, for both the ceiling
      and the adjustment. */
  lemma SizesShrinkWithLevel(l1: RiskLevel, l2: RiskLevel, proposedSize: real, maxPositionSize: real, m: Metrics)
    requires Rank(l1) <= Rank(l2) && proposedSize >= 0.0 && maxPositionSize >= 0.0
    ensures PositionAdjustment(l2, proposedSize, m) <= PositionAdjustment(l1, proposedSize, m)
    ensures MaxNewPositionSize(l2, maxPositionSize, m) <= MaxNewPositionSize(l1, maxPositionSize, m)
  {
  }

  // ---------------------------------------------------------------------
  // The assessment
  // ---------------------------------------------------------------------

  /** `RiskAssessment`; the adjustment dict's only entry is a size. */
  datatype Assessment = Assessment(
    level: RiskLevel,
    score: real,
    warnings: seq<string>,
    recommendations: seq<string>,
    adjustedSize: real,
    maxNewPositionSize: real)

  /** `assess_trade_risk` over the manager's state. */
  function AssessmentOf(lim: Limits, ps: seq<PositionEntry>, daily: seq<real>,
                        matrix: map<string, map<string, real>>,
                        symbol: string, proposedSize: real, price: real, pv: real): (a: Assessment)
    ensures a.score <= 100.0
    ensures a.level == LevelOf(a.score)
    ensures |a.warnings| == |a.recommendations|
    ensures a.level == Critical ==> a.adjustedSize == 0.0 && a.maxNewPositionSize == 0.0
    ensures pv == 0.0 ==> a.score >= 70.0 && (a.level == High || a.level == Critical)
  {
    var m := MetricsOf(ps, daily, lim.maxPositionSize, pv);
    var trade := TradeRisk(lim, proposedSize, price, pv);
    var portfolio := PortfolioRisk(lim, m);
    var correlation := CorrelationRisk(matrix, symbol);
    var concentration := ConcentrationRisk(ps, symbol, proposedSize, pv);
    var drawdown := DrawdownRisk(lim, daily);
    var score := CombinedScore(trade, portfolio, correlation, concentration, drawdown);
    var level := LevelOf(score);
    var g := Guidance(level, [trade, portfolio, correlation, concentration, drawdown], GuidanceTexts);
    Assessment(level, score, g.0, g.1, PositionAdjustment(level, proposedSize, m),
               MaxNewPositionSize(level, lim.maxPositionSize, m))
  }

  /** `_create_high_risk_assessment` as written: level HIGH with score 80,
      although the level mapping sends 80 to CRITICAL. */
  function FailSafeAsWritten(reason: string): (a: Assessment)
    ensures a.maxNewPositionSize == 0.0 && a.adjustedSize == 0.0
    ensures a.warnings == [reason]
  {
    Assessment(High, 80.0, [reason], ["Avoid trade", "Review risk parameters"], 0.0, 0.0)
  }

  /** The fail-safe's level disagrees with its own score. */
  lemma FailSafeLevelDisagrees(reason: string)
    ensures FailSafeAsWritten(reason).level == High
    ensures LevelOf(FailSafeAsWritten(reason).score) == Critical
  {
  }

  /** The fail-safe with the level its score maps to. */
  function FailSafe(reason: string): (a: Assessment)
    ensures a.level == LevelOf(a.score) == Critical
    ensures a.maxNewPositionSize == 0.0 && a.adjustedSize == 0.0
    ensures a.warnings == [reason]
  {
    Assessment(LevelOf(80.0), 80.0, [reason], ["Avoid trade", "Review risk parameters"], 0.0, 0.0)
  }

  // ---------------------------------------------------------------------
  // The manager
  // ---------------------------------------------------------------------

  /** One pass over the recorded positions: the largest value, the total
      value and the total size. */
  method PositionTotals(ps: seq<PositionEntry>) returns (maxPosition: real, totalValue: real, totalSize: real)
    requires ps != []
    ensures maxPosition == MaxOf(Values(ps))
    ensures totalValue == Sum(Values(ps))
    ensures totalSize == Sum(Sizes(ps))
  {
    TotalsStart(ps);
    maxPosition, totalValue, totalSize := Value(ps[0]), Value(ps[0]), ps[0].size;
    var j := 1;
    while j < |ps|
      invariant 1 <= j <= |ps|
      invariant maxPosition == MaxOf(Values(ps[..j]))
      invariant totalValue == Sum(Values(ps[..j]))
      invariant totalSize == Sum(Sizes(ps[..j]))
    {
      TotalsStep(ps, j);
      maxPosition := Max(maxPosition, Value(ps[j]));
      totalValue := totalValue + Value(ps[j]);
      totalSize := totalSize + ps[j].size;
      j := j + 1;
    }
    assert ps[..|ps|] == ps;
  }

  lemma TotalsStart(ps: seq<PositionEntry>)
    requires ps != []
    ensures MaxOf(Values(ps[..1])) == Value(ps[0])
    ensures Sum(Values(ps[..1])) == Value(ps[0]) && Sum(Sizes(ps[..1])) == ps[0].size
  {
    assert Values(ps[..1]) == [Value(ps[0])] && Sizes(ps[..1]) == [ps[0].size];
    assert Sum([Value(ps[0])]) == Value(ps[0]) by { assert [Value(ps[0])][..0] == []; }
    assert Sum([ps[0].size]) == ps[0].size by { assert [ps[0].size][..0] == []; }
  }

  lemma TotalsStep(ps: seq<PositionEntry>, j: nat)
    requires 1 <= j < |ps|
    ensures MaxOf(Values(ps[..j + 1])) == Max(MaxOf(Values(ps[..j])), Value(ps[j]))
    ensures Sum(Values(ps[..j + 1])) == Sum(Values(ps[..j])) + Value(ps[j])
    ensures Sum(Sizes(ps[..j + 1])) == Sum(Sizes(ps[..j])) + ps[j].size
  {
    assert Values(ps[..j + 1]) == Values(ps[..j]) + [Value(ps[j])];
    assert Sizes(ps[..j + 1]) == Sizes(ps[..j]) + [ps[j].size];
    assert Values(ps[..j + 1])[..j] == Values(ps[..j]);
    SumAppend(Values(ps[..j]), Value(ps[j]));
    SumAppend(Sizes(ps[..j]), ps[j].size);
  }

  const DailyWindow: nat := 30
  const PositionWindow: nat := 100

  class RiskManager {
    const limits: Limits
    var dailyPnlHistory: seq<real>
    var positionHistory: seq<PositionEntry>
    var correlationMatrix: map<string, map<string, real>>

    /** The rolling histories never exceed their windows. */
    ghost predicate Valid()
      reads this
    {
      |dailyPnlHistory| <= DailyWindow && |positionHistory| <= PositionWindow
    }

    constructor(maxDailyLoss: real, riskPerTrade: real, maxPositionSize: real)
      ensures Valid()
      ensures limits == Limits(maxDailyLoss, riskPerTrade, maxPositionSize)
      ensures dailyPnlHistory == [] && positionHistory == [] && correlationMatrix == map[]
    {
      limits := Limits(maxDailyLoss, riskPerTrade, maxPositionSize);
      dailyPnlHistory := [];
      positionHistory := [];
      correlationMatrix := map[];
    }

    /** `update_position_history`: append, then keep the last 100. */
    method UpdatePositionHistory(symbol: string, size: real, price: real, side: string)
      requires Valid()
      modifies this
      ensures Valid()
      ensures positionHistory == Last(old(positionHistory) + [PositionEntry(symbol, size, price, side)], PositionWindow)
      ensures positionHistory[|positionHistory| - 1] == PositionEntry(symbol, size, price, side)
      ensures dailyPnlHistory == old(dailyPnlHistory) && correlationMatrix == old(correlationMatrix)
    {
      positionHistory := positionHistory + [PositionEntry(symbol, size, price, side)];
      if |positionHistory| > PositionWindow {
        positionHistory := positionHistory[|positionHistory| - PositionWindow..];
      }
    }

    /** `update_daily_pnl`: append, then keep the last 30. */
    method UpdateDailyPnl(pnl: real)
      requires Valid()
      modifies this
      ensures Valid()
      ensures dailyPnlHistory == Last(old(dailyPnlHistory) + [pnl], DailyWindow)
      ensures dailyPnlHistory[|dailyPnlHistory| - 1] == pnl
      ensures positionHistory == old(positionHistory) && correlationMatrix == old(correlationMatrix)
    {
      dailyPnlHistory := dailyPnlHistory + [pnl];
      if |dailyPnlHistory| > DailyWindow {
        dailyPnlHistory := dailyPnlHistory[|dailyPnlHistory| - DailyWindow..];
      }
    }

    /** `update_correlation_matrix`: replaces the row of `symbol`. */
    method UpdateCorrelationMatrix(symbol: string, correlations: map<string, real>)
      requires Valid()
      modifies this
      ensures Valid()
      ensures correlationMatrix == old(correlationMatrix)[symbol := correlations]
      ensures dailyPnlHistory == old(dailyPnlHistory) && positionHistory == old(positionHistory)
    {
      correlationMatrix := correlationMatrix[symbol := correlations];
    }

    /** The concentration loop of `_assess_concentration_risk`. */
    method AssessConcentration(symbol: string, proposedSize: real, pv: real) returns (c: Check)
      ensures c == ConcentrationRisk(positionHistory, symbol, proposedSize, pv)
    {
      var current := 0.0;
      var i := 0;
      while i < |positionHistory|
        invariant 0 <= i <= |positionHistory|
        invariant pv != 0.0 ==> current == SymbolShare(positionHistory[..i], symbol, pv)
      {
        var position := positionHistory[i];
        assert positionHistory[..i + 1][..i] == positionHistory[..i];
        if position.symbol == symbol {
          if pv == 0.0 {
            return Failed;
          }
          current := current + Share(position, pv);
        }
        i := i + 1;
      }
      if pv == 0.0 {
        return Failed;
      }
      assert positionHistory[..|positionHistory|] == positionHistory;
      var risk := Min(current + proposedSize * 1.0 / pv, 1.0);
      c := Check(risk <= 0.2, risk);
    }

    /** The loops of `_calculate_portfolio_metrics`. */
    method PortfolioMetrics(pv: real) returns (m: Metrics)
      ensures m == MetricsOf(positionHistory, dailyPnlHistory, limits.maxPositionSize, pv)
    {
      var ps := positionHistory;
      var totalExposure := 0.0;
      var i := 0;
      while i < |ps|
        invariant 0 <= i <= |ps|
        invariant totalExposure == Sum(Values(ps[..i]))
      {
        assert Values(ps[..i + 1]) == Values(ps[..i]) + [Value(ps[i])];
        SumAppend(Values(ps[..i]), Value(ps[i]));
        totalExposure := totalExposure + Value(ps[i]);
        i := i + 1;
      }
      assert ps[..|ps|] == ps;
      var maxDrawdown := if dailyPnlHistory == [] then 0.0 else Ledger.DrawdownFromFirst(dailyPnlHistory);
      var concentration := 0.0;
      var liquidity := 0.0;
      if ps != [] {
        var maxPosition, totalValue, totalSize := PositionTotals(ps);
        concentration := if totalValue > 0.0 then maxPosition / totalValue else 0.0;
        if pv == 0.0 {
          return ZeroMetrics(pv, limits.maxPositionSize);
        }
        liquidity := Min(totalSize / pv, 0.3);
      }
      m := Metrics(pv, totalExposure, maxDrawdown, limits.maxPositionSize, CorrelationOf(|ps|), concentration, liquidity);
    }

    /** `assess_trade_risk` (the side of the trade does not enter it). */
    method AssessTradeRisk(symbol: string, proposedSize: real, price: real, pv: real) returns (a: Assessment)
      ensures a == AssessmentOf(limits, positionHistory, dailyPnlHistory, correlationMatrix, symbol, proposedSize, price, pv)
    {
      var m := PortfolioMetrics(pv);
      var trade := TradeRisk(limits, proposedSize, price, pv);
      var portfolio := PortfolioRisk(limits, m);
      var correlation := CorrelationRisk(correlationMatrix, symbol);
      var concentration := AssessConcentration(symbol, proposedSize, pv);
      var drawdown := DrawdownRisk(limits, dailyPnlHistory);
      var score := CombinedScore(trade, portfolio, correlation, concentration, drawdown);
      var level := LevelOf(score);
      var g := Guidance(level, [trade, portfolio, correlation, concentration, drawdown], GuidanceTexts);
      a := Assessment(level, score, g.0, g.1, PositionAdjustment(level, proposedSize, m),
                      MaxNewPositionSize(level, limits.maxPositionSize, m));
    }
  }
}
