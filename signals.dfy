/** The vocabulary shared by the three strategy variants, the live position
    book and the backtester: directions, generator opinions, the indicator
    snapshot of one bar, fused decisions, and the exit rule for an open
    position. */
module Signals {
  import opened Common

  datatype Signal = Buy | Sell | Hold

  /** One generator's view: direction, confidence and rationale text. */
  datatype Opinion = Opinion(signal: Signal, confidence: real, reasoning: string)

  /** What every generator returns when a required indicator is undefined. */
  const Undecided := Opinion(Hold, 0.0, "")

  /** A generator's running confidence and its list of rationale parts. */
  datatype Tally = Tally(confidence: real, parts: seq<string>)

  const NoTally := Tally(0.0, [])

  /** `confidence += inc; reasoning_parts.append(part)`. */
  function Add(t: Tally, inc: real, part: string): (r: Tally)
    ensures r.confidence == t.confidence + inc && r.parts == t.parts + [part]
  {
    Tally(t.confidence + inc, t.parts + [part])
  }

  /** `"; ".join(parts) if parts else none`. */
  function Rationale(parts: seq<string>, none: string): (r: string)
    ensures parts == [] ==> r == none
    ensures |parts| == 1 ==> r == parts[0]
  {
    if parts == [] then none else Join(parts, "; ")
  }

  /** The indicator values of the latest bar; `None` is pandas NaN (warm-up). */
  datatype Snapshot = Snapshot(
    rsi: Option<real>,
    macd: Option<real>,
    macdSignal: Option<real>,
    macdHistogram: Option<real>,
    bbUpper: Option<real>,
    bbLower: Option<real>,
    bbMiddle: Option<real>,
    bbWidth: Option<real>,
    emaFast: Option<real>,
    emaSlow: Option<real>,
    volumeRatio: Option<real>,
    momentum5: Option<real>,
    stochK: Option<real>,
    stochD: Option<real>,
    williamsR: Option<real>)

  /** `(price - bb_lower) / (bb_upper - bb_lower)` in float64 arithmetic: a
      collapsed band gives +inf, -inf or NaN rather than an exception. */
  function BandPosition(s: Snapshot, price: real): Quotient
    requires s.bbUpper.Some? && s.bbLower.Some?
  {
    NpDiv(price - s.bbLower.value, s.bbUpper.value - s.bbLower.value)
  }

  /** On a band of positive width, the position is below `t` exactly when the
      price is below the level a fraction `t` of the way up the band. */
  lemma BandPositionBelow(s: Snapshot, price: real, t: real)
    requires s.bbUpper.Some? && s.bbLower.Some? && s.bbUpper.value > s.bbLower.value
    ensures QLess(BandPosition(s, price), t) <==>
            price < s.bbLower.value + t * (s.bbUpper.value - s.bbLower.value)
    ensures QGreater(BandPosition(s, price), t) <==>
            price > s.bbLower.value + t * (s.bbUpper.value - s.bbLower.value)
  {
    NpDivCompare(price - s.bbLower.value, s.bbUpper.value - s.bbLower.value, t);
  }

  /** `not isna(macd) and macd > macd_signal` (NaN signal line compares False). */
  predicate MacdAbove(s: Snapshot)
  {
    s.macd.Some? && s.macdSignal.Some? && s.macd.value > s.macdSignal.value
  }

  /** The dictionary a `_combine_signals` returns. */
  datatype Decision = Decision(
    signal: Signal,
    confidence: real,
    positionSize: real,
    stopLoss: Option<real>,
    takeProfit: Option<real>,
    reasoning: string)

  /** Stop-loss and take-profit levels around the entry price: below/above for
      a Buy, mirrored for a Sell, none for Hold. */
  function StopLevel(s: Signal, price: real, stopLossPct: real): (r: Option<real>)
    ensures s == Hold <==> r.None?
    ensures s == Buy ==> r == Some(price * (1.0 - stopLossPct))
    ensures s == Sell ==> r == Some(price * (1.0 + stopLossPct))
  {
    match s
    case Buy => Some(price * (1.0 - stopLossPct))
    case Sell => Some(price * (1.0 + stopLossPct))
    case Hold => None
  }

  function TargetLevel(s: Signal, price: real, takeProfitPct: real): (r: Option<real>)
    ensures s == Hold <==> r.None?
    ensures s == Buy ==> r == Some(price * (1.0 + takeProfitPct))
    ensures s == Sell ==> r == Some(price * (1.0 - takeProfitPct))
  {
    match s
    case Buy => Some(price * (1.0 + takeProfitPct))
    case Sell => Some(price * (1.0 - takeProfitPct))
    case Hold => None
  }

  /** For positive price and percentages, a Buy's stop lies below the entry
      and its target above; a Sell's the other way round. */
  lemma ProtectiveLevelsBracketEntry(s: Signal, price: real, sl: real, tp: real)
    requires price > 0.0 && sl > 0.0 && tp > 0.0
    ensures s == Buy ==> StopLevel(s, price, sl).value < price < TargetLevel(s, price, tp).value
    ensures s == Sell ==> TargetLevel(s, price, tp).value < price < StopLevel(s, price, sl).value
  {
  }

  /** The side string of a position: "BUY" for a Buy signal, "SELL" otherwise. */
  datatype Side = Long | Short

  function SideOf(s: Signal): Side
  {
    if s == Buy then Long else Short
  }

  /** Realised or unrealised P&L of `quantity` units entered at `entry` and
      valued at `exit`. */
  function Pnl(side: Side, entry: real, exit: real, quantity: real): (r: real)
    ensures side == Long ==> r == (exit - entry) * quantity
    ensures side == Short ==> r == (entry - exit) * quantity
  {
    if side == Long then (exit - entry) * quantity else (entry - exit) * quantity
  }

  /** A long and a short of the same size between the same prices mirror each
      other, and a position exited at its entry price makes nothing. */
  lemma PnlMirror(entry: real, exit: real, q: real)
    ensures Pnl(Long, entry, exit, q) == -Pnl(Short, entry, exit, q)
    ensures Pnl(Long, entry, entry, q) == 0.0 && Pnl(Short, entry, entry, q) == 0.0
  {
  }

  /** Why an open position is closed. */
  datatype ExitCause = StopLossHit | TakeProfitHit | ExitSignal(reasoning: string)

  /** The `reason` text recorded in the trade ledger. */
  function CauseText(c: ExitCause): string
  {
    match c
    case StopLossHit => "Stop loss hit"
    case TakeProfitHit => "Take profit hit"
    case ExitSignal(why) => "Exit signal: " + why
  }

  predicate StopHit(side: Side, stopLoss: Option<real>, price: real)
  {
    Truthy(stopLoss) && (if side == Long then price <= stopLoss.value else price >= stopLoss.value)
  }

  predicate TargetHit(side: Side, takeProfit: Option<real>, price: real)
  {
    Truthy(takeProfit) && (if side == Long then price >= takeProfit.value else price <= takeProfit.value)
  }

  /** A fused opinion that points against the open side. */
  predicate Opposes(side: Side, fused: Option<Opinion>)
  {
    fused.Some? && ((fused.value.signal == Sell && side == Long) || (fused.value.signal == Buy && side == Short))
  }

  /** The exit rule for an open position at `price`: stop-loss first, then
      take-profit, then an opposing fused signal (whose rationale is quoted).
      Protective levels that are None or 0.0 are ignored (Python truthiness). */
  function ExitReason(side: Side, stopLoss: Option<real>, takeProfit: Option<real>,
                      price: real, fused: Option<Opinion>): (r: Option<ExitCause>)
    ensures r == Some(StopLossHit) <==> StopHit(side, stopLoss, price)
    ensures r == Some(TakeProfitHit) <==> !StopHit(side, stopLoss, price) && TargetHit(side, takeProfit, price)
    ensures r.Some? && r.value.ExitSignal? <==>
      !StopHit(side, stopLoss, price) && !TargetHit(side, takeProfit, price) && Opposes(side, fused)
    ensures r.Some? && r.value.ExitSignal? ==> r.value.reasoning == fused.value.reasoning
  {
    if StopHit(side, stopLoss, price) then Some(StopLossHit)
    else if TargetHit(side, takeProfit, price) then Some(TakeProfitHit)
    else if Opposes(side, fused) then Some(ExitSignal(fused.value.reasoning))
    else None
  }

  /** Profit factor with an explicit constructor for "no losses". */
  datatype ProfitFactor = Finite(value: real) | Infinite
}
