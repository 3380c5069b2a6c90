/** The safe-mode trading limits: each configured figure capped at a small
    constant, and the position size for a balance as the least of three
    bounds. */
module SafeTrading {
  import opened Common

  /** The configured figures the safe limits are derived from. */
  datatype Configured = Configured(initialCapital: real, maxPositionSize: real, riskPerTrade: real, maxDailyLoss: real)

  const MinTradeAmount: real := 2.0
  const MaxTradeAmount: real := 5.0

  /** The safe limits: each configured figure, capped. */
  datatype SafeLimits = SafeLimits(initialCapital: real, maxPositionSize: real, riskPerTrade: real, maxDailyLoss: real)

  function Limits(c: Configured): (s: SafeLimits)
    ensures s.initialCapital <= 10.0 && s.maxPositionSize <= 0.01 && s.riskPerTrade <= 0.005 && s.maxDailyLoss <= 0.01
    ensures s.initialCapital == Min(c.initialCapital, 10.0) && s.maxPositionSize == Min(c.maxPositionSize, 0.01)
    ensures s.riskPerTrade == Min(c.riskPerTrade, 0.005) && s.maxDailyLoss == Min(c.maxDailyLoss, 0.01)
    ensures c.initialCapital <= 10.0 ==> s.initialCapital == c.initialCapital
    ensures c.maxPositionSize <= 0.01 ==> s.maxPositionSize == c.maxPositionSize
  {
    SafeLimits(Min(c.initialCapital, 10.0), Min(c.maxPositionSize, 0.01), Min(c.riskPerTrade, 0.005),
               Min(c.maxDailyLoss, 0.01))
  }

  /** `balance * max_position_size`, named to keep the product opaque to
      the arithmetic below. */
  function ByPercentage(balance: real, fraction: real): real
  {
    balance * fraction
  }

  /** `get_safe_position_size`: the least of the percentage bound, the
      maximum trade amount and a tenth of the balance. */
  function SafePositionSize(c: Configured, balance: real): (r: real)
    ensures r <= MaxTradeAmount
    ensures r <= balance * 0.1
    ensures r <= ByPercentage(balance, Limits(c).maxPositionSize)
    ensures r == ByPercentage(balance, Limits(c).maxPositionSize) || r == MaxTradeAmount || r == balance * 0.1
  {
    Min(Min(ByPercentage(balance, Limits(c).maxPositionSize), MaxTradeAmount), balance * 0.1)
  }

  /** With a non-negative balance the safe size is at most 1% of it, since
      the percentage bound is capped at 0.01. */
  lemma SafeSizeAtMostOnePercent(c: Configured, balance: real)
    requires balance >= 0.0
    ensures SafePositionSize(c, balance) <= balance * 0.01
  {
    var f := Limits(c).maxPositionSize;
    assert ByPercentage(balance, f) <= balance * 0.01 by {
      ScaleMonotone(f, 0.01, balance);
    }
  }

  /** Below a balance of 200 the safe size stays under the minimum trade
      amount: the 1% cap leaves less than 2.0, so at any balance up to the
      capped initial capital of 10 no safe-sized trade clears the dust
      minimum. */
  lemma SafeSizeBelowMinimumTrade(c: Configured, balance: real)
    requires 0.0 <= balance < 200.0
    ensures SafePositionSize(c, balance) < MinTradeAmount
  {
    SafeSizeAtMostOnePercent(c, balance);
  }

  /** In particular at the safe initial capital. */
  lemma InitialCapitalTradesBelowMinimum(c: Configured)
    requires c.initialCapital >= 0.0
    ensures SafePositionSize(c, Limits(c).initialCapital) < MinTradeAmount
  {
    SafeSizeBelowMinimumTrade(c, Limits(c).initialCapital);
  }
}
