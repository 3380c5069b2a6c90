/** Arithmetic over a sequence of trade P&Ls shared by every performance
    report in the system: win and loss counts, gross and mean win/loss,
    win rate, cumulative P&L and the two drawdown conventions (a running
    peak that starts at zero, and NumPy's running maximum of the cumulative
    sum, which starts at the first cumulative value). */
module Ledger {
  import opened Common

  /** `trade.get('pnl', 0)`: a ledger entry without a P&L counts as zero. */
  function PnlOrZero(p: Option<real>): real
  {
    if p.Some? then p.value else 0.0
  }

  function Pnls(trades: seq<Option<real>>): (r: seq<real>)
    ensures |r| == |trades|
    ensures forall i :: 0 <= i < |r| ==> r[i] == PnlOrZero(trades[i])
  {
    seq(|trades|, i requires 0 <= i < |trades| => PnlOrZero(trades[i]))
  }

  /** Number of strictly positive P&Ls. */
  function Wins(xs: seq<real>): (n: nat)
    ensures n <= |xs|
  {
    if xs == [] then 0
    else Wins(xs[..|xs| - 1]) + (if xs[|xs| - 1] > 0.0 then 1 else 0)
  }

  /** Number of strictly negative P&Ls. */
  function Losses(xs: seq<real>): (n: nat)
    ensures n <= |xs|
  {
    if xs == [] then 0
    else Losses(xs[..|xs| - 1]) + (if xs[|xs| - 1] < 0.0 then 1 else 0)
  }

  /** Sum of the strictly positive P&Ls. */
  function GrossWin(xs: seq<real>): (g: real)
    ensures g >= 0.0
    ensures g == 0.0 <==> Wins(xs) == 0
  {
    if xs == [] then 0.0
    else GrossWin(xs[..|xs| - 1]) + (if xs[|xs| - 1] > 0.0 then xs[|xs| - 1] else 0.0)
  }

  /** Sum of the strictly negative P&Ls (never positive). */
  function GrossLoss(xs: seq<real>): (g: real)
    ensures g <= 0.0
    ensures g == 0.0 <==> Losses(xs) == 0
  {
    if xs == [] then 0.0
    else GrossLoss(xs[..|xs| - 1]) + (if xs[|xs| - 1] < 0.0 then xs[|xs| - 1] else 0.0)
  }

  /** `np.mean(winners) if winners else 0`. */
  function MeanWin(xs: seq<real>): (m: real)
    ensures m >= 0.0
    ensures m > 0.0 <==> Wins(xs) > 0
  {
    if Wins(xs) == 0 then 0.0 else GrossWin(xs) / (Wins(xs) as real)
  }

  /** `np.mean(losers) if losers else 0`. */
  function MeanLoss(xs: seq<real>): (m: real)
    ensures m <= 0.0
    ensures m < 0.0 <==> Losses(xs) > 0
  {
    if Losses(xs) == 0 then 0.0 else GrossLoss(xs) / (Losses(xs) as real)
  }

  /** Percentage of strictly positive P&Ls; 0 for an empty ledger. */
  function WinRate(xs: seq<real>): (w: real)
    ensures 0.0 <= w <= 100.0
    ensures xs == [] ==> w == 0.0
    ensures w == 100.0 <==> xs != [] && Wins(xs) == |xs|
  {
    if |xs| == 0 then 0.0 else (Wins(xs) as real) / (|xs| as real) * 100.0
  }

  /** A P&L is positive, negative or zero, so winners and losers never
      outnumber the trades; zero-P&L trades are counted as neither. */
  lemma {:induction false} WinsPlusLossesBound(xs: seq<real>)
    ensures Wins(xs) + Losses(xs) <= |xs|
    ensures Wins(xs) + Losses(xs) == |xs| <==> forall i :: 0 <= i < |xs| ==> xs[i] != 0.0
  {
    if xs != [] {
      var init := xs[..|xs| - 1];
      WinsPlusLossesBound(init);
      assert forall i :: 0 <= i < |init| ==> init[i] == xs[i];
    }
  }

  /** The peak of the running P&L when the peak starts at zero. */
  function PeakFromZero(xs: seq<real>): (p: real)
    ensures p >= 0.0 && p >= Sum(xs)
  {
    if xs == [] then 0.0 else Max(PeakFromZero(xs[..|xs| - 1]), Sum(xs))
  }

  /** `max(peak - running_total)` over the prefixes, peak starting at zero. */
  function DrawdownFromZero(xs: seq<real>): (d: real)
    ensures d >= 0.0
    ensures d >= PeakFromZero(xs) - Sum(xs)
  {
    if xs == [] then 0.0
    else Max(DrawdownFromZero(xs[..|xs| - 1]), PeakFromZero(xs) - Sum(xs))
  }

  /** `np.maximum.accumulate(np.cumsum(xs))[-1]`: the running maximum of the
      cumulative P&L, which starts at the first cumulative value. */
  function PeakFromFirst(xs: seq<real>): (p: real)
    requires xs != []
    ensures p >= Sum(xs)
  {
    if |xs| == 1 then Sum(xs) else Max(PeakFromFirst(xs[..|xs| - 1]), Sum(xs))
  }

  /** `np.max(running_max - cumsum)`. */
  function DrawdownFromFirst(xs: seq<real>): (d: real)
    requires xs != []
    ensures d >= 0.0
    ensures d >= PeakFromFirst(xs) - Sum(xs)
  {
    if |xs| == 1 then PeakFromFirst(xs) - Sum(xs)
    else Max(DrawdownFromFirst(xs[..|xs| - 1]), PeakFromFirst(xs) - Sum(xs))
  }

  /** No prefix of the ledger ends further below its running peak than the
      reported drawdown. */
  lemma {:induction false} DrawdownFromFirstBounds(xs: seq<real>, k: nat)
    requires 0 < k <= |xs|
    ensures PeakFromFirst(xs[..k]) - Sum(xs[..k]) <= DrawdownFromFirst(xs)
    decreases |xs|
  {
    if k == |xs| {
      assert xs[..k] == xs;
    } else {
      var init := xs[..|xs| - 1];
      assert init[..k] == xs[..k];
      DrawdownFromFirstBounds(init, k);
    }
  }

  /** The reported drawdown is the fall below the running peak at the end
      of some prefix. */
  lemma {:induction false} DrawdownFromFirstAttained(xs: seq<real>) returns (k: nat)
    requires xs != []
    ensures 0 < k <= |xs| && DrawdownFromFirst(xs) == PeakFromFirst(xs[..k]) - Sum(xs[..k])
    decreases |xs|
  {
    assert xs[..|xs|] == xs;
    if |xs| == 1 || DrawdownFromFirst(xs) == PeakFromFirst(xs) - Sum(xs) {
      k := |xs|;
    } else {
      var init := xs[..|xs| - 1];
      k := DrawdownFromFirstAttained(init);
      assert init[..k] == xs[..k];
    }
  }

  /** The peak that starts at zero is at least every prefix's running
      total, the empty prefix's 0 included. */
  lemma {:induction false} PeakFromZeroBounds(xs: seq<real>, k: nat)
    requires k <= |xs|
    ensures Sum(xs[..k]) <= PeakFromZero(xs)
    ensures PeakFromZero(xs[..k]) <= PeakFromZero(xs)
    decreases |xs|
  {
    if k == |xs| {
      assert xs[..k] == xs;
    } else {
      var init := xs[..|xs| - 1];
      assert init[..k] == xs[..k];
      PeakFromZeroBounds(init, k);
    }
  }

  /** The peak that starts at zero is the running total of some prefix:
      the empty one (the starting 0) or the end of a trade. */
  lemma {:induction false} PeakFromZeroAttained(xs: seq<real>) returns (k: nat)
    ensures k <= |xs| && PeakFromZero(xs) == Sum(xs[..k])
    decreases |xs|
  {
    assert xs[..|xs|] == xs;
    if xs == [] || PeakFromZero(xs) == Sum(xs) {
      k := |xs|;
    } else {
      var init := xs[..|xs| - 1];
      k := PeakFromZeroAttained(init);
      assert init[..k] == xs[..k];
    }
  }

  /** No prefix of the ledger ends further below the zero-anchored peak than
      the reported drawdown. */
  lemma {:induction false} DrawdownFromZeroBounds(xs: seq<real>, k: nat)
    requires k <= |xs|
    ensures PeakFromZero(xs[..k]) - Sum(xs[..k]) <= DrawdownFromZero(xs)
    decreases |xs|
  {
    if k == |xs| {
      assert xs[..k] == xs;
    } else {
      var init := xs[..|xs| - 1];
      assert init[..k] == xs[..k];
      DrawdownFromZeroBounds(init, k);
    }
  }

  /** The reported drawdown is the fall below the zero-anchored peak at the
      end of some prefix (the empty prefix gives the 0 of a ledger that
      never falls). */
  lemma {:induction false} DrawdownFromZeroAttained(xs: seq<real>) returns (k: nat)
    ensures k <= |xs| && DrawdownFromZero(xs) == PeakFromZero(xs[..k]) - Sum(xs[..k])
    decreases |xs|
  {
    assert xs[..|xs|] == xs;
    if xs == [] || DrawdownFromZero(xs) == PeakFromZero(xs) - Sum(xs) {
      k := |xs|;
    } else {
      var init := xs[..|xs| - 1];
      k := DrawdownFromZeroAttained(init);
      assert init[..k] == xs[..k];
    }
  }

  /** The running peak that starts at zero is never below NumPy's running
      maximum, so the zero-anchored drawdown is at least the NumPy one;
      they differ exactly when the cumulative P&L starts below zero. */
  lemma {:induction false} PeakFromFirstAtMostFromZero(xs: seq<real>)
    requires xs != []
    ensures PeakFromFirst(xs) <= PeakFromZero(xs)
    ensures DrawdownFromFirst(xs) <= DrawdownFromZero(xs)
  {
    if |xs| > 1 {
      PeakFromFirstAtMostFromZero(xs[..|xs| - 1]);
    }
  }

  /** A ledger whose cumulative P&L never falls has no drawdown. */
  lemma {:induction false} NoDrawdownWhenNeverFalling(xs: seq<real>)
    requires forall i :: 0 <= i < |xs| ==> xs[i] >= 0.0
    ensures DrawdownFromZero(xs) == 0.0
    ensures PeakFromZero(xs) == Sum(xs)
  {
    if xs != [] {
      var init := xs[..|xs| - 1];
      assert forall i :: 0 <= i < |init| ==> init[i] == xs[i];
      NoDrawdownWhenNeverFalling(init);
    }
  }

  /** A ledger has no losing trade exactly when no P&L is negative. */
  lemma {:induction false} LossesZeroIffNoNegative(xs: seq<real>)
    ensures Losses(xs) == 0 <==> forall k :: 0 <= k < |xs| ==> xs[k] >= 0.0
  {
    if xs != [] {
      var init := xs[..|xs| - 1];
      LossesZeroIffNoNegative(init);
      assert forall k :: 0 <= k < |init| ==> init[k] == xs[k];
    }
  }

  /** A ledger has no winning trade exactly when no P&L is positive. */
  lemma {:induction false} WinsZeroIffNoPositive(xs: seq<real>)
    ensures Wins(xs) == 0 <==> forall k :: 0 <= k < |xs| ==> xs[k] <= 0.0
  {
    if xs != [] {
      var init := xs[..|xs| - 1];
      WinsZeroIffNoPositive(init);
      assert forall k :: 0 <= k < |init| ==> init[k] == xs[k];
    }
  }
}
