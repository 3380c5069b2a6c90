/** The ledger statistics shown on the dashboard (`get_trades_history` in
    the stats service, and its copy `get_real_trades_history` in the
    dashboard data updater): counts, win rate, averages that divide by
    max(count, 1), a profit factor that is 0 when there are no losses, and a
    drawdown measured from a running peak that starts at zero. */
module TradingStats {
  import opened Common
  import opened Ledger

  datatype TradeStats = TradeStats(
    totalTrades: nat,
    winningTrades: nat,
    losingTrades: nat,
    winRate: real,
    totalPnl: real,
    avgWin: real,
    avgLoss: real,
    profitFactor: real,
    maxDrawdown: real,
    maxDrawdownPct: real)

  const NoStats := TradeStats(0, 0, 0, 0.0, 0.0, 0.0, 0.0, 0.0, 0.0, 0.0)

  function MaxOne(n: nat): (r: real)
    ensures r >= 1.0
  {
    if n > 1 then n as real else 1.0
  }

  /** The statistics of a ledger whose P&Ls (missing ones already read as 0)
      are `xs`, against the configured initial capital. */
  function StatsOf(xs: seq<real>, initialCapital: real): (s: TradeStats)
    ensures xs == [] ==> s == NoStats
    ensures s.totalTrades == |xs|
    ensures s.winningTrades == Wins(xs) && s.losingTrades == Losses(xs)
    ensures s.winningTrades + s.losingTrades <= s.totalTrades
    ensures s.winRate == WinRate(xs) && 0.0 <= s.winRate <= 100.0
    ensures s.totalPnl == Sum(xs)
    ensures s.avgWin == MeanWin(xs) && s.avgLoss == MeanLoss(xs)
    ensures s.avgLoss == 0.0 ==> s.profitFactor == 0.0
    ensures s.avgLoss != 0.0 ==> s.profitFactor == Abs(s.avgWin / s.avgLoss)
    ensures s.maxDrawdown == DrawdownFromZero(xs) && s.maxDrawdown >= 0.0
    ensures initialCapital <= 0.0 ==> s.maxDrawdownPct == 0.0
    ensures initialCapital > 0.0 ==> s.maxDrawdownPct == s.maxDrawdown / initialCapital * 100.0
  {
    if xs == [] then NoStats
    else
      WinsPlusLossesBound(xs);
      var avgWin := GrossWin(xs) / MaxOne(Wins(xs));
      var avgLoss := GrossLoss(xs) / MaxOne(Losses(xs));
      var dd := DrawdownFromZero(xs);
      TradeStats(
        |xs|, Wins(xs), Losses(xs), WinRate(xs), Sum(xs), avgWin, avgLoss,
        if avgLoss != 0.0 then Abs(avgWin / avgLoss) else 0.0,
        dd,
        if initialCapital > 0.0 then dd / initialCapital * 100.0 else 0.0)
  }

  /** The statistics loop: one pass over the ledger accumulating counts,
      sums, the running total, its peak (starting at zero) and the largest
      drop below that peak. */
  method Accumulate(trades: seq<Option<real>>)
    returns (wins: nat, losses: nat, grossWin: real, grossLoss: real, runningTotal: real, maxDrawdown: real)
    ensures var xs := Pnls(trades);
      wins == Wins(xs) && losses == Losses(xs) && grossWin == GrossWin(xs) && grossLoss == GrossLoss(xs) &&
      runningTotal == Sum(xs) && maxDrawdown == DrawdownFromZero(xs)
  {
    ghost var xs := Pnls(trades);
    wins, losses := 0, 0;
    grossWin, grossLoss := 0.0, 0.0;
    var peak;
    runningTotal, peak, maxDrawdown := 0.0, 0.0, 0.0;
    var i := 0;
    while i < |trades|
      invariant 0 <= i <= |trades|
      invariant wins == Wins(xs[..i]) && losses == Losses(xs[..i])
      invariant grossWin == GrossWin(xs[..i]) && grossLoss == GrossLoss(xs[..i])
      invariant runningTotal == Sum(xs[..i])
      invariant peak == PeakFromZero(xs[..i])
      invariant maxDrawdown == DrawdownFromZero(xs[..i])
    {
      PrefixStep(xs, i);
      var pnl := PnlOrZero(trades[i]);
      assert pnl == xs[i];
      if pnl > 0.0 {
        wins := wins + 1;
        grossWin := grossWin + pnl;
      }
      assert wins == Wins(xs[..i + 1]) && grossWin == GrossWin(xs[..i + 1]);
      if pnl < 0.0 {
        losses := losses + 1;
        grossLoss := grossLoss + pnl;
      }
      assert losses == Losses(xs[..i + 1]) && grossLoss == GrossLoss(xs[..i + 1]);
      runningTotal := runningTotal + pnl;
      if runningTotal > peak {
        peak := runningTotal;
      }
      assert peak == PeakFromZero(xs[..i + 1]);
      var drawdown := peak - runningTotal;
      assert DrawdownFromZero(xs[..i + 1]) == Max(maxDrawdown, drawdown);
      if drawdown > maxDrawdown {
        maxDrawdown := drawdown;
      }
      assert maxDrawdown == DrawdownFromZero(xs[..i + 1]);
      i := i + 1;
    }
    assert xs[..|trades|] == xs;
  }

  /** The statistics of a ledger: the accumulated figures turned into rates,
      averages and ratios. */
  method LedgerStatistics(trades: seq<Option<real>>, initialCapital: real) returns (s: TradeStats)
    ensures s == StatsOf(Pnls(trades), initialCapital)
  {
    if trades == [] {
      return NoStats;
    }
    var wins, losses, grossWin, grossLoss, runningTotal, maxDrawdown := Accumulate(trades);
    var winRate := (wins as real) / (|trades| as real) * 100.0;
    var avgWin := grossWin / MaxOne(wins);
    var avgLoss := grossLoss / MaxOne(losses);
    var profitFactor := if avgLoss != 0.0 then Abs(avgWin / avgLoss) else 0.0;
    var pct := if initialCapital > 0.0 then maxDrawdown / initialCapital * 100.0 else 0.0;
    s := TradeStats(|trades|, wins, losses, winRate, runningTotal, avgWin, avgLoss,
                    profitFactor, maxDrawdown, pct);
  }

  /** How each accumulated figure changes when the ledger grows by one
      entry. */
  lemma PrefixStep(xs: seq<real>, i: nat)
    requires i < |xs|
    ensures var p, q := xs[..i], xs[..i + 1];
      Wins(q) == Wins(p) + (if xs[i] > 0.0 then 1 else 0) &&
      Losses(q) == Losses(p) + (if xs[i] < 0.0 then 1 else 0) &&
      GrossWin(q) == GrossWin(p) + (if xs[i] > 0.0 then xs[i] else 0.0) &&
      GrossLoss(q) == GrossLoss(p) + (if xs[i] < 0.0 then xs[i] else 0.0) &&
      Sum(q) == Sum(p) + xs[i] &&
      PeakFromZero(q) == Max(PeakFromZero(p), Sum(q)) &&
      DrawdownFromZero(q) == Max(DrawdownFromZero(p), PeakFromZero(q) - Sum(q))
  {
    var p, q := xs[..i], xs[..i + 1];
    assert q[..|q| - 1] == p && q[|q| - 1] == xs[i];
  }
}
