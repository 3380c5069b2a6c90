/** The trade logger behind the dashboard: the trades file and the
    performance file become two fields, logging a trade appends it and
    rebuilds the cumulative performance series, and the sample-trade helper
    computes a P&L by side. */
module TradeLog {
  import opened Common
  import opened Signals

  /** A logged trade; absent keys are None. */
  datatype LoggedTrade = LoggedTrade(symbol: Option<string>, side: Option<string>, pnl: Option<real>, timestamp: Option<string>)

  /** One entry of the performance file. */
  datatype PerformancePoint = PerformancePoint(
    timestamp: string,
    tradeNumber: nat,
    pnl: real,
    cumulativePnl: real,
    symbol: string,
    side: string)

  /** `trade.get('pnl', 0)` for each trade. */
  function PnlsOf(trades: seq<LoggedTrade>): (r: seq<real>)
    ensures |r| == |trades| && forall k :: 0 <= k < |trades| ==> r[k] == OrElse(trades[k].pnl, 0.0)
  {
    seq(|trades|, k requires 0 <= k < |trades| => OrElse(trades[k].pnl, 0.0))
  }

  /** The entry written for the trade at index `i`, numbered from 1 and
      carrying the P&L accumulated up to and including it. */
  function PointAt(trades: seq<LoggedTrade>, i: nat, now: string): (p: PerformancePoint)
    requires i < |trades|
    ensures p.tradeNumber == i + 1
    ensures p.pnl == OrElse(trades[i].pnl, 0.0)
    ensures p.cumulativePnl == Sum(PnlsOf(trades)[..i + 1])
  {
    var t := trades[i];
    PerformancePoint(OrElse(t.timestamp, now), i + 1, OrElse(t.pnl, 0.0), Sum(PnlsOf(trades)[..i + 1]),
                     OrElse(t.symbol, "Unknown"), OrElse(t.side, "Unknown"))
  }

  function PerformanceOf(trades: seq<LoggedTrade>, now: string): (r: seq<PerformancePoint>)
    ensures |r| == |trades| && forall k :: 0 <= k < |trades| ==> r[k] == PointAt(trades, k, now)
  {
    seq(|trades|, k requires 0 <= k < |trades| => PointAt(trades, k, now))
  }

  /** Consecutive entries of the series differ by exactly the later trade's
      P&L, and the last one carries the ledger's total. */
  lemma CumulativeSteps(trades: seq<LoggedTrade>, now: string, i: nat)
    requires 0 < i < |trades|
    ensures PerformanceOf(trades, now)[i].cumulativePnl ==
            PerformanceOf(trades, now)[i - 1].cumulativePnl + PerformanceOf(trades, now)[i].pnl
    ensures PerformanceOf(trades, now)[|trades| - 1].cumulativePnl == Sum(PnlsOf(trades))
  {
    var xs := PnlsOf(trades);
    assert xs[..i + 1] == xs[..i] + [xs[i]];
    SumAppend(xs[..i], xs[i]);
    assert xs[..|trades|] == xs;
  }

  /** `create_sample_trade`'s P&L for a given exit price (the random exit is
      not modelled): long for "BUY", short for any other side. */
  function SamplePnl(side: string, entryPrice: real, exitPrice: real, quantity: real): (r: real)
    ensures side == "BUY" ==> r == (exitPrice - entryPrice) * quantity
    ensures side != "BUY" ==> r == (entryPrice - exitPrice) * quantity
  {
    if side == "BUY" then (exitPrice - entryPrice) * quantity else (entryPrice - exitPrice) * quantity
  }

  /** The sample P&L is the strategy's own P&L rule, with "BUY" as the long
      side. */
  lemma SamplePnlIsTradePnl(side: string, entryPrice: real, exitPrice: real, quantity: real)
    ensures SamplePnl(side, entryPrice, exitPrice, quantity) ==
            Pnl(if side == "BUY" then Long else Short, entryPrice, exitPrice, quantity)
  {
  }

  class TradeLogger {
    /** The contents of the trades file. */
    var trades: seq<LoggedTrade>
    /** The contents of the performance file. */
    var performance: seq<PerformancePoint>

    /** `__init__` only names the two files; their contents are whatever
        an earlier run left there (empty for a fresh start). */
    constructor(existingTrades: seq<LoggedTrade>, existingPerformance: seq<PerformancePoint>)
      ensures trades == existingTrades && performance == existingPerformance
    {
      trades := existingTrades;
      performance := existingPerformance;
    }

    /** `update_performance_history`: nothing for an empty list, otherwise the
        series is rebuilt from the whole list. */
    method UpdatePerformanceHistory(ts: seq<LoggedTrade>, now: string)
      modifies this
      ensures ts == [] ==> performance == old(performance)
      ensures ts != [] ==> performance == PerformanceOf(ts, now)
      ensures trades == old(trades)
    {
      if ts == [] {
        return;
      }
      var cumulative := 0.0;
      var data: seq<PerformancePoint> := [];
      var i := 0;
      while i < |ts|
        invariant 0 <= i <= |ts|
        invariant trades == old(trades)
        invariant cumulative == Sum(PnlsOf(ts)[..i])
        invariant data == PerformanceOf(ts, now)[..i]
      {
        var t := ts[i];
        var pnl := OrElse(t.pnl, 0.0);
        assert PnlsOf(ts)[..i + 1] == PnlsOf(ts)[..i] + [pnl];
        SumAppend(PnlsOf(ts)[..i], pnl);
        cumulative := cumulative + pnl;
        data := data + [PerformancePoint(OrElse(t.timestamp, now), i + 1, pnl, cumulative,
                                         OrElse(t.symbol, "Unknown"), OrElse(t.side, "Unknown"))];
        assert PerformanceOf(ts, now)[..i + 1] == PerformanceOf(ts, now)[..i] + [PointAt(ts, i, now)];
        i := i + 1;
      }
      performance := data;
    }

    /** `log_trade`: stamps the trade if it has no timestamp, appends it at
        the end and rebuilds the performance series. */
    method LogTrade(t: LoggedTrade, now: string)
      modifies this
      ensures trades == old(trades) + [if t.timestamp.Some? then t else t.(timestamp := Some(now))]
      ensures performance == PerformanceOf(trades, now)
    {
      var stamped := if t.timestamp.Some? then t else t.(timestamp := Some(now));
      trades := trades + [stamped];
      UpdatePerformanceHistory(trades, now);
    }
  }
}
