/** The vote-based fusion shared by the optimized and the alternative
    strategy: every non-Hold opinion adds its weighted confidence to the
    total and to its side's votes; the decision is Hold below a confidence
    gate, otherwise the side with strictly more votes, a tie going to Sell. */
module VoteFusion {
  import opened Common
  import opened Signals

  /** One generator's opinion with its fixed weight and its title
      (`signal_name.title()`, e.g. "Mean_Reversion"). */
  datatype Ballot = Ballot(title: string, opinion: Opinion, weight: real)

  datatype Votes = Votes(total: real, buy: real, sell: real, parts: seq<string>)

  /** The accumulators after the loop has seen `ballots`. */
  function TallyOf(ballots: seq<Ballot>): Votes
  {
    if ballots == [] then Votes(0.0, 0.0, 0.0, [])
    else
      var v := TallyOf(ballots[..|ballots| - 1]);
      var b := ballots[|ballots| - 1];
      if b.opinion.signal == Hold then v
      else
        var c := b.opinion.confidence * b.weight;
        Votes(v.total + c,
              if b.opinion.signal == Buy then v.buy + c else v.buy,
              if b.opinion.signal == Buy then v.sell else v.sell + c,
              if b.opinion.reasoning != "" then v.parts + [b.title + ": " + b.opinion.reasoning] else v.parts)
  }

  /** The voting loop of `_combine_signals`. */
  method CountVotes(ballots: seq<Ballot>) returns (v: Votes)
    ensures v == TallyOf(ballots)
  {
    var total, buyVotes, sellVotes := 0.0, 0.0, 0.0;
    var parts: seq<string> := [];
    var i := 0;
    while i < |ballots|
      invariant 0 <= i <= |ballots|
      invariant Votes(total, buyVotes, sellVotes, parts) == TallyOf(ballots[..i])
    {
      assert ballots[..i + 1][..i] == ballots[..i];
      var b := ballots[i];
      if b.opinion.signal != Hold {
        var c := b.opinion.confidence * b.weight;
        total := total + c;
        if b.opinion.signal == Buy {
          buyVotes := buyVotes + c;
        } else {
          sellVotes := sellVotes + c;
        }
        if b.opinion.reasoning != "" {
          parts := parts + [b.title + ": " + b.opinion.reasoning];
        }
      }
      i := i + 1;
    }
    assert ballots[..|ballots|] == ballots;
    v := Votes(total, buyVotes, sellVotes, parts);
  }

  /** Number of ballots that vote (are not Hold). */
  function Voters(ballots: seq<Ballot>): (n: nat)
    ensures n <= |ballots|
  {
    if ballots == [] then 0
    else Voters(ballots[..|ballots| - 1]) + (if ballots[|ballots| - 1].opinion.signal != Hold then 1 else 0)
  }

  /** The weighted confidence a ballot contributes when it votes. */
  function Weighted(b: Ballot): real
  {
    if b.opinion.signal == Hold then 0.0 else b.opinion.confidence * b.weight
  }

  function SumWeighted(ballots: seq<Ballot>): real
  {
    if ballots == [] then 0.0 else SumWeighted(ballots[..|ballots| - 1]) + Weighted(ballots[|ballots| - 1])
  }

  /** The total is the sum of the buy and sell votes, and it is the weighted
      confidence of the non-Hold ballots only; each rationale part comes from
      a ballot that voted. */
  lemma {:induction false} TallyAccounts(ballots: seq<Ballot>)
    ensures var v := TallyOf(ballots);
      v.total == v.buy + v.sell && v.total == SumWeighted(ballots) && |v.parts| <= |ballots|
  {
    if ballots != [] {
      TallyAccounts(ballots[..|ballots| - 1]);
    }
  }

  /** When no ballot weighs more than `cap`, the total is at most `cap`
      times the number of ballots that vote. */
  lemma {:induction false} TotalAtMostVotersTimesCap(ballots: seq<Ballot>, cap: real)
    requires forall k :: 0 <= k < |ballots| ==> Weighted(ballots[k]) <= cap
    ensures SumWeighted(ballots) <= (Voters(ballots) as real) * cap
  {
    if ballots != [] {
      var init := ballots[..|ballots| - 1];
      assert forall k :: 0 <= k < |init| ==> init[k] == ballots[k];
      TotalAtMostVotersTimesCap(init, cap);
    }
  }

  /** With non-negative confidences and weights, neither side's votes are
      negative. */
  lemma {:induction false} VotesNonNegative(ballots: seq<Ballot>)
    requires forall k :: 0 <= k < |ballots| ==> ballots[k].opinion.confidence >= 0.0 && ballots[k].weight >= 0.0
    ensures TallyOf(ballots).buy >= 0.0 && TallyOf(ballots).sell >= 0.0
  {
    if ballots != [] {
      var init := ballots[..|ballots| - 1];
      assert forall k :: 0 <= k < |init| ==> init[k] == ballots[k];
      VotesNonNegative(init);
      var b := ballots[|ballots| - 1];
      assert b.opinion.confidence * b.weight >= 0.0;
    }
  }

  /** Hold below the gate; otherwise Buy only on strictly more buy votes. */
  function Decide(v: Votes, gate: real): (s: Signal)
    ensures s == Hold <==> v.total < gate
    ensures s == Buy <==> v.total >= gate && v.buy > v.sell
    ensures s == Sell <==> v.total >= gate && v.buy <= v.sell
  {
    if v.total < gate then Hold else if v.buy > v.sell then Buy else Sell
  }

  /** The fusion's fixed settings: gate, maximum position size and the
      stop-loss and take-profit percentages. */
  datatype FusionParams = FusionParams(gate: real, maxPositionSize: real, stopLossPct: real, takeProfitPct: real)

  /** `_combine_signals` with the entry price supplied. */
  function Fuse(fp: FusionParams, ballots: seq<Ballot>, price: real): (d: Decision)
    ensures var v := TallyOf(ballots);
      d.signal == Decide(v, fp.gate) && d.confidence == v.total
    ensures d.positionSize == Min(d.confidence * fp.maxPositionSize, fp.maxPositionSize)
    ensures fp.maxPositionSize >= 0.0 ==> d.positionSize <= fp.maxPositionSize
    ensures d.stopLoss == StopLevel(d.signal, price, fp.stopLossPct)
    ensures d.takeProfit == TargetLevel(d.signal, price, fp.takeProfitPct)
    ensures d.reasoning == Rationale(TallyOf(ballots).parts, "No clear signals")
  {
    var v := TallyOf(ballots);
    var signal := Decide(v, fp.gate);
    Decision(signal, v.total, Min(v.total * fp.maxPositionSize, fp.maxPositionSize),
             StopLevel(signal, price, fp.stopLossPct), TargetLevel(signal, price, fp.takeProfitPct),
             Rationale(v.parts, "No clear signals"))
  }

  /** `_combine_signals` as written: any Buy or Sell reads the undefined
      `current_price` and raises NameError. */
  function FuseAsWritten(fp: FusionParams, ballots: seq<Ballot>): (r: Result<Decision>)
    ensures r.Err? <==> Decide(TallyOf(ballots), fp.gate) != Hold
    ensures r.Err? ==> r.error == NameError("current_price")
    ensures r.Ok? ==> r.value.signal == Hold && r.value.stopLoss.None? && r.value.takeProfit.None?
  {
    var v := TallyOf(ballots);
    if Decide(v, fp.gate) != Hold then Err(NameError("current_price"))
    else Ok(Decision(Hold, v.total, Min(v.total * fp.maxPositionSize, fp.maxPositionSize),
                     None, None, Rationale(v.parts, "No clear signals")))
  }

  /** A ballot that holds changes nothing: in particular a generator that
      never sets a direction (the volume generators) never influences the
      decision, whatever its weight and confidence. */
  lemma HoldBallotIgnored(ballots: seq<Ballot>, b: Ballot)
    requires b.opinion.signal == Hold
    ensures TallyOf(ballots + [b]) == TallyOf(ballots)
  {
    assert (ballots + [b])[..|ballots|] == ballots;
  }
}
