/** The trading engine's main loop, one iteration at a time: which periodic
    tasks are due at a tick, the clocks they leave behind, the confidence
    gate in front of execution, and the total-return figure. Times are whole
    seconds; the work each periodic job does belongs to the module that models it. */
module Engine {
  import opened Common
  import opened Signals
  import opened EvolvingStrategy

  /** The work one iteration of the loop can start, in the order it checks
      them. */
  datatype Task = GenerateSignals | MonitorPositions | EvolveStrategy | AnalyzePerformance | LogStatus

  /** The `last_*` timestamps of the four periodic tasks. */
  datatype Clocks = Clocks(signals: int, monitor: int, evolve: int, analyze: int)

  /** Seconds between two runs of a periodic task. */
  function Period(t: Task): (r: nat)
    ensures r > 0 <==> t != LogStatus
  {
    match t
    case GenerateSignals => 300
    case MonitorPositions => 60
    case EvolveStrategy => 3600
    case AnalyzePerformance => 21600
    case LogStatus => 0
  }

  function LastRun(c: Clocks, t: Task): int
    requires t != LogStatus
  {
    match t
    case GenerateSignals => c.signals
    case MonitorPositions => c.monitor
    case EvolveStrategy => c.evolve
    case AnalyzePerformance => c.analyze
  }

  /** A periodic task is due once its period has elapsed since its last run. */
  predicate Due(c: Clocks, now: int, t: Task)
    requires t != LogStatus
  {
    now - LastRun(c, t) >= Period(t)
  }

  function IfDue(c: Clocks, now: int, t: Task): seq<Task>
    requires t != LogStatus
  {
    if Due(c, now, t) then [t] else []
  }

  /** The periodic tasks a tick at `now` runs, in the loop's order. */
  function DueTasks(c: Clocks, now: int): (r: seq<Task>)
    ensures forall t :: t != LogStatus ==> (t in r <==> Due(c, now, t))
    ensures LogStatus !in r && |r| <= 4
  {
    IfDue(c, now, GenerateSignals) + IfDue(c, now, MonitorPositions) + IfDue(c, now, EvolveStrategy) +
    IfDue(c, now, AnalyzePerformance)
  }

  function Stamp(c: Clocks, now: int, t: Task): int
    requires t != LogStatus
  {
    if Due(c, now, t) then now else LastRun(c, t)
  }

  /** The clocks after a tick at `now`: a task that ran is stamped with
      `now`, every other clock is left as it was. */
  function Advance(c: Clocks, now: int): (r: Clocks)
    ensures forall t :: t != LogStatus ==> LastRun(r, t) == (if Due(c, now, t) then now else LastRun(c, t))
  {
    Clocks(Stamp(c, now, GenerateSignals), Stamp(c, now, MonitorPositions), Stamp(c, now, EvolveStrategy),
           Stamp(c, now, AnalyzePerformance))
  }

  /** Nothing is due right after a tick, so a second tick at the same time
      runs no periodic task and leaves the clocks alone. */
  lemma NothingDueAfterTick(c: Clocks, now: int)
    ensures DueTasks(Advance(c, now), now) == []
    ensures Advance(Advance(c, now), now) == Advance(c, now)
  {
    var a := Advance(c, now);
    forall t | t != LogStatus
      ensures !Due(a, now, t)
    {
      assert Period(t) > 0;
    }
    assert !Due(a, now, GenerateSignals) && !Due(a, now, MonitorPositions);
    assert !Due(a, now, EvolveStrategy) && !Due(a, now, AnalyzePerformance);
  }

  /** A task that runs at `t1` does not run again at any tick before a full
      period has passed. */
  lemma NoRerunWithinPeriod(c: Clocks, t1: int, t2: int, t: Task)
    requires t != LogStatus && Due(c, t1, t)
    requires t2 < t1 + Period(t)
    ensures t !in DueTasks(Advance(c, t1), t2)
  {
  }

  /** A task overdue at a tick runs at that tick, and its clock moves
      forward to the tick's time. */
  lemma OverdueTaskRuns(c: Clocks, now: int, t: Task)
    requires t != LogStatus && now >= LastRun(c, t) + Period(t)
    ensures t in DueTasks(c, now)
    ensures LastRun(Advance(c, now), t) == now > LastRun(c, t)
  {
    assert Period(t) > 0;
  }

  /** The status report runs when the minute of the hour is a multiple of
      30. */
  predicate StatusMinute(now: int)
  {
    (now / 60) % 60 % 30 == 0
  }

  /** The signals `_generate_and_execute_signals` hands to execution: those
      with confidence above 0.7, in their order. */
  function Executable(sigs: seq<TradeSignal>): (r: seq<TradeSignal>)
    ensures forall s :: s in r <==> s in sigs && s.decision.confidence > 0.7
    ensures |r| <= |sigs|
  {
    if sigs == [] then []
    else
      var last := sigs[|sigs| - 1];
      Executable(sigs[..|sigs| - 1]) + (if last.decision.confidence > 0.7 then [last] else [])
  }

  /** The symbols of a list of signals. */
  function Symbols(sigs: seq<TradeSignal>): set<string>
  {
    set k | 0 <= k < |sigs| :: sigs[k].symbol
  }

  /** The total return in percent; a zero initial balance raises
      ZeroDivisionError. */
  function TotalReturn(current: real, initial: real): (r: Result<real>)
    ensures r.Err? <==> initial == 0.0
    ensures r.Err? ==> r.error == ZeroDivision
  {
    if initial == 0.0 then Err(ZeroDivision) else Ok((current - initial) / initial * 100.0)
  }

  /** The total return tells the current balance back from the initial one:
      its sign is the sign of the gain, and the initial balance grown by it
      is the current balance. */
  lemma TotalReturnRecoversBalance(current: real, initial: real)
    requires initial > 0.0
    ensures TotalReturn(current, initial).Ok?
    ensures TotalReturn(current, initial).value > 0.0 <==> current > initial
    ensures TotalReturn(current, initial).value == 0.0 <==> current == initial
    ensures initial + initial * TotalReturn(current, initial).value / 100.0 == current
  {
    var q := (current - initial) / initial;
    assert q * initial == current - initial;
    assert q > 0.0 <==> current > initial by {
      if current > initial {
        assert q * initial > 0.0;
      } else {
        assert q * initial <= 0.0;
      }
    }
  }

  class TradingEngine {
    var clocks: Clocks
    var currentBalance: real
    const initialBalance: real

    /** The engine as constructed: every clock at the start time and the
        current balance equal to the configured capital. */
    constructor(start: int, initialCapital: real)
      ensures clocks == Clocks(start, start, start, start)
      ensures currentBalance == initialCapital && initialBalance == initialCapital
    {
      clocks := Clocks(start, start, start, start);
      currentBalance := initialCapital;
      initialBalance := initialCapital;
    }

    /** One pass of `_main_trading_loop` at time `now`. The due tasks run in
        order and are stamped; then the balance is fetched (`balance`, None
        when the exchange call raises). A failed fetch skips the rest of the
        pass and the loop sleeps 30 seconds instead of 10. */
    method Tick(now: int, balance: Option<real>) returns (ran: seq<Task>, pause: nat)
      modifies this
      ensures clocks == Advance(old(clocks), now)
      ensures ran == DueTasks(old(clocks), now) + (if balance.Some? && StatusMinute(now) then [LogStatus] else [])
      ensures currentBalance == (if balance.Some? then balance.value else old(currentBalance))
      ensures pause == (if balance.Some? then 10 else 30)
    {
      var c := clocks;
      ran := [];
      if now - clocks.signals >= 300 {
        ran := ran + [GenerateSignals];
        clocks := clocks.(signals := now);
      }
      assert ran == IfDue(c, now, GenerateSignals) && clocks.signals == Stamp(c, now, GenerateSignals);
      if now - clocks.monitor >= 60 {
        ran := ran + [MonitorPositions];
        clocks := clocks.(monitor := now);
      }
      assert ran == IfDue(c, now, GenerateSignals) + IfDue(c, now, MonitorPositions);
      assert clocks.monitor == Stamp(c, now, MonitorPositions);
      if now - clocks.evolve >= 3600 {
        ran := ran + [EvolveStrategy];
        clocks := clocks.(evolve := now);
      }
      assert ran == IfDue(c, now, GenerateSignals) + IfDue(c, now, MonitorPositions) + IfDue(c, now, EvolveStrategy);
      assert clocks.evolve == Stamp(c, now, EvolveStrategy);
      if now - clocks.analyze >= 21600 {
        ran := ran + [AnalyzePerformance];
        clocks := clocks.(analyze := now);
      }
      assert clocks.analyze == Stamp(c, now, AnalyzePerformance);
      assert ran == DueTasks(c, now);
      assert clocks == Advance(c, now);
      if balance.None? {
        return ran, 30;
      }
      currentBalance := balance.value;
      if (now / 60) % 60 % 30 == 0 {
        ran := ran + [LogStatus];
      }
      pause := 10;
    }

    /** The execution gate: each signal above 0.7 confidence is passed to
        the strategy's `execute_signal`, in order; the others are skipped.
        `balance` and `stepSize` stand for the exchange's answers at each
        call, `orderPlaced` and `recorded` for whether its order and the
        database writes succeed. The new positions and their insertion
        order are those `execute_signal` leaves after each gated signal in
        turn. */
    method ExecuteSignals(book: PositionBook, sigs: seq<TradeSignal>, balance: TradeSignal -> real,
                          stepSize: TradeSignal -> real, orderPlaced: TradeSignal -> bool,
                          recorded: TradeSignal -> bool)
      returns (attempted: seq<TradeSignal>)
      requires book.Valid()
      modifies book
      ensures book.Valid()
      ensures attempted == Executable(sigs)
      ensures book.history == old(book.history)
      ensures (book.positions, book.order) ==
        AfterSignals(old(book.positions), old(book.order), attempted, balance, stepSize, orderPlaced)
      ensures book.positions.Keys == old(book.positions).Keys + GatedOpens(attempted, balance, stepSize, orderPlaced)
      ensures forall sym :: sym in old(book.positions) ==> book.positions[sym] == old(book.positions)[sym]
      ensures old(book.positions).Keys <= book.positions.Keys <= old(book.positions).Keys + Symbols(attempted)
    {
      attempted := RunGate(book, sigs, balance, stepSize, orderPlaced, recorded);
      ghost var after := AfterSignals(old(book.positions), old(book.order), attempted, balance, stepSize, orderPlaced);
      AfterSignalsOpens(old(book.positions), old(book.order), attempted, balance, stepSize, orderPlaced);
      GatedOpensAreSymbols(attempted, balance, stepSize, orderPlaced);
      assert book.positions == after.0;
    }
  }

  /** The gate's loop over the signals. */
  method RunGate(book: PositionBook, sigs: seq<TradeSignal>, balance: TradeSignal -> real,
                 stepSize: TradeSignal -> real, orderPlaced: TradeSignal -> bool,
                 recorded: TradeSignal -> bool)
    returns (attempted: seq<TradeSignal>)
    requires book.Valid()
    modifies book
    ensures book.Valid()
    ensures attempted == Executable(sigs)
    ensures book.history == old(book.history)
    ensures (book.positions, book.order) ==
      AfterSignals(old(book.positions), old(book.order), attempted, balance, stepSize, orderPlaced)
  {
    attempted := [];
    var i := 0;
    while i < |sigs|
      invariant 0 <= i <= |sigs|
      invariant book.Valid()
      invariant attempted == Executable(sigs[..i])
      invariant book.history == old(book.history)
      invariant (book.positions, book.order) ==
        AfterSignals(old(book.positions), old(book.order), attempted, balance, stepSize, orderPlaced)
    {
      attempted := GateStep(book, old(book.positions), old(book.order), sigs, i, attempted,
                            balance, stepSize, orderPlaced, recorded);
      i := i + 1;
    }
    assert sigs[..|sigs|] == sigs;
  }

  /** The signal `sigs[i]` at the gate: executed when its confidence is
      above 0.7, and then appended to the attempted ones. */
  method GateStep(book: PositionBook, ghost held: map<string, Position>, ghost order: seq<string>,
                  sigs: seq<TradeSignal>, i: nat, attempted: seq<TradeSignal>, balance: TradeSignal -> real,
                  stepSize: TradeSignal -> real, orderPlaced: TradeSignal -> bool,
                  recorded: TradeSignal -> bool)
    returns (next: seq<TradeSignal>)
    requires book.Valid()
    requires i < |sigs| && attempted == Executable(sigs[..i])
    requires (book.positions, book.order) == AfterSignals(held, order, attempted, balance, stepSize, orderPlaced)
    modifies book
    ensures book.Valid()
    ensures book.history == old(book.history)
    ensures next == Executable(sigs[..i + 1])
    ensures (book.positions, book.order) == AfterSignals(held, order, next, balance, stepSize, orderPlaced)
  {
    var sig := sigs[i];
    ExecutableStep(sigs, i);
    next := attempted;
    if sig.decision.confidence > 0.7 {
      ExecuteOne(book, sig, balance, stepSize, orderPlaced, recorded);
      AfterSignalsAppend(held, order, attempted, sig, balance, stepSize, orderPlaced);
      next := attempted + [sig];
    }
  }

  /** One call of `execute_signal`, its effect on the book stated as
      AfterSignal. */
  method ExecuteOne(book: PositionBook, sig: TradeSignal, balance: TradeSignal -> real,
                    stepSize: TradeSignal -> real, orderPlaced: TradeSignal -> bool,
                    recorded: TradeSignal -> bool)
    requires book.Valid()
    modifies book
    ensures book.Valid()
    ensures book.history == old(book.history)
    ensures (book.positions, book.order) == AfterSignal(old(book.positions), old(book.order), sig, balance, stepSize, orderPlaced)
  {
    var _ := book.ExecuteSignal(sig, balance(sig), stepSize(sig), orderPlaced(sig), recorded(sig));
  }

  lemma ExecutableStep(sigs: seq<TradeSignal>, i: nat)
    requires i < |sigs|
    ensures Executable(sigs[..i + 1]) ==
            Executable(sigs[..i]) + (if sigs[i].decision.confidence > 0.7 then [sigs[i]] else [])
  {
    assert sigs[..i + 1][..i] == sigs[..i];
  }

  /** Whether `execute_signal` opens a position for `s` on a book that does
      not hold its symbol yet: a positive quantity and an accepted order. */
  predicate Fills(s: TradeSignal, balance: TradeSignal -> real, stepSize: TradeSignal -> real,
                  orderPlaced: TradeSignal -> bool)
  {
    var q := OrderQuantity(balance(s), s.decision.positionSize, s.entryPrice, stepSize(s));
    q.Ok? && q.value > 0.0 && orderPlaced(s)
  }

  /** The positions and insertion order `execute_signal` leaves after `s`. */
  function AfterSignal(held: map<string, Position>, order: seq<string>, s: TradeSignal,
                       balance: TradeSignal -> real, stepSize: TradeSignal -> real,
                       orderPlaced: TradeSignal -> bool): (map<string, Position>, seq<string>)
  {
    if s.symbol !in held && Fills(s, balance, stepSize, orderPlaced) then
      var q := OrderQuantity(balance(s), s.decision.positionSize, s.entryPrice, stepSize(s));
      (held[s.symbol := Opened(s, q.value)], order + [s.symbol])
    else (held, order)
  }

  /** The positions and insertion order after each signal in turn. */
  function AfterSignals(held: map<string, Position>, order: seq<string>, sigs: seq<TradeSignal>,
                        balance: TradeSignal -> real, stepSize: TradeSignal -> real,
                        orderPlaced: TradeSignal -> bool): (map<string, Position>, seq<string>)
  {
    if sigs == [] then (held, order)
    else
      var prev := AfterSignals(held, order, sigs[..|sigs| - 1], balance, stepSize, orderPlaced);
      AfterSignal(prev.0, prev.1, sigs[|sigs| - 1], balance, stepSize, orderPlaced)
  }

  /** The symbols of the signals that fill. */
  function GatedOpens(sigs: seq<TradeSignal>, balance: TradeSignal -> real, stepSize: TradeSignal -> real,
                      orderPlaced: TradeSignal -> bool): set<string>
  {
    set k | 0 <= k < |sigs| && Fills(sigs[k], balance, stepSize, orderPlaced) :: sigs[k].symbol
  }

  /** Executing a list of signals adds exactly the symbols of the ones that
      fill to the held positions, and never replaces a position already
      held. */
  lemma {:induction false} AfterSignalsOpens(held: map<string, Position>, order: seq<string>, sigs: seq<TradeSignal>,
                                             balance: TradeSignal -> real, stepSize: TradeSignal -> real,
                                             orderPlaced: TradeSignal -> bool)
    ensures var r := AfterSignals(held, order, sigs, balance, stepSize, orderPlaced);
      r.0.Keys == held.Keys + GatedOpens(sigs, balance, stepSize, orderPlaced) &&
      forall sym :: sym in held ==> r.0[sym] == held[sym]
  {
    if sigs != [] {
      var init := sigs[..|sigs| - 1];
      var s := sigs[|sigs| - 1];
      AfterSignalsOpens(held, order, init, balance, stepSize, orderPlaced);
      GatedOpensAppend(init, s, balance, stepSize, orderPlaced);
      assert init + [s] == sigs;
    }
  }

  lemma GatedOpensAppend(sigs: seq<TradeSignal>, s: TradeSignal, balance: TradeSignal -> real,
                         stepSize: TradeSignal -> real, orderPlaced: TradeSignal -> bool)
    ensures GatedOpens(sigs + [s], balance, stepSize, orderPlaced) ==
            GatedOpens(sigs, balance, stepSize, orderPlaced) +
            (if Fills(s, balance, stepSize, orderPlaced) then {s.symbol} else {})
  {
    var r := sigs + [s];
    assert forall k :: 0 <= k < |sigs| ==> r[k] == sigs[k];
    assert r[|sigs|] == s;
  }

  lemma AfterSignalsAppend(held: map<string, Position>, order: seq<string>, sigs: seq<TradeSignal>, s: TradeSignal,
                           balance: TradeSignal -> real, stepSize: TradeSignal -> real,
                           orderPlaced: TradeSignal -> bool)
    ensures AfterSignals(held, order, sigs + [s], balance, stepSize, orderPlaced) ==
            var prev := AfterSignals(held, order, sigs, balance, stepSize, orderPlaced);
            AfterSignal(prev.0, prev.1, s, balance, stepSize, orderPlaced)
  {
    assert (sigs + [s])[..|sigs|] == sigs;
  }

  lemma GatedOpensAreSymbols(sigs: seq<TradeSignal>, balance: TradeSignal -> real, stepSize: TradeSignal -> real,
                             orderPlaced: TradeSignal -> bool)
    ensures GatedOpens(sigs, balance, stepSize, orderPlaced) <= Symbols(sigs)
  {
  }
}
