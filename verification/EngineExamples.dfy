/** Concrete runs: the engine does produce runs, and two places where a general claim needs its condition. */
module EngineExamples {
  import opened Common
  import opened BreakoutEngine
  import opened OrderBook
  import opened SignalRecords
  import opened StopReview

  /** Whenever the engine reaches its last session there is a run that records it. */
  lemma RunExists(k: Setup) returns (run: Run)
    requires Reaches(k, k.Last())
    ensures Produces(k, run)
  {
    forall t | k.First() <= t <= k.Last() ensures Reaches(k, t) {
      ReachesEarlier(k, t, k.Last());
    }
    var n, states := |k.bars|, StatesOf(k);
    run := Run(
      seq(n, t requires 0 <= t < n && n == |states| => if states[t].Some? then Some(states[t].value.mark) else None),
      seq(n, t requires 0 <= t < n && n == |states| => states[t].Some? && states[t].value.Desired()),
      seq(n, t requires 0 <= t < n && n == |states| => states[t].Some? && states[t].value.Held()),
      seq(n, t requires 0 <= t < n && n == |states| => if states[t].Some? then states[t].value.stop else None),
      seq(n, t requires 0 <= t < n && n == |states| => if states[t].Some? then states[t].value.level else None),
      At(k, k.Last()).Trades(), At(k, k.Last()).events);
    forall d | 0 <= d < n ensures Row(k, run, d, k.Last()) {
      assert IsStateOf(k, d, states[d]);
    }
  }

  /** The state after session `d`, if the run has that session. */
  ghost predicate IsStateOf(k: Setup, d: nat, s: Option<State>) {
    if k.First() <= d < k.Last() then Reaches(k, d + 1) && s == Some(At(k, d + 1)) else s == None
  }

  ghost function StatesOf(k: Setup): (states: seq<Option<State>>)
    requires forall t :: k.First() <= t <= k.Last() ==> Reaches(k, t)
    ensures |states| == |k.bars| && forall d :: 0 <= d < |states| ==> IsStateOf(k, d, states[d])
  {
    seq(|k.bars|, d requires 0 <= d < |k.bars| => if k.First() <= d < k.Last() then Some(At(k, d + 1)) else None)
  }

  function Bare(close: real, atr: Option<real>, cross: bool): Bar {
    Bar(100.0, close, 1.0, atr, None, if cross then Some(Crossing(100.0, 100.0)) else None, None)
  }

  function PlainRules(percent: bool): Rules {
    Rules(1, false, 1.0, 3.0, -1.0, percent, 6.0, 0.1, 0.0, false, 6.0, 2.0, 1.0, 1.0, 0, 2.0, 0, false, 1.0, 0, 0)
  }

  /** A breakout on session 1, then a session whose range is unknown. */
  function Thin(percent: bool, target: real): Setup {
    Setup([Bare(100.0, Some(1.0), false), Bare(101.0, Some(1.0), true), Bare(120.0, None, true)], PlainRules(percent), 0.0, target, 0, 1, 3)
  }

  const THIN_SIGNAL := Signal(Candidate(1, 1, 100.0, 100.0, false), 1, 1.0)

  /** After session 1: confirmed at once and queued. */
  function Queued1(): State {
    State(1.0, 0.0, BuyOrder(2, THIN_SIGNAL), None, None, None, -1, [], [Order(1, Buy, 2)], 1.0, None, Some(100.0))
  }

  lemma FirstScan(k: Setup)
    requires |k.bars| > 1 && k.bars[1] == Bare(101.0, Some(1.0), true) && k.rules.confirmSessions == 1 && k.delay == 0
    ensures Scan(k, InitialState(), 1) == Ok(Queued1())
  {
    var c := Candidate(1, 1, 100.0, 100.0, false);
    var none: Option<Continuation> := None;
    assert Surviving(k.rules, none, 1) == none;
    assert Fresh(k, none, 1) == Some(c);
    assert Confirms(k.rules, k.bars[1], c);
    var r := Scan(k, InitialState(), 1);
    assert r.Ok?;
    assert r.value.events == [Order(1, Buy, 2)];
    assert r.value.pending == BuyOrder(2, THIN_SIGNAL);
  }

  lemma FirstSession(percent: bool, target: real)
    requires target == 0.0 || target == 1.0
    ensures Thin(percent, target).Valid() && Session(Thin(percent, target), InitialState(), 1) == Ok(Queued1())
  {
    var k, s := Thin(percent, target), InitialState();
    assert Fill(k, s, 1) == s;
    FirstScan(k);
  }

  /** The purchase at session 2 leaves a stop of 97, which only a percentage trail without a range could lift. */
  function Bought2(percent: bool): State {
    State(0.0, 0.01, NoOrder, None,
          Some(Episode(THIN_SIGNAL, 2, 100.0, 120.0, 97.0, false, None, None)), None,
          -1, [], [Order(1, Buy, 2)], 1.2, Some(97.0), Some(100.0))
  }

  lemma SecondFill(k: Setup)
    requires k.Valid() && |k.bars| > 2 && k.bars[2].open == 100.0 && k.bars[2].close == 120.0 && k.fee == 0.0 && k.target == 1.0
    requires k.rules.initialStopAtr == 3.0 && k.rules.bandFailAtr == -1.0
    ensures Fill(k, Queued1(), 2) == State(0.0, 0.01, NoOrder, None,
      Some(Episode(THIN_SIGNAL, 2, 100.0, 120.0, 97.0, false, None, None)), None, -1, [], [Order(1, Buy, 2)], 1.0, None, Some(100.0))
  {
    assert Notional(k, 1.0) == 1.0;
    assert InitialStop(k.rules, THIN_SIGNAL, 100.0) == 97.0;
    var f := Fill(k, Queued1(), 2);
    assert f.units == 0.01 && f.cash == 0.0;
  }

  lemma SecondManage(k: Setup, f: State, e: Episode)
    requires |k.bars| > 2 && k.bars[2] == Bare(120.0, None, true)
    requires !k.rules.heatEnabled && k.rules.timeLimit == 0 && k.rules.maxHold == 0
    requires f.episode == Some(e) && f.pending.NoOrder? && WellFormed(f) && e == Episode(THIN_SIGNAL, 2, 100.0, 120.0, 97.0, false, None, None)
    ensures Manage(k, f, 2) == f.(stop := Some(97.0), level := Some(100.0))
  {
    assert Ratchet(k.rules, k.bars[2], e) == e;
    var none: Option<Reason> := None;
    assert ExitReason(k.rules, k.bars[2], e, 2) == none;
  }

  lemma SecondSession(percent: bool)
    ensures Thin(percent, 1.0).Valid() && Session(Thin(percent, 1.0), Queued1(), 2) == Ok(Bought2(percent))
  {
    var k := Thin(percent, 1.0);
    SecondFill(k);
    var f := Fill(k, Queued1(), 2);
    SecondManage(k, f, f.episode.value);
    var d := Manage(k, f, 2);
    assert Decide(k, f, 2) == Ok(d);
    assert d.cash + d.units * 120.0 == 1.2;
  }

  lemma AfterTwo(k: Setup, a: State, b: State)
    requires k.Valid() && k.First() == 1 && k.Last() == 3
    requires WellFormed(a) && WellFormed(b)
    requires Session(k, InitialState(), 1) == Ok(a) && Session(k, a, 2) == Ok(b)
    ensures Reaches(k, 3) && At(k, 3) == b
  {
    assert After(k, 1) == Ok(InitialState());
    assert After(k, 2) == Ok(a);
    assert After(k, 3) == Ok(b);
  }

  lemma RangeLapses()
    ensures !RangesLast(Thin(true, 1.0))
  {
    var k := Thin(true, 1.0);
    assert k.bars[1].atr.Some? && k.bars[2].atr.None?;
  }

  lemma ThinRun() returns (run: Run)
    ensures Produces(Thin(true, 1.0), run) && run.stop[2] == Some(97.0)
    ensures run.episodes == [Episode(THIN_SIGNAL, 2, 100.0, 120.0, 97.0, false, None, None)]
  {
    var k := Thin(true, 1.0);
    FirstSession(true, 1.0);
    SecondSession(true);
    AfterTwo(k, Queued1(), Bought2(true));
    run := RunExists(k);
    assert Row(k, run, 2, 3);
  }

  lemma ThinRebuild(k: Setup)
    requires k == Thin(true, 1.0)
    ensures Reported(k, Ticket(THIN_SIGNAL, 2, 100.0), 2).stop == 108.0
  {
    var e := Episode(THIN_SIGNAL, 2, 100.0, 120.0, 97.0, false, None, None);
    assert Start(k, Ticket(THIN_SIGNAL, 2, 100.0)) == e;
    ThinRatchet(k.rules, e);
  }

  lemma ThinRatchet(r: Rules, e: Episode)
    requires r == PlainRules(true) && e == Episode(THIN_SIGNAL, 2, 100.0, 120.0, 97.0, false, None, None)
    ensures ReportRatchet(r, Bare(120.0, None, true), e).stop == 108.0
  {
    assert PercentTrail(r, 120.0, false) == 108.0;
  }

  /**
    The report's stop check relies on ranges that last. On a series no feature builder yields, whose range
    lapses after the confirmation, the report trails to 108 under a percentage trail while the engine keeps 97.
   */
  lemma StopCheckNeedsRanges() returns (k: Setup, run: Run)
    ensures !RangesLast(k)
    ensures k.target == 1.0 && Produces(k, run) && |run.episodes| == 1 && run.episodes[0].entryIndex == 2 < k.Last() == 3
    ensures !StopCheck(k, run, TicketOf(run.episodes[0]), 2)
  {
    k := Thin(true, 1.0);
    run := ThinRun();
    RangeLapses();
    ThinRebuild(k);
    assert !StopsMatch(k, run, TicketOf(run.episodes[0]), 2);
  }

  /** At a zero target a filled purchase holds nothing, so the engine goes on buying. */
  function BoughtNothing(): State {
    State(1.0, 0.0, BuyOrder(3, Signal(Candidate(2, 1, 100.0, 100.0, false), 2, 1.0)), None,
          Some(Episode(THIN_SIGNAL, 2, 100.0, 120.0, 97.0, false, None, None)), None,
          -1, [], [Order(1, Buy, 2), Order(2, Buy, 3)], 1.0, None, Some(100.0))
  }

  function Idle(): Setup {
    Thin(false, 0.0).(bars := [Bare(100.0, Some(1.0), false), Bare(101.0, Some(1.0), true), Bare(120.0, Some(1.0), true)])
  }

  lemma IdleFill(k: Setup)
    requires k.Valid() && |k.bars| > 2 && k.bars[2].open == 100.0 && k.bars[2].close == 120.0 && k.fee == 0.0 && k.target == 0.0
    requires k.rules.initialStopAtr == 3.0 && k.rules.bandFailAtr == -1.0
    ensures Fill(k, Queued1(), 2) == State(1.0, 0.0, NoOrder, None,
      Some(Episode(THIN_SIGNAL, 2, 100.0, 120.0, 97.0, false, None, None)), None, -1, [], [Order(1, Buy, 2)], 1.0, None, Some(100.0))
  {
    assert Notional(k, 1.0) == 0.0;
    assert InitialStop(k.rules, THIN_SIGNAL, 100.0) == 97.0;
    var f := Fill(k, Queued1(), 2);
    assert f.units == 0.0 && f.cash == 1.0;
  }

  lemma IdleScan(k: Setup, f: State)
    requires |k.bars| > 2 && k.bars[2] == Bare(120.0, Some(1.0), true) && k.rules.confirmSessions == 1 && k.delay == 0
    requires f == BoughtNothing().(pending := NoOrder, events := [Order(1, Buy, 2)])
    ensures Scan(k, f, 2) == Ok(BoughtNothing())
  {
    var c := Candidate(2, 1, 100.0, 100.0, false);
    var none: Option<Continuation> := None;
    assert Surviving(k.rules, none, 2) == none;
    assert Fresh(k, none, 2) == Some(c);
    assert Confirms(k.rules, k.bars[2], c);
    var r := Scan(k, f, 2);
    assert r.Ok?;
    assert r.value.events == [Order(1, Buy, 2), Order(2, Buy, 3)];
  }

  lemma IdleFirst()
    ensures Idle().Valid() && Session(Idle(), InitialState(), 1) == Ok(Queued1())
  {
    var k := Idle();
    assert Fill(k, InitialState(), 1) == InitialState();
    FirstScan(k);
  }

  lemma IdleSecond()
    ensures Idle().Valid() && Session(Idle(), Queued1(), 2) == Ok(BoughtNothing())
  {
    var k := Idle();
    IdleFill(k);
    var f := Fill(k, Queued1(), 2);
    IdleScan(k, f);
    assert Decide(k, f, 2) == Ok(BoughtNothing());
  }

  lemma IdleRun() returns (run: Run)
    ensures Produces(Idle(), run) && run.events == [Order(1, Buy, 2), Order(2, Buy, 3)]
  {
    IdleFirst();
    IdleSecond();
    AfterTwo(Idle(), Queued1(), BoughtNothing());
    run := RunExists(Idle());
  }

  /** Orders do not alternate at a zero target: two purchases follow each other. */
  lemma ZeroTargetRepeatsBuys() returns (k: Setup, run: Run)
    ensures k.target == 0.0 && Produces(k, run) && !Orderly(k, run.events)
  {
    k := Idle();
    run := IdleRun();
    assert run.events[1].side == Buy;
  }
}
