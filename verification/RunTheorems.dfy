/** Whole-run results about the engine, stated on what it returns. */
module RunTheorems {
  import opened Common
  import opened RealArithmetic
  import opened BreakoutEngine
  import opened OrderBook
  import opened RunHistory

  // ---------------------------------------------------------------- orders and positions

  /** Buys less sells filled by the end of session `t`. */
  function Position(ev: seq<Order>, t: nat): int {
    if ev == [] then 0 else
      var last := ev[|ev| - 1];
      Position(ev[..|ev| - 1], t) + if last.fill > t then 0 else if last.side == Buy then 1 else -1
  }

  lemma {:induction false} PositionOfPrefix(k: Setup, ev: seq<Order>, m: nat, t: nat)
    requires Orderly(k, ev) && m <= |ev|
    requires forall i :: 0 <= i < m ==> ev[i].fill <= t
    requires forall i :: m <= i < |ev| ==> ev[i].fill > t
    ensures Position(ev, t) == m % 2
    decreases |ev|
  {
    if ev != [] {
      OrderlyRest(k, ev);
      PositionOfPrefix(k, ev[..|ev| - 1], if m < |ev| then m else m - 1, t);
      LastSide(k, ev);
    }
  }

  lemma OrderlyRest(k: Setup, ev: seq<Order>)
    requires Orderly(k, ev) && ev != []
    ensures Orderly(k, ev[..|ev| - 1])
  {
  }

  lemma LastSide(k: Setup, ev: seq<Order>)
    requires Orderly(k, ev) && ev != []
    ensures ev[|ev| - 1].side == if |ev| % 2 == 1 then Buy else Sell
  {
  }

  /** Orders of a state after session `t`, within a longer list whose other orders come later. */
  lemma PositionOfState(k: Setup, s: State, ev: seq<Order>, t: nat)
    requires Coherent(k, s, t + 1) && Orderly(k, ev) && s.events <= ev && (s.units > 0.0 || s.units == 0.0)
    requires forall i :: |s.events| <= i < |ev| ==> ev[i].day > t
    ensures Position(ev, t) == if s.Held() then 1 else 0
  {
    var m := if s.pending.NoOrder? then |s.events| else |s.events| - 1;
    FilledAre(k, s, ev, t);
    HeldIsOdd(k, s, t + 1);
    PositionOfPrefix(k, ev, m, t);
  }

  /** All listed orders but the pending one have filled by the end of session `t`, and no later one has. */
  lemma FilledAre(k: Setup, s: State, ev: seq<Order>, t: nat)
    requires Coherent(k, s, t + 1) && Orderly(k, ev) && s.events <= ev
    requires forall i :: |s.events| <= i < |ev| ==> ev[i].day > t
    ensures var m := if s.pending.NoOrder? then |s.events| else |s.events| - 1;
      && (forall i :: 0 <= i < m ==> ev[i].fill <= t)
      && (forall i :: m <= i < |ev| ==> ev[i].fill > t)
  {
    var n := |s.events|;
    var m := if s.pending.NoOrder? then n else n - 1;
    forall i | 0 <= i < m ensures ev[i].fill <= t {
      assert ev[i] == s.events[i];
      if i < n - 1 { assert s.events[i].fill <= s.events[n - 1].day; }
    }
    forall i | m <= i < |ev| ensures ev[i].fill > t {
      if i < n { assert ev[i] == s.events[i]; }
    }
  }

  lemma HeldIsOdd(k: Setup, s: State, t: nat)
    requires Linked(k, s, t)
    ensures var m := if s.pending.NoOrder? then |s.events| else |s.events| - 1;
      m >= 0 && (s.Held() <==> m % 2 == 1)
  {
  }

  lemma StoryPosition(k: Setup, h: seq<State>, t: nat)
    requires Story(k, h) && k.First() <= t < |h| - 1
    ensures Position(h[|h| - 1].events, t) == if h[t + 1].Held() then 1 else 0
  {
    EventsGrow(k, h, t + 1, |h| - 1);
    assert Sound(k, h, t + 1) && Sound(k, h, |h| - 1);
    PositionOfState(k, h[t + 1], h[|h| - 1].events, t);
  }

  /**
    On every run with a positive target: orders alternate from a buy, each fills exactly one session
    plus the delay after its decision, no decision precedes the last fill, and none falls in a cooldown.
    The listed position is 0 or 1 and is what the engine reports as held.
   */
  lemma OrdersAlternate(k: Setup, run: Run, t: nat)
    requires k.target > 0.0 && Produces(k, run) && k.First() <= t < k.Last()
    ensures Orderly(k, run.events)
    ensures Position(run.events, t) == if run.held[t] then 1 else 0
  {
    var h := StoryOf(k, run);
    StoryOrders(k, h, run, t);
  }

  lemma StoryOrders(k: Setup, h: seq<State>, run: Run, t: nat)
    requires Tells(k, h, run) && k.First() <= t < k.Last() && t < |run.held|
    ensures Orderly(k, run.events)
    ensures Position(run.events, t) == if run.held[t] then 1 else 0
  {
    assert Shows(k, h, run, t);
    assert Sound(k, h, k.Last());
    StoryPosition(k, h, t);
  }

  /** At a zero target nothing is ever bought, so the engine never has anything to sell. */
  ghost predicate Flat(k: Setup, s: State) {
    && s.units == 0.0 && s.cash == 1.0 && !s.pending.SellOrder?
    && s.closed == [] && (s.episode.Some? ==> s.episode.value.decision.None? && s.episode.value.exit.None?)
    && forall i :: 0 <= i < |s.events| ==> s.events[i].side == Buy && s.events[i].fill == s.events[i].day + 1 + k.delay
  }

  lemma FlatFill(k: Setup, s: State, t: nat)
    requires k.Valid() && k.target == 0.0 && WellFormed(s) && t < |k.bars| && Flat(k, s)
    ensures Flat(k, Fill(k, s, t))
  {
    assert Notional(k, s.cash) == 0.0;
  }

  lemma FlatDecision(k: Setup, s: State, t: nat, r: State)
    requires WellFormed(s) && 1 <= t < |k.bars| && Flat(k, s) && Decide(k, s, t) == Ok(r)
    ensures Flat(k, r)
  {
  }

  lemma FlatSession(k: Setup, s: State, t: nat, r: State)
    requires k.Valid() && k.target == 0.0 && WellFormed(s) && 1 <= t < |k.bars| && Flat(k, s) && Session(k, s, t) == Ok(r)
    ensures Flat(k, r) && r.mark == 1.0
  {
    var f := Fill(k, s, t);
    FlatFill(k, s, t);
    var d := Decide(k, f, t).value;
    FlatDecision(k, f, t, d);
    assert d.units * k.bars[t].close == 0.0;
  }

  lemma {:induction false} FlatRuns(k: Setup, t: nat, s: State)
    requires k.Valid() && k.target == 0.0 && k.First() <= t <= k.Last() && After(k, t) == Ok(s)
    ensures Flat(k, s)
    ensures t > k.First() ==> s.mark == 1.0
    decreases t
  {
    if t > k.First() {
      var before := After(k, t - 1).value;
      FlatRuns(k, t - 1, before);
      FlatSession(k, before, t - 1, s);
    }
  }

  lemma FlatOrders(k: Setup, run: Run)
    requires Produces(k, run) && k.target == 0.0
    ensures Orderly(k, run.events) <==> |run.events| <= 1
  {
    FlatRuns(k, k.Last(), At(k, k.Last()));
    OnlyBuys(k, run.events);
  }

  lemma OnlyBuys(k: Setup, ev: seq<Order>)
    requires forall i :: 0 <= i < |ev| ==> ev[i].side == Buy && ev[i].fill == ev[i].day + 1 + k.delay
    ensures Orderly(k, ev) <==> |ev| <= 1
  {
    if |ev| > 1 { assert ev[1].side == Buy; }
  }

  /** Orders alternate on exactly the runs with a positive target or at most one order. */
  lemma AlternationNeedsATarget(k: Setup, run: Run)
    requires Produces(k, run)
    ensures Orderly(k, run.events) <==> k.target > 0.0 || |run.events| <= 1
  {
    if k.target > 0.0 {
      RunsAreCoherent(k, k.Last(), At(k, k.Last()));
    } else {
      FlatOrders(k, run);
    }
  }

  /** At a zero target the account never moves. */
  lemma ZeroTargetStaysInCash(k: Setup, run: Run, t: nat)
    requires Produces(k, run) && k.target == 0.0 && k.First() <= t < k.Last()
    ensures run.nav[t] == Some(1.0) && !run.held[t]
  {
    assert Row(k, run, t, k.Last());
    FlatRuns(k, t + 1, At(k, t + 1));
  }

  /** Buys less sells decided by the end of session `t`, filled or not. */
  function Intended(ev: seq<Order>, t: nat): int {
    if ev == [] then 0 else
      var last := ev[|ev| - 1];
      Intended(ev[..|ev| - 1], t) + if last.day > t then 0 else if last.side == Buy then 1 else -1
  }

  lemma {:induction false} IntendedOfPrefix(k: Setup, ev: seq<Order>, m: nat, t: nat)
    requires Orderly(k, ev) && m <= |ev|
    requires m > 0 ==> ev[m - 1].day <= t
    requires m < |ev| ==> ev[m].day > t
    ensures Intended(ev, t) == m % 2
    decreases |ev|
  {
    if ev != [] {
      var rest := ev[..|ev| - 1];
      assert Orderly(k, rest);
      if m < |ev| - 1 {
        assert ev[m].day < ev[m].fill <= ev[|ev| - 1].day;
      } else if m == |ev| && m > 1 {
        assert ev[m - 2].day < ev[m - 2].fill <= ev[m - 1].day;
      }
      IntendedOfPrefix(k, rest, if m < |ev| then m else m - 1, t);
    }
  }

  lemma StoryIntended(k: Setup, h: seq<State>, t: nat)
    requires Story(k, h) && k.First() <= t < |h| - 1
    ensures Intended(h[|h| - 1].events, t) == if h[t + 1].Desired() then 1 else 0
  {
    var s, ev := h[t + 1], h[|h| - 1].events;
    EventsGrow(k, h, t + 1, |h| - 1);
    assert Sound(k, h, t + 1) && Sound(k, h, |h| - 1);
    var n := |s.events|;
    if n > 0 { assert ev[n - 1] == s.events[n - 1]; }
    IntendedOfPrefix(k, ev, n, t);
  }

  /** What the engine says it desires at a close is the position once every order decided by then has filled. */
  lemma DesiredIsIntended(k: Setup, run: Run, t: nat)
    requires k.target > 0.0 && Produces(k, run) && k.First() <= t < k.Last()
    ensures Intended(run.events, t) == if run.desired[t] then 1 else 0
  {
    var h := StoryOf(k, run);
    assert Shows(k, h, run, t);
    StoryIntended(k, h, t);
  }

  /** A run has values on exactly the sessions it was asked for, the first session of the data excepted. */
  lemma RunCovers(k: Setup, run: Run, d: nat)
    requires Produces(k, run) && d < |k.bars|
    ensures |run.nav| == |run.stop| == |run.level| == |k.bars|
    ensures run.nav[d].Some? <==> 1 <= d && k.start <= d < k.end
    ensures run.nav[d].None? ==> run.stop[d].None? && run.level[d].None? && !run.held[d] && !run.desired[d]
  {
    assert Row(k, run, d, k.Last());
  }

  // ---------------------------------------------------------------- the account

  /** The account is worth something at every close of every run, at every target: fees and sizing never overdraw it. */
  lemma AccountStaysPositive(k: Setup, run: Run, t: nat)
    requires Produces(k, run) && k.First() <= t < k.Last()
    ensures run.nav[t].Some? && run.nav[t].value > 0.0
  {
    if k.target > 0.0 {
      var h := StoryOf(k, run);
      assert Shows(k, h, run, t);
      StoryPositive(k, h, t);
    } else {
      ZeroTargetStaysInCash(k, run, t);
    }
  }

  lemma StoryPositive(k: Setup, h: seq<State>, t: nat)
    requires Story(k, h) && k.First() <= t < |h| - 1
    ensures h[t + 1].mark > 0.0
  {
    var f, kind, d, choice := Step(k, h, t);
    if d.units > 0.0 {
      ProductPositive(d.units, k.bars[t].close);
    }
  }

  // ---------------------------------------------------------------- causality

  /** Same rules and costs, and the same bars before session `u`. */
  ghost predicate SamePast(k: Setup, l: Setup, u: nat) {
    && k.Valid() && l.Valid() && u <= |k.bars| && u <= |l.bars|
    && k.rules == l.rules && k.fee == l.fee && k.target == l.target && k.delay == l.delay && k.First() == l.First()
    && k.bars[..u] == l.bars[..u]
  }

  lemma SameSession(k: Setup, l: Setup, s: State, t: nat)
    requires SamePast(k, l, t + 1) && WellFormed(s) && 1 <= t
    ensures Session(k, s, t) == Session(l, s, t)
  {
    assert k.bars[t] == k.bars[..t + 1][t] == l.bars[..t + 1][t] == l.bars[t];
    assert k.bars[t - 1] == k.bars[..t + 1][t - 1] == l.bars[..t + 1][t - 1] == l.bars[t - 1];
    SameFill(k, l, s, t);
    SameDecision(k, l, Fill(k, s, t), t);
  }

  lemma SameFill(k: Setup, l: Setup, s: State, t: nat)
    requires SamePast(k, l, t + 1) && WellFormed(s) && k.bars[t] == l.bars[t]
    ensures Fill(k, s, t) == Fill(l, s, t)
  {
    assert Notional(k, s.cash) == Notional(l, s.cash);
  }

  lemma SameDecision(k: Setup, l: Setup, f: State, t: nat)
    requires SamePast(k, l, t + 1) && WellFormed(f) && 1 <= t
    requires k.bars[t] == l.bars[t] && k.bars[t - 1] == l.bars[t - 1]
    ensures Decide(k, f, t) == Decide(l, f, t)
  {
    if f.units == 0.0 && f.pending.NoOrder? && t > f.cooldownUntil {
      var kept := Recount(f.candidate, k.bars[t].close);
      var continuation := if kept.Some? then f.continuation else Surviving(k.rules, f.continuation, t);
      assert Fresh(k, continuation, t) == Fresh(l, continuation, t);
    }
  }

  lemma ShorterPast(k: Setup, l: Setup, u: nat, t: nat)
    requires SamePast(k, l, u) && t <= u
    ensures SamePast(k, l, t)
  {
    assert k.bars[..t] == k.bars[..u][..t] == l.bars[..u][..t] == l.bars[..t];
  }

  lemma SameNext(k: Setup, l: Setup, t: nat)
    requires SamePast(k, l, t + 1) && k.First() <= t < k.Last() && t < l.Last() && After(k, t) == After(l, t)
    ensures After(k, t + 1) == After(l, t + 1)
  {
    if After(k, t).Ok? { SameSession(k, l, After(k, t).value, t); }
  }

  lemma {:induction false} SameState(k: Setup, l: Setup, u: nat, t: nat)
    requires SamePast(k, l, u) && k.First() <= t <= u && t <= k.Last() && t <= l.Last()
    ensures After(k, t) == After(l, t)
    decreases t
  {
    if t > k.First() {
      SameState(k, l, u, t - 1);
      ShorterPast(k, l, u, t);
      SameNext(k, l, t - 1);
    }
  }

  /**
    No look-ahead: two runs with the same bars before session `u` report the same values before `u`,
    whatever comes later and wherever each run stops.
   */
  lemma NoLookAhead(k: Setup, l: Setup, a: Run, b: Run, u: nat, t: nat)
    requires Produces(k, a) && Produces(l, b) && SamePast(k, l, u)
    requires k.First() <= t < u <= k.Last() && u <= l.Last()
    ensures a.nav[t] == b.nav[t] && a.desired[t] == b.desired[t] && a.held[t] == b.held[t]
    ensures a.stop[t] == b.stop[t] && a.level[t] == b.level[t]
  {
    var s := BothShow(k, l, a, b, u, t);
  }

  lemma BothShow(k: Setup, l: Setup, a: Run, b: Run, u: nat, t: nat) returns (s: State)
    requires Produces(k, a) && Produces(l, b) && SamePast(k, l, u)
    requires k.First() <= t < u <= k.Last() && u <= l.Last()
    ensures Entry(a, t, s) && Entry(b, t, s)
  {
    s := NextState(k, l, a, b, u, t);
    EntryOf(k, a, t, s);
    EntryOf(l, b, t, s);
  }

  /** Session `t` of the outputs is what state `s` shows. */
  ghost predicate Entry(run: Run, t: nat, s: State) {
    && t < |run.nav| && |run.nav| == |run.desired| == |run.held| == |run.stop| == |run.level|
    && run.nav[t] == Some(s.mark) && run.desired[t] == s.Desired() && run.held[t] == s.Held()
    && run.stop[t] == s.stop && run.level[t] == s.level
  }

  lemma EntryOf(k: Setup, run: Run, t: nat, s: State)
    requires Produces(k, run) && k.First() <= t < k.Last() && After(k, t + 1) == Ok(s)
    ensures Entry(run, t, s)
  {
    assert Row(k, run, t, k.Last());
  }

  lemma NextState(k: Setup, l: Setup, a: Run, b: Run, u: nat, t: nat) returns (s: State)
    requires Produces(k, a) && Produces(l, b) && SamePast(k, l, u)
    requires k.First() <= t < u <= k.Last() && u <= l.Last()
    ensures After(k, t + 1) == Ok(s) == After(l, t + 1)
  {
    ReachesEarlier(k, t + 1, k.Last());
    s := At(k, t + 1);
    SameReached(k, l, u, t + 1, s);
  }

  lemma SameReached(k: Setup, l: Setup, u: nat, t: nat, s: State)
    requires SamePast(k, l, u) && k.First() <= t <= u && t <= k.Last() && t <= l.Last() && After(k, t) == Ok(s)
    ensures After(l, t) == Ok(s)
  {
    SameState(k, l, u, t);
  }

  /** Orders so far were decided before session `t`. */
  ghost predicate DecidedBefore(ev: seq<Order>, t: nat) {
    forall i :: 0 <= i < |ev| ==> ev[i].day < t
  }

  ghost predicate DecidedFrom(ev: seq<Order>, n: nat, u: nat) {
    forall i :: n <= i < |ev| ==> ev[i].day >= u
  }

  /** At most one order is added, decided at `t`. */
  ghost predicate AppendsAt(a: seq<Order>, b: seq<Order>, t: nat) {
    b == a || (|b| == |a| + 1 && b == a + [b[|a|]] && b[|a|].day == t)
  }

  lemma DecideAppends(k: Setup, s: State, t: nat, r: State)
    requires WellFormed(s) && 1 <= t < |k.bars| && Decide(k, s, t) == Ok(r)
    ensures AppendsAt(s.events, r.events, t)
  {
  }

  lemma SessionAppends(k: Setup, s: State, t: nat, r: State)
    requires k.Valid() && WellFormed(s) && 1 <= t < |k.bars| && Session(k, s, t) == Ok(r)
    ensures AppendsAt(s.events, r.events, t)
  {
    var f := Fill(k, s, t);
    assert f.events == s.events;
    DecideAppends(k, f, t, Decide(k, f, t).value);
  }

  lemma NextAppends(k: Setup, t: nat, a: State, b: State)
    requires k.Valid() && k.First() <= t < k.Last() && After(k, t) == Ok(a) && After(k, t + 1) == Ok(b)
    ensures AppendsAt(a.events, b.events, t)
  {
    SessionAppends(k, a, t, b);
  }

  lemma DatedMore(a: seq<Order>, b: seq<Order>, t: nat)
    requires DecidedBefore(a, t) && AppendsAt(a, b, t)
    ensures DecidedBefore(b, t + 1)
  {
    forall i | 0 <= i < |b| ensures b[i].day < t + 1 {
      if i < |a| { assert b[i] == a[i]; }
    }
  }

  lemma {:induction false} OrdersAreDated(k: Setup, t: nat, s: State)
    requires k.Valid() && k.First() <= t <= k.Last() && After(k, t) == Ok(s)
    ensures DecidedBefore(s.events, t)
    decreases t
  {
    if t > k.First() {
      var before := After(k, t - 1).value;
      OrdersAreDated(k, t - 1, before);
      NextAppends(k, t - 1, before, s);
      DatedMore(before.events, s.events, t - 1);
    }
  }

  /** Later states list the same orders, then orders decided later. */
  ghost predicate Lengthens(a: seq<Order>, u: nat, b: seq<Order>) {
    a <= b && DecidedFrom(b, |a|, u)
  }

  lemma NextLengthens(k: Setup, u: nat, t: nat, ev: seq<Order>, before: State, after: State)
    requires k.Valid() && k.First() <= u <= t < k.Last() && After(k, t) == Ok(before) && After(k, t + 1) == Ok(after)
    requires Lengthens(ev, u, before.events)
    ensures Lengthens(ev, u, after.events)
  {
    NextAppends(k, t, before, after);
    LengthensMore(ev, u, before.events, after.events, t);
  }

  /** The run that reaches `t` with orders `ev` so far. */
  ghost predicate Ordered(k: Setup, t: nat, ev: seq<Order>) {
    Reaches(k, t) && At(k, t).events == ev
  }

  lemma {:induction false} OrdersLengthen(k: Setup, u: nat, t: nat, ev: seq<Order>)
    requires k.First() <= u <= t && Reaches(k, t) && Ordered(k, u, ev)
    ensures Lengthens(ev, u, At(k, t).events)
    decreases t
  {
    if t > u {
      ReachesEarlier(k, t - 1, t);
      OrdersLengthen(k, u, t - 1, ev);
      NextLengthens(k, u, t - 1, ev, At(k, t - 1), At(k, t));
    }
  }

  lemma LengthensMore(a: seq<Order>, u: nat, b: seq<Order>, c: seq<Order>, t: nat)
    requires Lengthens(a, u, b) && u <= t
    requires AppendsAt(b, c, t)
    ensures Lengthens(a, u, c)
  {
    if c != b {
      forall i | |a| <= i < |c| ensures c[i].day >= u {
        if i < |b| { assert c[i] == b[i]; }
      }
    }
  }

  /** A run cut at session `u` lists exactly the orders the full run decided before `u`, at every target. */
  lemma PrefixOrders(k: Setup, l: Setup, a: Run, b: Run)
    requires Produces(k, a) && Produces(l, b) && SamePast(k, l, k.Last())
    requires k.Last() <= l.Last()
    ensures a.events <= b.events
    ensures forall i :: 0 <= i < |b.events| ==> (b.events[i].day < k.Last() <==> i < |a.events|)
  {
    var u := k.Last();
    ReachesEarlier(l, u, l.Last());
    SameState(k, l, u, u);
    OrdersAreDated(k, u, At(k, u));
    OrdersLengthen(l, u, l.Last(), At(l, u).events);
    CutAt(a.events, b.events, u);
  }

  lemma CutAt(a: seq<Order>, b: seq<Order>, u: nat)
    requires DecidedBefore(a, u) && Lengthens(a, u, b)
    ensures forall i :: 0 <= i < |b| ==> (b[i].day < u <==> i < |a|)
  {
    forall i | 0 <= i < |b| ensures b[i].day < u <==> i < |a| {
      if i < |a| { assert b[i] == a[i]; }
    }
  }
}
