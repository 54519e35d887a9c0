/**
  Why every purchase is made, and that none is missed: which close starts a breakout, which close confirms
  it, and when a continuation of the last trade goes before a crossing of the range.
 */
module Confirmations {
  import opened Common
  import opened BreakoutEngine
  import opened OrderBook
  import opened RunHistory
  import opened TradeHistory
  import opened RunTheorems

  // ---------------------------------------------------------------- in terms of bars and rules

  /** A close has the volume that confirms a breakout early. */
  ghost predicate VolumeShows(r: Rules, bar: Bar) {
    r.volumeShortcut && bar.volumeMedian.Some? && bar.volume >= r.volumeRatio * bar.volumeMedian.value
  }

  /** Close `d` confirms a breakout that crossed at `c`. */
  ghost predicate Confirmed(k: Setup, c: nat, d: nat)
    requires d < |k.bars|
  {
    d - c + 1 >= k.rules.confirmSessions || VolumeShows(k.rules, k.bars[d])
  }

  /** The level above which the trade last closed is taken up again: its peak and a part of the range before. */
  ghost function ResumeLevel(k: Setup, prior: Episode, d: nat): real
    requires 1 <= d < |k.bars| && k.bars[d - 1].atr.Some?
  {
    LevelAfter(k.rules, prior, k.bars[d - 1].atr.value)
  }

  ghost function LevelAfter(r: Rules, prior: Episode, atrBefore: real): real { prior.peak + r.reentryBufferAtr * atrBefore }

  /** Close `d` continues the trade last closed, within the wait. */
  ghost predicate Resumes(k: Setup, prior: Option<Episode>, d: nat)
    requires 1 <= d < |k.bars|
  {
    && prior.Some? && prior.value.decision.Some? && k.rules.reentryEnabled
    && 0 < k.rules.reentryWait && d <= prior.value.decision.value.day + k.rules.reentryWait
    && k.bars[d - 1].atr.Some? && k.bars[d].close > ResumeLevel(k, prior.value, d)
  }

  /** A crossing of the range that no continuation went before, with every later close before `t` above its trigger. */
  ghost predicate Breaks(k: Setup, prior: Option<Episode>, c: Candidate, t: nat) {
    && !c.reentry && k.First() <= c.crossing < t <= |k.bars|
    && k.bars[c.crossing].cross == Some(Crossing(c.u, c.trigger)) && !Resumes(k, prior, c.crossing)
    && forall d :: c.crossing < d < t ==> k.bars[d].close > c.trigger
  }

  ghost predicate Unconfirmed(k: Setup, c: nat, t: nat)
    requires t <= |k.bars|
  {
    forall d :: c <= d < t ==> !Confirmed(k, c, d)
  }

  /** The first close at which a crossing of the range is confirmed. */
  ghost predicate FreshlyEarned(k: Setup, c: Candidate, d: nat, prior: Option<Episode>) {
    && Breaks(k, prior, c, d + 1)
    && Confirmed(k, c.crossing, d) && Unconfirmed(k, c.crossing, d)
  }

  /** A continuation is its own confirmation, and inherits the band of the trade it continues. */
  ghost predicate Resumed(k: Setup, c: Candidate, d: nat, prior: Option<Episode>)
    requires 1 <= d < |k.bars|
  {
    && c.crossing == d && Resumes(k, prior, d)
    && c.trigger == ResumeLevel(k, prior.value, d) && c.u == prior.value.signal.candidate.u
  }

  /** Close `d` confirms this breakout, after the trade last closed. */
  ghost predicate Entitled(k: Setup, c: Candidate, d: nat, prior: Option<Episode>)
    requires 1 <= d < |k.bars|
  {
    if c.reentry then Resumed(k, c, d, prior) else FreshlyEarned(k, c, d, prior)
  }

  /** What entitles a signal to a purchase, after the trade last closed. */
  ghost predicate Earned(k: Setup, g: Signal, prior: Option<Episode>) {
    && k.First() <= g.confirmation < |k.bars|
    && k.bars[g.confirmation].atr == Some(g.atr) && g.atr > 0.0
    && Entitled(k, g.candidate, g.confirmation, prior)
  }

  function PriorAt(es: seq<Episode>, i: nat): Option<Episode>
    requires i <= |es|
  {
    if i == 0 then None else Some(es[i - 1])
  }

  function Prior(es: seq<Episode>): Option<Episode> { PriorAt(es, |es|) }

  /** The last trade closed by the open of session `d`. */
  function LastExited(es: seq<Episode>, d: nat): Option<Episode> {
    if es == [] then None
    else if es[|es| - 1].exit.Some? && es[|es| - 1].exit.value.index <= d then Some(es[|es| - 1])
    else LastExited(es[..|es| - 1], d)
  }

  // ---------------------------------------------------------------- what every state keeps

  /** The breakout that waits before session `t`: unconfirmed, and every session since its crossing was scanned. */
  ghost predicate Waits(k: Setup, s: State, t: nat) {
    s.candidate.Some? ==>
      && s.units == 0.0 && s.pending.NoOrder? && t - 1 > s.cooldownUntil
      && Breaks(k, Prior(s.closed), s.candidate.value, t)
      && s.candidate.value.count == t - s.candidate.value.crossing
      && Unconfirmed(k, s.candidate.value.crossing, t)
  }

  ghost predicate Expired(r: Rules, e: Episode, t: int) {
    r.reentryWait <= 0 || (e.decision.Some? && t - e.decision.value.day > r.reentryWait)
  }

  /** The continuation is that of the last closed trade; it is missing only while it cannot matter. */
  ghost predicate Remembers(k: Setup, s: State, t: nat) {
    && (s.continuation.Some? ==>
          && k.rules.reentryEnabled && s.closed != []
          && var e := s.closed[|s.closed| - 1];
             e.decision.Some? && s.continuation.value == Continuation(e.peak, e.signal.candidate.u, e.decision.value.day))
    && (s.continuation.None? && s.episode.None? && !s.pending.BuyOrder? ==>
          s.closed == [] || !k.rules.reentryEnabled || Expired(k.rules, s.closed[|s.closed| - 1], t - 1))
  }

  /** The queued purchase, the open trade and every closed one was earned. */
  ghost predicate Credited(k: Setup, s: State) {
    && (s.pending.BuyOrder? ==> Earned(k, s.pending.signal, Prior(s.closed)))
    && (s.episode.Some? ==> Earned(k, s.episode.value.signal, Prior(s.closed)) && s.episode.value.exit.None?)
    && AllEarned(k, s.closed)
  }

  ghost predicate AllEarned(k: Setup, es: seq<Episode>) {
    es == [] || (AllEarned(k, es[..|es| - 1]) && Earned(k, es[|es| - 1].signal, Prior(es[..|es| - 1])))
  }

  lemma {:induction false} EachIsEarned(k: Setup, es: seq<Episode>, i: nat)
    requires AllEarned(k, es) && i < |es|
    ensures Earned(k, es[i].signal, PriorAt(es, i))
  {
    if i < |es| - 1 { EachIsEarned(k, es[..|es| - 1], i); }
  }

  /** An order to buy is backed by an earned signal of its own close. */
  ghost predicate Backed(k: Setup, o: Order, es: seq<Episode>) {
    o.side == Buy ==> exists g: Signal :: g.confirmation == o.day && Earned(k, g, LastExited(es, o.day))
  }

  ghost predicate AllBacked(k: Setup, s: State, t: nat) {
    && (s.closed != [] ==> s.closed[|s.closed| - 1].exit.Some? && s.closed[|s.closed| - 1].exit.value.index < t)
    && (s.pending.BuyOrder? ==> s.pending.signal.confirmation < t)
    && forall j :: 0 <= j < |s.events| ==> s.events[j].day < t && Backed(k, s.events[j], s.closed)
  }

  /** Not long means that no trade is open, or that none was ever closed. */
  ghost predicate EmptyHanded(s: State) {
    s.units == 0.0 ==> s.episode.None? || s.closed == []
  }

  lemma EveryStateIsEmptyHanded(k: Setup, t: nat, s: State)
    requires k.Valid() && k.First() <= t <= k.Last() && After(k, t) == Ok(s)
    ensures EmptyHanded(s)
  {
    if k.target > 0.0 { RunsAreCoherent(k, t, s); } else { FlatRuns(k, t, s); }
  }

  // ---------------------------------------------------------------- the open

  lemma FillKeepsWaiting(k: Setup, s: State, t: nat)
    requires k.Valid() && WellFormed(s) && t < |k.bars| && Waits(k, s, t)
    ensures Waits(k, Fill(k, s, t), t)
  {
  }

  lemma FillRemembers(k: Setup, s: State, t: nat)
    requires k.Valid() && WellFormed(s) && t < |k.bars| && Remembers(k, s, t)
    ensures Remembers(k, Fill(k, s, t), t)
  {
  }

  lemma FillKeepsCredit(k: Setup, s: State, t: nat)
    requires k.Valid() && WellFormed(s) && t < |k.bars| && Credited(k, s)
    ensures Credited(k, Fill(k, s, t))
  {
    var f := Fill(k, s, t);
    if f.closed != s.closed { ClosingKeepsCredit(k, s.closed, f.closed[|s.closed|]); }
  }

  lemma ClosingKeepsCredit(k: Setup, es: seq<Episode>, e: Episode)
    requires AllEarned(k, es) && Earned(k, e.signal, Prior(es))
    ensures AllEarned(k, es + [e])
  {
    assert (es + [e])[..|es|] == es;
  }

  lemma LaterExitIsIgnored(k: Setup, o: Order, es: seq<Episode>, e: Episode)
    requires Backed(k, o, es) && (e.exit.Some? ==> e.exit.value.index > o.day)
    ensures Backed(k, o, es + [e])
  {
    assert (es + [e])[..|es|] == es;
  }

  lemma FillKeepsBacking(k: Setup, s: State, t: nat)
    requires k.Valid() && WellFormed(s) && t < |k.bars| && AllBacked(k, s, t)
    ensures AllBacked(k, Fill(k, s, t), t + 1)
    ensures forall j :: 0 <= j < |Fill(k, s, t).events| ==> Fill(k, s, t).events[j].day < t
  {
    var f := Fill(k, s, t);
    forall j | 0 <= j < |f.events| ensures f.events[j].day < t && Backed(k, f.events[j], f.closed) {
      assert Backed(k, s.events[j], s.closed);
      if f.closed != s.closed { LaterExitIsIgnored(k, s.events[j], s.closed, f.closed[|s.closed|]); }
    }
  }

  // ---------------------------------------------------------------- the close

  /** The engine's continuation test is the one on bars and the last closed trade. */
  lemma FreshResumes(k: Setup, s: State, t: nat)
    requires k.First() <= t < |k.bars| && Remembers(k, s, t) && !s.pending.BuyOrder? && (s.episode.None? || s.closed == [])
    ensures var c := Fresh(k, Surviving(k.rules, s.continuation, t), t);
      && (Resumes(k, Prior(s.closed), t) ==>
            c == Some(Candidate(t, k.rules.confirmSessions, Prior(s.closed).value.signal.candidate.u, ResumeLevel(k, Prior(s.closed).value, t), true)))
      && (!Resumes(k, Prior(s.closed), t) ==>
            c == if k.bars[t].cross.None? then None
                 else Some(Candidate(t, 1, k.bars[t].cross.value.upper, k.bars[t].cross.value.boundary, false)))
  {
    if k.bars[t - 1].atr.Some? && s.closed != [] {
      LevelsAgree(k.rules, s.closed[|s.closed| - 1], k.bars[t - 1].atr.value);
      assert ResumeLevel(k, s.closed[|s.closed| - 1], t) == LevelAfter(k.rules, s.closed[|s.closed| - 1], k.bars[t - 1].atr.value);
    }
  }

  lemma LevelsAgree(r: Rules, e: Episode, atr: real)
    ensures forall c: Continuation :: c.peak == e.peak ==> ContinuationTrigger(r, c, atr) == LevelAfter(r, e, atr)
  {
  }

  /** The candidate that the engine tests at a scanned close. */
  ghost function Tested(k: Setup, s: State, t: nat): Option<Candidate>
    requires 1 <= t < |k.bars|
  {
    var kept := Recount(s.candidate, k.bars[t].close);
    if kept.Some? then kept else Fresh(k, Surviving(k.rules, s.continuation, t), t)
  }

  /** A tested candidate: a continuation of this close, or a crossing with this close counted in. */
  ghost predicate Stands(k: Setup, prior: Option<Episode>, c: Candidate, t: nat)
    requires 1 <= t < |k.bars|
  {
    if c.reentry then
      && c.crossing == t && c.count == k.rules.confirmSessions && Resumes(k, prior, t)
      && c.trigger == ResumeLevel(k, prior.value, t) && c.u == prior.value.signal.candidate.u
    else
      Breaks(k, prior, c, t + 1) && c.count == t + 1 - c.crossing && Unconfirmed(k, c.crossing, t)
  }

  lemma TestedStands(k: Setup, s: State, t: nat)
    requires k.First() <= t < |k.bars| && Remembers(k, s, t) && Waits(k, s, t)
    requires !s.pending.BuyOrder? && (s.episode.None? || s.closed == [])
    ensures Tested(k, s, t).Some? ==> Stands(k, Prior(s.closed), Tested(k, s, t).value, t)
    ensures Tested(k, s, t).None? ==> k.bars[t].cross.None? && !Resumes(k, Prior(s.closed), t)
  {
    FreshResumes(k, s, t);
  }

  lemma StandingConfirms(k: Setup, prior: Option<Episode>, c: Candidate, t: nat)
    requires 1 <= t < |k.bars| && Stands(k, prior, c, t)
    ensures Confirms(k.rules, k.bars[t], c) <==> c.reentry || Confirmed(k, c.crossing, t)
  {
  }

  lemma StandingWaits(k: Setup, prior: Option<Episode>, c: Candidate, t: nat)
    requires 1 <= t < |k.bars| && Stands(k, prior, c, t) && !Confirms(k.rules, k.bars[t], c)
    ensures Breaks(k, prior, c, t + 1) && c.count == t + 1 - c.crossing && Unconfirmed(k, c.crossing, t + 1)
  {
    StandingConfirms(k, prior, c, t);
  }

  lemma StandingEarns(k: Setup, prior: Option<Episode>, c: Candidate, t: nat, atr: real)
    requires k.First() <= t < |k.bars| && Stands(k, prior, c, t) && Confirms(k.rules, k.bars[t], c)
    ensures Entitled(k, c, t, prior)
    ensures k.bars[t].atr == Some(atr) && atr > 0.0 ==> Earned(k, Signal(c, t, atr), prior)
  {
    StandingConfirms(k, prior, c, t);
  }

  /** The two ways a scanned close ends: the candidate, if any, waits on, or its purchase is queued. */
  ghost predicate Scans(k: Setup, s: State, t: nat, r: State)
    requires 1 <= t < |k.bars|
  {
    var c := Tested(k, s, t);
    && r.units == s.units && r.cooldownUntil == s.cooldownUntil && r.closed == s.closed && r.episode == s.episode
    && r.level == (if c.Some? then Some(c.value.trigger) else None)
    && if c.Some? && Confirms(k.rules, k.bars[t], c.value) then
         && r.candidate.None? && r.continuation.None?
         && k.bars[t].atr.Some? && k.bars[t].atr.value > 0.0
         && r.pending == BuyOrder(t + 1 + k.delay, Signal(c.value, t, k.bars[t].atr.value))
         && r.events == s.events + [Order(t, Buy, t + 1 + k.delay)]
       else
         && r.candidate == c && r.pending == s.pending && r.events == s.events
         && r.continuation == (if Recount(s.candidate, k.bars[t].close).Some? then s.continuation else Surviving(k.rules, s.continuation, t))
  }

  lemma ScanScans(k: Setup, s: State, t: nat, r: State)
    requires WellFormed(s) && s.pending.NoOrder? && 1 <= t < |k.bars| && Scan(k, s, t) == Ok(r)
    ensures Scans(k, s, t, r)
  {
  }

  lemma ScanWaits(k: Setup, s: State, t: nat, r: State)
    requires k.First() <= t < |k.bars| && Scans(k, s, t, r) && Remembers(k, s, t) && Waits(k, s, t)
    requires s.pending.NoOrder? && s.units == 0.0 && t > s.cooldownUntil && EmptyHanded(s)
    ensures Waits(k, r, t + 1)
  {
    TestedStands(k, s, t);
    if r.candidate.Some? { StandingWaits(k, Prior(s.closed), r.candidate.value, t); }
  }

  lemma ScanRemembers(k: Setup, s: State, t: nat, r: State)
    requires k.First() <= t < |k.bars| && Scans(k, s, t, r) && Remembers(k, s, t)
    requires s.pending.NoOrder?
    ensures Remembers(k, r, t + 1)
  {
  }

  lemma ScanEarns(k: Setup, s: State, t: nat, r: State)
    requires k.First() <= t < |k.bars| && Scans(k, s, t, r) && Remembers(k, s, t) && Waits(k, s, t)
    requires s.pending.NoOrder? && s.units == 0.0 && EmptyHanded(s)
    ensures r.pending.BuyOrder? ==> r.pending.signal.confirmation == t && Earned(k, r.pending.signal, Prior(s.closed))
  {
    TestedStands(k, s, t);
    if r.pending.BuyOrder? {
      StandingEarns(k, Prior(s.closed), Tested(k, s, t).value, t, k.bars[t].atr.value);
    }
  }

  /** A close that is not scanned leaves the search alone. */
  ghost predicate Passes(s: State, t: nat, r: State) {
    && r.units == s.units && r.candidate == s.candidate && r.continuation == s.continuation && r.closed == s.closed
    && r.cooldownUntil == s.cooldownUntil
    && (r.episode.Some? <==> s.episode.Some?)
    && (s.episode.Some? ==> r.episode.value.signal == s.episode.value.signal && r.episode.value.exit == s.episode.value.exit)
    && (r.pending == s.pending || (r.pending.SellOrder? && r.episode.Some?))
    && (s.units != 0.0 || s.pending != NoOrder || t <= s.cooldownUntil)
    && (r.events == s.events || (exists o :: r.events == s.events + [o] && o.day == t && o.side == Sell))
  }

  lemma DecideScansOrPasses(k: Setup, s: State, t: nat, r: State)
    requires WellFormed(s) && 1 <= t < |k.bars| && Decide(k, s, t) == Ok(r)
    ensures if s.units == 0.0 && s.pending.NoOrder? && t > s.cooldownUntil then Scans(k, s, t, r) else Passes(s, t, r)
  {
    if s.units == 0.0 && s.pending.NoOrder? && t > s.cooldownUntil { ScanScans(k, s, t, r); }
  }

  /** What is known of the search before session `t`. */
  ghost predicate Searching(k: Setup, s: State, t: nat) {
    Waits(k, s, t) && Remembers(k, s, t)
  }

  lemma DecideKeepsSearch(k: Setup, s: State, t: nat, r: State)
    requires WellFormed(s) && k.First() <= t < |k.bars| && Decide(k, s, t) == Ok(r)
    requires Searching(k, s, t) && EmptyHanded(s)
    ensures Searching(k, r, t + 1)
  {
    DecideScansOrPasses(k, s, t, r);
    if s.units == 0.0 && s.pending.NoOrder? && t > s.cooldownUntil {
      ScanWaits(k, s, t, r);
      ScanRemembers(k, s, t, r);
    }
  }

  lemma DecideKeepsCredit(k: Setup, s: State, t: nat, r: State)
    requires WellFormed(s) && k.First() <= t < |k.bars| && Decide(k, s, t) == Ok(r)
    requires Searching(k, s, t) && EmptyHanded(s) && Credited(k, s)
    ensures Credited(k, r)
  {
    DecideScansOrPasses(k, s, t, r);
    if s.units == 0.0 && s.pending.NoOrder? && t > s.cooldownUntil { ScanEarns(k, s, t, r); }
  }

  lemma LastExitIsPrior(es: seq<Episode>, t: nat)
    requires es != [] ==> es[|es| - 1].exit.Some? && es[|es| - 1].exit.value.index <= t
    ensures LastExited(es, t) == Prior(es)
  {
  }

  lemma DecideKeepsBacking(k: Setup, s: State, t: nat, r: State)
    requires WellFormed(s) && k.First() <= t < |k.bars| && Decide(k, s, t) == Ok(r)
    requires Searching(k, s, t) && EmptyHanded(s) && AllBacked(k, s, t + 1)
    ensures AllBacked(k, r, t + 1)
  {
    DecideScansOrPasses(k, s, t, r);
    var n := |s.events|;
    forall j | 0 <= j < |r.events| ensures r.events[j].day < t + 1 && Backed(k, r.events[j], r.closed) {
      if j < n {
        assert r.events[j] == s.events[j];
      } else if s.units == 0.0 && s.pending.NoOrder? && t > s.cooldownUntil {
        ScanEarns(k, s, t, r);
        LastExitIsPrior(s.closed, t);
      }
    }
  }

  // ---------------------------------------------------------------- every state of every run

  ghost predicate Justified(k: Setup, s: State, t: nat) {
    Searching(k, s, t) && Credited(k, s) && AllBacked(k, s, t)
  }

  lemma MarkIsIgnored(k: Setup, d: State, t: nat, r: State)
    requires Justified(k, d, t) && r == d.(mark := r.mark)
    ensures Justified(k, r, t)
  {
  }

  lemma FillKeepsHands(k: Setup, f: State, t: nat, d: State)
    requires WellFormed(f) && 1 <= t < |k.bars| && Decide(k, f, t) == Ok(d) && EmptyHanded(d)
    ensures EmptyHanded(f)
  {
    DecideScansOrPasses(k, f, t, d);
  }

  lemma SessionIsJustified(k: Setup, s: State, t: nat, r: State)
    requires k.Valid() && WellFormed(s) && k.First() <= t < |k.bars| && Session(k, s, t) == Ok(r)
    requires Justified(k, s, t) && EmptyHanded(r)
    ensures Justified(k, r, t + 1)
  {
    var f, d := Halves(k, s, t, r);
    HalvesAreJustified(k, s, t, f, d);
    MarkIsIgnored(k, d, t + 1, r);
  }

  lemma HalvesAreJustified(k: Setup, s: State, t: nat, f: State, d: State)
    requires k.Valid() && WellFormed(s) && WellFormed(f) && k.First() <= t < |k.bars| && f == Fill(k, s, t) && Decide(k, f, t) == Ok(d)
    requires Justified(k, s, t) && EmptyHanded(d)
    ensures Justified(k, d, t + 1)
  {
    OpenIsJustified(k, s, t, f);
    CloseIsJustified(k, f, t, d);
  }

  lemma Halves(k: Setup, s: State, t: nat, r: State) returns (f: State, d: State)
    requires k.Valid() && WellFormed(s) && 1 <= t < |k.bars| && Session(k, s, t) == Ok(r)
    ensures f == Fill(k, s, t) && WellFormed(f) && Decide(k, f, t) == Ok(d) && r == d.(mark := r.mark)
  {
    f := Fill(k, s, t);
    d := Decide(k, f, t).value;
  }

  lemma OpenIsJustified(k: Setup, s: State, t: nat, f: State)
    requires k.Valid() && WellFormed(s) && t < |k.bars| && Justified(k, s, t) && f == Fill(k, s, t)
    ensures Searching(k, f, t) && Credited(k, f) && AllBacked(k, f, t + 1)
  {
    FillKeepsWaiting(k, s, t);
    FillRemembers(k, s, t);
    FillKeepsCredit(k, s, t);
    FillKeepsBacking(k, s, t);
  }

  lemma CloseIsJustified(k: Setup, f: State, t: nat, d: State)
    requires WellFormed(f) && k.First() <= t < |k.bars| && Decide(k, f, t) == Ok(d)
    requires Searching(k, f, t) && EmptyHanded(d) && Credited(k, f) && AllBacked(k, f, t + 1)
    ensures Justified(k, d, t + 1)
  {
    FillKeepsHands(k, f, t, d);
    DecideKeepsSearch(k, f, t, d);
    DecideKeepsCredit(k, f, t, d);
    DecideKeepsBacking(k, f, t, d);
  }

  lemma {:induction false} EveryStateIsJustified(k: Setup, t: nat, s: State)
    requires k.Valid() && k.First() <= t <= k.Last() && After(k, t) == Ok(s)
    ensures Justified(k, s, t)
    decreases t
  {
    if t > k.First() {
      var before := After(k, t - 1).value;
      EveryStateIsJustified(k, t - 1, before);
      NextIsJustified(k, t - 1, before, s);
    }
  }

  lemma NextIsJustified(k: Setup, t: nat, s: State, r: State)
    requires k.Valid() && k.First() <= t < k.Last() && After(k, t) == Ok(s) && After(k, t + 1) == Ok(r) && Justified(k, s, t)
    ensures Justified(k, r, t + 1)
  {
    HandsAfter(k, t, s, r);
    SessionIsJustified(k, s, t, r);
  }

  lemma HandsAfter(k: Setup, t: nat, s: State, r: State)
    requires k.Valid() && k.First() <= t < k.Last() && After(k, t) == Ok(s) && After(k, t + 1) == Ok(r)
    ensures WellFormed(s) && Session(k, s, t) == Ok(r) && EmptyHanded(r)
  {
    SessionAt(k, t, s, r);
    EveryStateIsEmptyHanded(k, t + 1, r);
  }

  /**
    Every listed trade, at every target. A fresh breakout crossed the range when no continuation applied,
    every close from then through the confirmation stayed above its trigger, and the confirmation is the
    first close with enough sessions or enough volume. A continuation closed above the peak of the trade
    before it, within the wait, and was bought on that close.
   */
  lemma TradesAreEarned(k: Setup, run: Run, i: nat)
    requires Produces(k, run) && i < |run.episodes|
    ensures Earned(k, run.episodes[i].signal, PriorAt(run.episodes, i))
  {
    var s := At(k, k.Last());
    EveryStateIsJustified(k, k.Last(), s);
    StateTradesAreEarned(k, s, i);
  }

  lemma TradesListed(s: State, i: nat)
    requires i < |s.Trades()|
    ensures PriorAt(s.Trades(), i) == PriorAt(s.closed, i)
    ensures s.Trades()[i] == if i < |s.closed| then s.closed[i] else s.episode.value
    ensures i >= |s.closed| ==> i == |s.closed| && s.episode.Some?
  {
  }

  lemma StateTradesAreEarned(k: Setup, s: State, i: nat)
    requires Credited(k, s) && i < |s.Trades()|
    ensures Earned(k, s.Trades()[i].signal, PriorAt(s.Trades(), i))
  {
    TradesListed(s, i);
    if i < |s.closed| { EachIsEarned(k, s.closed, i); }
  }

  lemma OpenTradeIsIgnored(s: State, d: nat)
    requires s.episode.Some? ==> s.episode.value.exit.None?
    ensures LastExited(s.Trades(), d) == LastExited(s.closed, d)
  {
    if s.episode.Some? { assert s.Trades()[..|s.closed|] == s.closed; }
  }

  /** Every order to buy, filled or not, at every target: it was earned at its own close. */
  lemma PurchasesAreEarned(k: Setup, run: Run, j: nat) returns (g: Signal)
    requires Produces(k, run) && j < |run.events| && run.events[j].side == Buy
    ensures g.confirmation == run.events[j].day && Earned(k, g, LastExited(run.episodes, run.events[j].day))
  {
    var s, o := At(k, k.Last()), run.events[j];
    EveryStateIsJustified(k, k.Last(), s);
    assert Backed(k, o, s.closed);
    OpenTradeIsIgnored(s, o.day);
    g :| g.confirmation == o.day && Earned(k, g, LastExited(s.closed, o.day));
  }

  // ---------------------------------------------------------------- the one way to fail

  lemma OnlyScansFail(k: Setup, f: State, t: nat)
    requires WellFormed(f) && 1 <= t < |k.bars| && Decide(k, f, t).Err?
    ensures Idle(f, t) && (k.bars[t].atr.None? || k.bars[t].atr.value <= 0.0)
    ensures Tested(k, f, t).Some? && Confirms(k.rules, k.bars[t], Tested(k, f, t).value)
  {
  }

  /** The engine stops only where a close confirms a breakout and its range is unknown or not positive. */
  lemma StopsOnlyAtUnusableRange(k: Setup, t: nat) returns (c: Candidate, prior: Option<Episode>)
    requires k.Valid() && k.First() <= t < k.Last() && After(k, t).Ok? && After(k, t + 1).Err?
    ensures k.bars[t].atr.None? || k.bars[t].atr.value <= 0.0
    ensures prior == Prior(Fill(k, After(k, t).value, t).closed) && Entitled(k, c, t, prior)
  {
    var s := After(k, t).value;
    EveryStateIsJustified(k, t, s);
    var f := Fill(k, s, t);
    OpenIsJustified(k, s, t, f);
    assert Decide(k, f, t).Err?;
    FilledHands(k, s, t, f);
    OnlyScansFail(k, f, t);
    TestedStands(k, f, t);
    c, prior := Tested(k, f, t).value, Prior(f.closed);
    StandingEarns(k, prior, c, t, 0.0);
  }

  lemma FilledHands(k: Setup, s: State, t: nat, f: State)
    requires k.Valid() && k.First() <= t < k.Last() && After(k, t) == Ok(s) && f == Fill(k, s, t)
    ensures EmptyHanded(f)
  {
    if k.target > 0.0 {
      RunsAreCoherent(k, t, s);
      FillKeepsCoherent(k, s, t);
    } else {
      FlatRuns(k, t, s);
      FlatFill(k, s, t);
    }
  }

  // ---------------------------------------------------------------- no purchase is missed

  /** The engine looks for an entry at close `t`: flat, nothing queued, out of every cooldown. */
  ghost predicate Looks(k: Setup, run: Run, t: nat) {
    && t < |run.held| && !run.held[t]
    && forall j :: 0 <= j < |run.events| && run.events[j].day < t ==>
         run.events[j].fill + (if run.events[j].side == Sell then k.rules.cooldown else 0) <= t
  }

  ghost predicate Buys(run: Run, t: nat) {
    exists j :: 0 <= j < |run.events| && run.events[j].side == Buy && run.events[j].day == t
  }

  /** The level shown from the crossing through close `t`. */
  ghost predicate Charted(h: seq<State>, c: Candidate, t: nat) {
    t + 1 < |h| && forall d :: c.crossing < d <= t + 1 ==> h[d].level == Some(c.trigger)
  }

  /** A breakout of level `x` has been waiting since close `c`, and no close through `t` has confirmed it. */
  ghost predicate Pends(k: Setup, run: Run, prior: Option<Episode>, c: nat, t: nat, x: real) {
    && k.First() <= c <= t < |k.bars| && |run.level| == |k.bars|
    && k.bars[c].cross.Some? && k.bars[c].cross.value.boundary == x && !Resumes(k, prior, c)
    && (forall d :: c < d <= t ==> k.bars[d].close > x)
    && Unconfirmed(k, c, t + 1)
    && forall d :: c <= d <= t ==> run.level[d] == Some(x)
  }

  /** A filled state that looks for an entry. */
  ghost predicate Idle(f: State, t: nat) {
    f.units == 0.0 && f.pending.NoOrder? && t > f.cooldownUntil
  }

  lemma LookingIsIdle(k: Setup, f: State, t: nat, r: State)
    requires Coherent(k, f, t + 1) && Funded(k, f) && !r.Held() && r.units == f.units
    requires |f.events| > 0 ==>
      var o := f.events[|f.events| - 1]; o.fill + (if o.side == Sell then k.rules.cooldown else 0) <= t
    ensures Idle(f, t)
  {
    var n := |f.events|;
    if n > 0 && f.pending.NoOrder? && f.episode.None? { assert n % 2 == 0 && f.events[n - 1].side == Sell; }
  }

  /** A scanned close: a standing candidate waits on, is bought, or is missing because nothing started. */
  ghost predicate Reports(k: Setup, s: State, t: nat, r: State)
    requires 1 <= t < |k.bars|
  {
    && r.closed == s.closed
    && (r.level.None? ==> r.events == s.events && r.candidate.None? && k.bars[t].cross.None? && !Resumes(k, Prior(s.closed), t))
    && (r.level.Some? ==>
          || (r.events == s.events && r.candidate.Some? && r.candidate.value.trigger == r.level.value)
          || (r.events == s.events + [Order(t, Buy, t + 1 + k.delay)] && r.pending.BuyOrder?
              && r.pending.signal.confirmation == t && r.pending.signal.candidate.trigger == r.level.value))
    && (s.candidate.Some? && k.bars[t].close > s.candidate.value.trigger ==> r.level == Some(s.candidate.value.trigger))
  }

  lemma ScanReports(k: Setup, s: State, t: nat, r: State)
    requires k.First() <= t < |k.bars| && Scans(k, s, t, r) && Searching(k, s, t) && Idle(s, t) && EmptyHanded(s)
    ensures Reports(k, s, t, r)
  {
    TestedStands(k, s, t);
  }

  lemma LooksAt(k: Setup, s: State, t: nat, r: State, f: State, d: State)
    requires k.Valid() && WellFormed(s) && WellFormed(f) && k.First() <= t < |k.bars| && Justified(k, s, t)
    requires f == Fill(k, s, t) && Decide(k, f, t) == Ok(d) && r == d.(mark := r.mark)
    requires Idle(f, t) && EmptyHanded(r)
    ensures Reports(k, f, t, r)
  {
    OpenIsJustified(k, s, t, f);
    FillKeepsHands(k, f, t, d);
    ScanScans(k, f, t, d);
    ScanReports(k, f, t, d);
  }

  /** The history of a run, with the engine behind each of its states. */
  ghost predicate Backs(k: Setup, h: seq<State>) {
    Story(k, h) && forall t :: k.First() <= t < |h| ==> Traced(k, h, t)
  }

  lemma StoryHalves(k: Setup, h: seq<State>, t: nat) returns (f: State, d: State)
    requires Backs(k, h) && k.First() <= t < |h| - 1
    ensures WellFormed(h[t]) && Justified(k, h[t], t) && EmptyHanded(h[t + 1])
    ensures f == Fill(k, h[t], t) && WellFormed(f) && Decide(k, f, t) == Ok(d) && h[t + 1] == d.(mark := h[t + 1].mark)
  {
    StorySession(k, h, t);
    f, d := Halves(k, h[t], t, h[t + 1]);
  }

  lemma StorySession(k: Setup, h: seq<State>, t: nat)
    requires Backs(k, h) && k.First() <= t < |h| - 1
    ensures WellFormed(h[t]) && Session(k, h[t], t) == Ok(h[t + 1])
    ensures Justified(k, h[t], t) && EmptyHanded(h[t + 1])
  {
    assert Traced(k, h, t) && Traced(k, h, t + 1);
    SessionAt(k, t, h[t], h[t + 1]);
    EveryStateIsJustified(k, t, h[t]);
    EveryStateIsEmptyHanded(k, t + 1, h[t + 1]);
  }

  lemma DecideKeepsUnits(k: Setup, f: State, t: nat, d: State)
    requires WellFormed(f) && 1 <= t < |k.bars| && Decide(k, f, t) == Ok(d)
    ensures d.units == f.units
  {
    DecideScansOrPasses(k, f, t, d);
  }

  lemma StoryLooks(k: Setup, h: seq<State>, run: Run, t: nat) returns (f: State)
    requires Tells(k, h, run) && Backs(k, h) && k.First() <= t < k.Last() && Looks(k, run, t)
    ensures WellFormed(h[t]) && f == Fill(k, h[t], t) && Idle(f, t) && f.events == h[t].events && f.candidate == h[t].candidate
    ensures Reports(k, f, t, h[t + 1])
  {
    var d;
    f, d := StoryHalves(k, h, t);
    assert Shows(k, h, run, t);
    FilledIsCoherent(k, h, t);
    DecideKeepsUnits(k, f, t, d);
    LastIsListed(k, h, run, t);
    LookingIsIdle(k, f, t, h[t + 1]);
    LooksAt(k, h[t], t, h[t + 1], f, d);
  }

  lemma FilledIsCoherent(k: Setup, h: seq<State>, t: nat)
    requires Backs(k, h) && k.First() <= t < |h| - 1
    ensures WellFormed(h[t]) && Coherent(k, Fill(k, h[t], t), t + 1) && Funded(k, Fill(k, h[t], t))
    ensures Fill(k, h[t], t).events == h[t].events && Fill(k, h[t], t).candidate == h[t].candidate
  {
    assert Traced(k, h, t);
    assert Sound(k, h, t);
    FillKeepsCoherent(k, h[t], t);
  }

  /** The last order before session `t` is one of the run's. */
  lemma LastIsListed(k: Setup, h: seq<State>, run: Run, t: nat)
    requires Tells(k, h, run) && k.First() <= t < k.Last() && Looks(k, run, t)
    ensures |h[t].events| > 0 ==>
      var o := h[t].events[|h[t].events| - 1]; o.fill + (if o.side == Sell then k.rules.cooldown else 0) <= t
  {
    EventsGrow(k, h, t, k.Last());
    assert Sound(k, h, t);
    var n := |h[t].events|;
    if n > 0 { assert run.events[n - 1] == h[t].events[n - 1]; }
  }

  // ---------------------------------------------------------------- the level on the chart

  /** The breakout that the close of session `t` worked on: still waiting, or just bought. */
  function Current(r: State, t: nat): Option<Candidate> {
    if r.candidate.Some? then r.candidate
    else if r.pending.BuyOrder? && r.pending.signal.confirmation == t then Some(r.pending.signal.candidate)
    else None
  }

  ghost predicate SameBreakout(s: State, c: Candidate) {
    s.candidate.Some? && s.candidate.value.crossing == c.crossing && s.candidate.value.trigger == c.trigger
  }

  lemma ScanIsCurrent(k: Setup, f: State, t: nat, d: State)
    requires k.First() <= t < |k.bars| && Scans(k, f, t, d) && Searching(k, f, t) && Idle(f, t) && EmptyHanded(f) && Current(d, t).Some?
    ensures var c := Current(d, t).value; d.level == Some(c.trigger) && (c.crossing == t || SameBreakout(f, c))
  {
    TestedStands(k, f, t);
  }

  lemma PassIsNotCurrent(k: Setup, f: State, t: nat, d: State)
    requires Passes(f, t, d) && Waits(k, d, t + 1) && (f.pending.BuyOrder? ==> f.pending.signal.confirmation < t)
    ensures Current(d, t).None?
  {
  }

  lemma FillDates(k: Setup, s: State, t: nat)
    requires k.Valid() && WellFormed(s) && t < |k.bars| && Justified(k, s, t)
    ensures Fill(k, s, t).pending.BuyOrder? ==> Fill(k, s, t).pending.signal.confirmation < t
    ensures Fill(k, s, t).candidate == s.candidate
  {
  }

  lemma CurrentStep(k: Setup, s: State, t: nat, r: State, f: State, d: State)
    requires k.Valid() && WellFormed(s) && WellFormed(f) && k.First() <= t < |k.bars| && Justified(k, s, t)
    requires f == Fill(k, s, t) && Decide(k, f, t) == Ok(d) && r == d.(mark := r.mark)
    requires EmptyHanded(r) && Current(r, t).Some?
    ensures var c := Current(r, t).value; r.level == Some(c.trigger) && (c.crossing == t || SameBreakout(s, c))
  {
    OpenIsJustified(k, s, t, f);
    FillDates(k, s, t);
    FillKeepsHands(k, f, t, d);
    DecideKeepsSearch(k, f, t, d);
    DecideScansOrPasses(k, f, t, d);
    if Idle(f, t) { ScanIsCurrent(k, f, t, d); } else { PassIsNotCurrent(k, f, t, d); }
  }

  lemma {:induction false} CurrentIsCharted(k: Setup, h: seq<State>, t: nat)
    requires Backs(k, h) && k.First() <= t < |h| - 1 && Current(h[t + 1], t).Some?
    ensures Charted(h, Current(h[t + 1], t).value, t)
    decreases t
  {
    StoryCurrent(k, h, t);
    var c := Current(h[t + 1], t).value;
    if c.crossing != t {
      assert t > k.First();
      CurrentIsCharted(k, h, t - 1);
    }
  }

  lemma StoryCurrent(k: Setup, h: seq<State>, t: nat)
    requires Backs(k, h) && k.First() <= t < |h| - 1 && Current(h[t + 1], t).Some?
    ensures var c := Current(h[t + 1], t).value; h[t + 1].level == Some(c.trigger) && (c.crossing == t || SameBreakout(h[t], c))
  {
    var f, d := StoryHalves(k, h, t);
    CurrentStep(k, h[t], t, h[t + 1], f, d);
  }

  /** Signal `g` is that of the queued purchase or of a trade. */
  ghost predicate Carried(s: State, g: Signal) {
    || (s.pending.BuyOrder? && s.pending.signal == g)
    || (s.episode.Some? && s.episode.value.signal == g)
    || exists e :: e in s.closed && e.signal == g
  }

  lemma FillCarries(k: Setup, s: State, t: nat, g: Signal)
    requires k.Valid() && WellFormed(s) && t < |k.bars| && Carried(Fill(k, s, t), g)
    ensures Carried(s, g)
  {
    var f := Fill(k, s, t);
    if e :| e in f.closed && e.signal == g {
      assert e in s.closed || (s.episode.Some? && s.episode.value.signal == g);
    }
  }

  lemma DecideCarries(k: Setup, f: State, t: nat, d: State, g: Signal)
    requires WellFormed(f) && 1 <= t < |k.bars| && Decide(k, f, t) == Ok(d) && Carried(d, g)
    ensures Carried(f, g) || (d.candidate.None? && d.pending.BuyOrder? && d.pending.signal == g && g.confirmation == t)
  {
    DecideScansOrPasses(k, f, t, d);
  }

  lemma CarriedStep(k: Setup, s: State, t: nat, r: State, f: State, d: State, g: Signal)
    requires k.Valid() && WellFormed(s) && WellFormed(f) && 1 <= t < |k.bars|
    requires f == Fill(k, s, t) && Decide(k, f, t) == Ok(d) && r == d.(mark := r.mark) && Carried(r, g)
    ensures Carried(s, g) || (g.confirmation == t && Current(r, t) == Some(g.candidate))
  {
    assert Carried(d, g);
    DecideCarries(k, f, t, d, g);
    if Carried(f, g) { FillCarries(k, s, t, g); }
  }

  lemma StoryCarries(k: Setup, h: seq<State>, t: nat, g: Signal)
    requires Backs(k, h) && k.First() <= t < |h| - 1 && Carried(h[t + 1], g)
    ensures Carried(h[t], g) || (g.confirmation == t && Current(h[t + 1], t) == Some(g.candidate))
  {
    var f, d := StoryHalves(k, h, t);
    CarriedStep(k, h[t], t, h[t + 1], f, d, g);
  }

  lemma {:induction false} CarriedIsCharted(k: Setup, h: seq<State>, t: nat, g: Signal)
    requires Backs(k, h) && k.First() <= t < |h| && Carried(h[t], g)
    ensures Charted(h, g.candidate, g.confirmation)
    decreases t
  {
    if t > k.First() {
      StoryCarries(k, h, t - 1, g);
      if Carried(h[t - 1], g) {
        CarriedIsCharted(k, h, t - 1, g);
      } else {
        CurrentIsCharted(k, h, t - 1);
      }
    }
  }

  lemma Backing(k: Setup, run: Run) returns (h: seq<State>)
    requires k.target > 0.0 && Produces(k, run)
    ensures Tells(k, h, run) && Backs(k, h)
  {
    h := StoryOf(k, run);
  }

  /** The run's level is the trade's trigger at every close from the crossing through the confirmation. */
  lemma TradesAreCharted(k: Setup, run: Run, i: nat, d: nat)
    requires k.target > 0.0 && Produces(k, run) && i < |run.episodes|
    requires var g := run.episodes[i].signal; g.candidate.crossing <= d <= g.confirmation
    ensures d < |run.level| && run.level[d] == Some(run.episodes[i].signal.candidate.trigger)
  {
    var g := run.episodes[i].signal;
    var h := Backing(k, run);
    TradesAreEarned(k, run, i);
    TradesListed(h[k.Last()], i);
    assert Carried(h[k.Last()], g);
    CarriedIsCharted(k, h, k.Last(), g);
    assert Shows(k, h, run, d);
    assert h[d + 1].level == Some(g.candidate.trigger);
  }

  // ---------------------------------------------------------------- the two completeness results

  lemma {:induction false} LastExitedOfPrefix(es: seq<Episode>, n: nat, t: nat)
    requires n <= |es|
    requires n > 0 ==> es[n - 1].exit.Some? && es[n - 1].exit.value.index <= t
    requires forall i :: n <= i < |es| ==> es[i].exit.None? || es[i].exit.value.index > t
    ensures LastExited(es, t) == PriorAt(es, n)
  {
    if |es| > n { LastExitedOfPrefix(es[..|es| - 1], n, t); }
  }

  lemma LaterTradesExitLater(k: Setup, s: State, t: nat, u: nat, r: State, i: nat)
    requires Extends(s, t, r) && TradeBook(k, r, u) && s.episode.None? && |s.closed| <= i < |r.Trades()|
    ensures r.Trades()[i].exit.None? || r.Trades()[i].exit.value.index >= t
  {
    assert r.Trades()[i].entryIndex >= t;
    if i < |r.closed| { assert Completed(k, r.closed[i]); }
  }

  lemma PriorOfRun(k: Setup, h: seq<State>, t: nat)
    requires Backs(k, h) && k.First() <= t < |h| - 1 && h[t + 1].episode.None?
    ensures LastExited(h[|h| - 1].Trades(), t) == Prior(h[t + 1].closed)
  {
    var s, u := h[t + 1], |h| - 1;
    var r := h[u];
    TradesAround(k, h, t + 1, u);
    TradesAreBooked(k, h, u);
    PriorOfLater(k, s, t, u, r);
  }

  lemma PriorOfLater(k: Setup, s: State, t: nat, u: nat, r: State)
    requires TradeBook(k, s, t + 1) && Extends(s, t + 1, r) && TradeBook(k, r, u) && s.episode.None?
    ensures LastExited(r.Trades(), t) == Prior(s.closed)
  {
    var n, es := |s.closed|, r.Trades();
    LastClosedStays(k, s, t, r);
    forall i | n <= i < |es| ensures es[i].exit.None? || es[i].exit.value.index > t {
      LaterTradesExitLater(k, s, t + 1, u, r, i);
    }
    LastExitedOfPrefix(es, n, t);
  }

  lemma LastClosedStays(k: Setup, s: State, t: nat, r: State)
    requires TradeBook(k, s, t + 1) && Extends(s, t + 1, r)
    ensures |s.closed| <= |r.Trades()|
    ensures var n := |s.closed|; n > 0 ==>
      s.closed[n - 1].exit.Some? && s.closed[n - 1].exit.value.index <= t && r.Trades()[n - 1] == s.closed[n - 1]
  {
    if s.closed != [] { assert Completed(k, s.closed[|s.closed| - 1]); }
  }

  lemma BuyIsListed(k: Setup, h: seq<State>, run: Run, t: nat)
    requires Tells(k, h, run) && k.First() <= t < k.Last() && !Buys(run, t)
    ensures h[t + 1].events != h[t].events + [Order(t, Buy, t + 1 + k.delay)]
  {
    var n := |h[t].events|;
    EventsGrow(k, h, t + 1, k.Last());
    if |h[t + 1].events| == n + 1 {
      assert run.events[n] == h[t + 1].events[n];
    }
  }

  /** A close that looks for an entry and does not buy, read off the engine's states. */
  lemma StoryMissesNothing(k: Setup, h: seq<State>, run: Run, t: nat)
    requires Tells(k, h, run) && Backs(k, h) && k.First() <= t < k.Last() && Looks(k, run, t) && !Buys(run, t)
    ensures h[t + 1].episode.None? && Waits(k, h[t + 1], t + 1)
    ensures h[t + 1].level == (if h[t + 1].candidate.Some? then Some(h[t + 1].candidate.value.trigger) else None)
    ensures h[t + 1].level.None? ==> k.bars[t].cross.None? && !Resumes(k, Prior(h[t + 1].closed), t)
  {
    var f := StoryLooks(k, h, run, t);
    BuyIsListed(k, h, run, t);
    assert Shows(k, h, run, t) && Sound(k, h, t + 1) && Traced(k, h, t + 1);
    EveryStateIsJustified(k, t + 1, h[t + 1]);
  }

  /**
    No purchase is missed. Where the engine looks for an entry and does not buy, either it shows no level, and
    the close neither crosses the range nor continues the last closed trade; or the level is that of a crossing
    whose later closes all stayed above it, and none of them, nor this one, confirms it.
   */
  lemma NoPurchaseIsMissed(k: Setup, run: Run, t: nat)
    requires k.target > 0.0 && Produces(k, run) && k.First() <= t < k.Last() && Looks(k, run, t) && !Buys(run, t)
    ensures |run.level| == |k.bars| && var prior := LastExited(run.episodes, t);
      && (run.level[t].None? ==> k.bars[t].cross.None? && !Resumes(k, prior, t))
      && (run.level[t].Some? ==> exists c :: Pends(k, run, prior, c, t, run.level[t].value))
  {
    var h := Backing(k, run);
    StoryMissesNothing(k, h, run, t);
    PriorOfRun(k, h, t);
    assert Shows(k, h, run, t);
    if run.level[t].Some? {
      CurrentIsCharted(k, h, t);
      LevelPends(k, h, run, t);
    }
  }

  lemma LevelPends(k: Setup, h: seq<State>, run: Run, t: nat)
    requires Tells(k, h, run) && k.First() <= t < k.Last() && |run.level| == |k.bars| && h[t + 1].candidate.Some?
    requires Waits(k, h[t + 1], t + 1) && Charted(h, h[t + 1].candidate.value, t)
    ensures var c := h[t + 1].candidate.value; Pends(k, run, Prior(h[t + 1].closed), c.crossing, t, c.trigger)
  {
    var c := h[t + 1].candidate.value;
    forall d | c.crossing <= d <= t ensures run.level[d] == Some(c.trigger) {
      assert Shows(k, h, run, d);
      assert h[d + 1].level == Some(c.trigger);
    }
  }

  /** A breakout that waits is not dropped: a close above its level keeps the level on the chart, whatever else it crosses. */
  lemma WaitingGoesOn(k: Setup, run: Run, t: nat)
    requires k.target > 0.0 && Produces(k, run) && k.First() <= t < k.Last() - 1 && Looks(k, run, t) && !Buys(run, t)
    requires |run.level| == |k.bars| && run.level[t].Some? && k.bars[t + 1].close > run.level[t].value
    ensures run.level[t + 1] == run.level[t]
  {
    var h := Backing(k, run);
    StoryMissesNothing(k, h, run, t);
    assert Shows(k, h, run, t) && Shows(k, h, run, t + 1);
    var f, d := StoryHalves(k, h, t + 1);
    assert f == h[t + 1];
    LooksAt(k, h[t + 1], t + 1, h[t + 2], f, d);
  }
}
