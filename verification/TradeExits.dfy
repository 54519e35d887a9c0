/**
  When a trade ends, on every run: at the first close from its entry that meets one of the four exit
  tests, and for the first of them in the engine's order. Stops, peaks and heat are written out in closes.
 */
module TradeExits {
  import opened Common
  import opened BreakoutEngine
  import opened OrderBook
  import opened RunHistory
  import opened TradeHistory
  import opened StopReview
  import opened RunTheorems

  // ---------------------------------------------------------------- the four tests, on a run's outputs

  /** Close `d` is a reason to leave trade `e`. */
  ghost predicate Calls(k: Setup, run: Run, e: Episode, d: nat, reason: Reason)
    requires d < |k.bars| == |run.stop|
  {
    var r, close := k.rules, k.bars[d].close;
    match reason
    case StopHit => run.stop[d].Some? && close < run.stop[d].value
    case TimeLimit =>
      && r.timeLimit != 0 && d >= e.entryIndex + r.timeLimit
      && forall u :: e.entryIndex <= u <= d ==> k.bars[u].close < GainLevel(r, e)
    case ChannelBreak => k.bars[d].channelExit.Some? && close < k.bars[d].channelExit.value
    case AgeLimit => r.maxHold != 0 && d >= e.entryIndex + r.maxHold
  }

  /** The level that a trade has to reach in time. */
  ghost function GainLevel(r: Rules, e: Episode): real { e.entry + r.timeExitGainAtr * e.signal.atr }

  function Precedence(reason: Reason): nat {
    match reason case StopHit => 0 case TimeLimit => 1 case ChannelBreak => 2 case AgeLimit => 3
  }

  /** `reason` is the first one close `d` gives. */
  ghost predicate CallsFirst(k: Setup, run: Run, e: Episode, d: nat, reason: Reason)
    requires d < |k.bars| == |run.stop|
  {
    && Calls(k, run, e, d, reason)
    && forall other: Reason :: Precedence(other) < Precedence(reason) ==> !Calls(k, run, e, d, other)
  }

  ghost predicate Silent(k: Setup, run: Run, e: Episode, d: nat)
    requires d < |k.bars| == |run.stop|
  {
    forall reason: Reason :: !Calls(k, run, e, d, reason)
  }

  // ---------------------------------------------------------------- one close

  /** The decision a close leaves on the open trade, in the engine's own variables. */
  ghost predicate Decided(r: Rules, bar: Bar, t: nat, x: Episode) {
    x.decision == (if ExitReason(r, bar, x, t).None? then None else Some(Decision(t, ExitReason(r, bar, x, t).value)))
  }

  lemma ManageDecides(k: Setup, s: State, t: nat, r: State)
    requires WellFormed(s) && s.episode.Some? && t < |k.bars| && r == Manage(k, s, t)
    requires s.pending.NoOrder? && s.episode.value.decision.None?
    ensures r.episode.Some? && Decided(k.rules, k.bars[t], t, r.episode.value)
  {
  }

  lemma OpenTradeIsFree(k: Setup, f: State, t: nat)
    requires Linked(k, f, t) && f.episode.Some? && f.episode.value.decision.None?
    ensures f.pending.NoOrder? && f.units > 0.0
  {
  }

  lemma FillKeepsUndecided(k: Setup, s: State, t: nat)
    requires k.Valid() && WellFormed(s) && t < |k.bars|
    requires s.episode.Some? ==> s.episode.value.decision.None?
    ensures Fill(k, s, t).episode.Some? ==> Fill(k, s, t).episode.value.decision.None?
  {
  }

  lemma DecideKeepsNone(k: Setup, f: State, t: nat, r: State)
    requires WellFormed(f) && 1 <= t < |k.bars| && Decide(k, f, t) == Ok(r) && f.episode.None?
    ensures r.episode.None?
  {
  }

  lemma SessionDecides(k: Setup, t: nat, s: State, r: State)
    requires k.Valid() && k.target > 0.0 && WellFormed(s) && 1 <= t < |k.bars| && Session(k, s, t) == Ok(r)
    requires Coherent(k, s, t) && Funded(k, s)
    requires r.episode.Some? && (s.episode.Some? ==> s.episode.value.decision.None?)
    ensures Decided(k.rules, k.bars[t], t, r.episode.value)
  {
    var f := Fill(k, s, t);
    var d := Decide(k, f, t).value;
    assert r.episode == d.episode;
    FillKeepsCoherent(k, s, t);
    FillKeepsUndecided(k, s, t);
    if f.episode.None? {
      DecideKeepsNone(k, f, t, d);
    } else {
      OpenTradeIsFree(k, f, t + 1);
      ManageDecides(k, f, t, d);
    }
  }

  lemma StoryDecides(k: Setup, h: seq<State>, t: nat)
    requires Story(k, h) && k.First() <= t < |h| - 1 && Traced(k, h, t) && Traced(k, h, t + 1)
    requires h[t + 1].episode.Some? && (h[t].episode.Some? ==> h[t].episode.value.decision.None?)
    ensures Decided(k.rules, k.bars[t], t, h[t + 1].episode.value)
  {
    assert Sound(k, h, t);
    SessionAt(k, t, h[t], h[t + 1]);
    SessionDecides(k, t, h[t], h[t + 1]);
  }

  // ---------------------------------------------------------------- peaks in terms of closes

  lemma {:induction false} PeakBelow(k: Setup, w: Ticket, t: nat, level: real)
    requires w.entryIndex <= t < |k.bars|
    ensures Ratcheted(k, w, t).peak < level <==> forall u :: w.entryIndex <= u <= t ==> k.bars[u].close < level
    decreases t
  {
    if t > w.entryIndex { PeakBelow(k, w, t - 1, level); }
  }

  // ---------------------------------------------------------------- a listed trade

  /** The trade before close `d`, while the exit is not yet decided. */
  lemma StillUndecided(k: Setup, h: seq<State>, i: nat, d: nat)
    requires Story(k, h) && k.First() <= d < |h| - 1 && i < |h[|h| - 1].Trades()|
    requires var e := h[|h| - 1].Trades()[i]; Spans(e, d) && (e.decision.Some? ==> d <= e.decision.value.day)
    ensures var e := h[|h| - 1].Trades()[i];
      && h[d + 1].episode.Some? && (h[d].episode.Some? ==> h[d].episode.value.decision.None?)
      && d < |k.bars| && h[d + 1].episode.value.(decision := None) == Ratcheted(k, TicketOf(e), d)
      && h[d + 1].episode.value.decision == (if e.decision.Some? && e.decision.value.day == d then e.decision else None)
  {
    OpenTradeIs(k, h, i, d);
    EngineRatchets(k, h, d);
    TradeMovesAt(k, h, d);
    TradesAreBooked(k, h, d);
  }

  /** Reading the engine's test of an unqueued close off the listed stop and the closes. */
  lemma TestsAreCalls(k: Setup, run: Run, e: Episode, d: nat, x: Episode)
    requires e.entryIndex <= d < |k.bars| == |run.stop| && x.(decision := None) == Ratcheted(k, TicketOf(e), d)
    requires run.stop[d] == Some(x.stop)
    ensures ExitReason(k.rules, k.bars[d], x, d).None? <==> Silent(k, run, e, d)
    ensures ExitReason(k.rules, k.bars[d], x, d).Some? ==> CallsFirst(k, run, e, d, ExitReason(k.rules, k.bars[d], x, d).value)
  {
    PeakBelow(k, TicketOf(e), d, GainLevel(k.rules, e));
    var reason := ExitReason(k.rules, k.bars[d], x, d);
    assert TicketOf(x.(decision := None)) == TicketOf(e);
    ReasonBy(k.rules, k.bars[d], x, d);
    if reason.Some? {
      assert Calls(k, run, e, d, reason.value);
    }
  }

  lemma ReasonBy(r: Rules, bar: Bar, x: Episode, t: nat)
    ensures ExitReason(r, bar, x, t) ==
      if bar.close < x.stop then Some(StopHit)
      else if r.timeLimit != 0 && t - x.entryIndex >= r.timeLimit && x.peak < GainLevel(r, x) then Some(TimeLimit)
      else if bar.channelExit.Some? && bar.close < bar.channelExit.value then Some(ChannelBreak)
      else if r.maxHold != 0 && t - x.entryIndex >= r.maxHold then Some(AgeLimit)
      else None
  {
  }

  /** What close `d` of a listed trade says, and whether it was decided there. */
  ghost predicate Judged(k: Setup, run: Run, e: Episode, d: nat)
    requires d < |k.bars| == |run.stop|
  {
    if e.decision.Some? && e.decision.value.day == d then CallsFirst(k, run, e, d, e.decision.value.reason)
    else Silent(k, run, e, d)
  }

  lemma StoryJudges(k: Setup, h: seq<State>, run: Run, i: nat, d: nat)
    requires Tells(k, h, run) && |run.stop| == |k.bars| && i < |run.episodes| && k.First() <= d < k.Last()
    requires Traced(k, h, d) && Traced(k, h, d + 1)
    requires var e := run.episodes[i]; Spans(e, d) && (e.decision.Some? ==> d <= e.decision.value.day)
    ensures Judged(k, run, run.episodes[i], d)
  {
    StillUndecided(k, h, i, d);
    StoryDecides(k, h, d);
    assert Shows(k, h, run, d);
    EngineRatchets(k, h, d);
    TestsAreCalls(k, run, run.episodes[i], d, h[d + 1].episode.value);
  }

  lemma Dates(k: Setup, h: seq<State>, run: Run, i: nat)
    requires Tells(k, h, run) && i < |run.episodes|
    ensures var e := run.episodes[i];
      && k.First() <= e.entryIndex < k.Last()
      && (e.decision.Some? ==> e.entryIndex <= e.decision.value.day < k.Last())
      && (e.exit.Some? ==> e.decision.Some? && e.decision.value.day < e.exit.value.index)
  {
    TradesAreBooked(k, h, k.Last());
    EntryAfterFirst(k, h, i);
    if i < |h[k.Last()].closed| { assert Completed(k, h[k.Last()].closed[i]); }
  }

  /**
    The exit of every listed trade of every run. A trade is left at its first close, from the entry on, below
    the listed stop, or too old without its gain, or below its channel, or at its greatest age; the reason is
    the first of these in that order. A trade without a decision has seen no such close.
   */
  lemma ExitsAreFirst(k: Setup, run: Run, i: nat)
    requires k.target > 0.0 && Produces(k, run) && i < |run.episodes|
    ensures var e := run.episodes[i];
      && k.First() <= e.entryIndex < k.Last()
      && (e.decision.Some? ==>
            && e.entryIndex <= e.decision.value.day < k.Last()
            && CallsFirst(k, run, e, e.decision.value.day, e.decision.value.reason))
      && forall d :: e.entryIndex <= d < (if e.decision.Some? then e.decision.value.day else k.Last()) ==> Silent(k, run, e, d)
  {
    var e := run.episodes[i];
    var h := StoryOf(k, run);
    Dates(k, h, run, i);
    forall d | e.entryIndex <= d < k.Last() && (e.decision.Some? ==> d <= e.decision.value.day)
      ensures Judged(k, run, e, d)
    {
      assert Traced(k, h, d) && Traced(k, h, d + 1);
      StoryJudges(k, h, run, i, d);
    }
    assert e.decision.Some? ==> Judged(k, run, e, e.decision.value.day);
    forall d | e.entryIndex <= d < (if e.decision.Some? then e.decision.value.day else k.Last())
      ensures Silent(k, run, e, d)
    {
      assert Judged(k, run, e, d);
    }
  }

  /** At a zero target nothing is held, so no test is ever asked and no trade is ever left. */
  lemma UnfundedTradesStayOpen(k: Setup, run: Run, i: nat)
    requires k.target == 0.0 && Produces(k, run) && i < |run.episodes|
    ensures run.episodes[i].decision.None? && run.episodes[i].exit.None?
  {
    FlatRuns(k, k.Last(), At(k, k.Last()));
  }

  // ---------------------------------------------------------------- the listed level of an open trade

  lemma DecideShowsTrigger(k: Setup, f: State, t: nat, d: State)
    requires WellFormed(f) && 1 <= t < |k.bars| && Decide(k, f, t) == Ok(d) && f.units != 0.0
    ensures d.episode.Some? && d.level == Some(d.episode.value.signal.candidate.trigger) && d.units == f.units
  {
  }

  lemma HeldShowsTrigger(k: Setup, t: nat, s: State, r: State)
    requires k.Valid() && k.target > 0.0 && WellFormed(s) && 1 <= t < |k.bars| && Session(k, s, t) == Ok(r)
    requires Coherent(k, s, t) && Funded(k, s) && r.episode.Some?
    ensures r.level == Some(r.episode.value.signal.candidate.trigger)
  {
    var f := Fill(k, s, t);
    var d := Decide(k, f, t).value;
    assert r.episode == d.episode && r.level == d.level;
    FillKeepsCoherent(k, s, t);
    if f.episode.None? {
      DecideKeepsNone(k, f, t, d);
    } else {
      DecideShowsTrigger(k, f, t, d);
    }
  }

  lemma StoryShowsTrigger(k: Setup, h: seq<State>, t: nat)
    requires Story(k, h) && k.First() <= t < |h| - 1 && Traced(k, h, t) && Traced(k, h, t + 1) && h[t + 1].episode.Some?
    ensures h[t + 1].level == Some(h[t + 1].episode.value.signal.candidate.trigger)
  {
    assert Sound(k, h, t);
    SessionAt(k, t, h[t], h[t + 1]);
    HeldShowsTrigger(k, t, h[t], h[t + 1]);
  }

  /** While a listed trade is open, the listed level is the trigger that it broke. */
  lemma OpenTradeShowsTrigger(k: Setup, run: Run, i: nat, d: nat)
    requires k.target > 0.0 && Produces(k, run) && i < |run.episodes| && Spans(run.episodes[i], d) && d < k.Last()
    ensures d < |run.level| && run.level[d] == Some(run.episodes[i].signal.candidate.trigger)
  {
    var h := StoryOf(k, run);
    Dates(k, h, run, i);
    OpenTradeIs(k, h, i, d);
    assert Traced(k, h, d) && Traced(k, h, d + 1);
    StoryShowsTrigger(k, h, d);
    assert Shows(k, h, run, d);
  }

  // ---------------------------------------------------------------- the listed stop, written out

  /** The highest close of the sessions from `a` through `d`. */
  ghost function HighestClose(k: Setup, a: nat, d: nat): (x: real)
    requires a <= d < |k.bars|
    ensures forall u :: a <= u <= d ==> k.bars[u].close <= x
    ensures exists u :: a <= u <= d && k.bars[u].close == x
  {
    if d == a then k.bars[a].close else MaxReal(HighestClose(k, a, d - 1), k.bars[d].close)
  }

  /** A close is extended, heavily traded and near the high. */
  ghost predicate HotBar(r: Rules, bar: Bar, e: Episode, high: real) {
    && r.heatEnabled && bar.atr.Some? && bar.volumeMedian.Some?
    && bar.close >= e.signal.candidate.u + r.heatExtAtr * e.signal.atr
    && bar.volume >= r.heatVolRatio * bar.volumeMedian.value
    && bar.close >= high - r.heatNearHighAtr * bar.atr.value
  }

  ghost predicate Hot(k: Setup, e: Episode, u: nat)
    requires e.entryIndex <= u < |k.bars|
  {
    HotBar(k.rules, k.bars[u], e, HighestClose(k, e.entryIndex, u))
  }

  /** The trail runs at close `d`: its range is known and some close has reached the activation level. */
  ghost predicate Trails(k: Setup, e: Episode, d: nat)
    requires e.entryIndex <= d < |k.bars|
  {
    k.bars[d].atr.Some? && Activates(k.rules, e, HighestClose(k, e.entryIndex, d))
  }

  ghost predicate Activates(r: Rules, e: Episode, high: real) { high >= e.entry + r.trailActivateAtr * e.signal.atr }

  /** The trailing level of close `d`, narrower from the first hot close on. */
  ghost function TrailAt(k: Setup, e: Episode, d: nat): real
    requires e.entryIndex <= d < |k.bars| && k.bars[d].atr.Some?
  {
    LevelBelow(k.rules, k.bars[d].atr.value, HighestClose(k, e.entryIndex, d),
               if exists u :: e.entryIndex <= u <= d && Hot(k, e, u) then k.rules.heatTrailMult else 1.0)
  }

  /** A share of the high, or a multiple of the range, below the high. */
  function LevelBelow(r: Rules, atr: real, high: real, mult: real): real {
    if r.trailPercent then high * (1.0 - r.trailPct * mult) else high - r.trailAtr * mult * atr
  }

  /** `x` is the protection a trade starts with: a multiple of the range below the entry, or the failed band if higher. */
  ghost predicate IsFloor(r: Rules, e: Episode, x: real) {
    var below, band := e.entry - r.initialStopAtr * e.signal.atr, e.signal.candidate.u - r.bandFailAtr * e.signal.atr;
    && x >= below && (r.bandFailAtr >= 0.0 ==> x >= band)
    && (x == below || (r.bandFailAtr >= 0.0 && x == band))
  }

  lemma FloorIs(r: Rules, e: Episode)
    ensures IsFloor(r, e, InitialStop(r, e.signal, e.entry))
  {
  }

  lemma {:induction false} PeakIsHighest(k: Setup, e: Episode, t: nat)
    requires e.entryIndex <= t < |k.bars|
    ensures Ratcheted(k, TicketOf(e), t).peak == HighestClose(k, e.entryIndex, t)
    decreases t
  {
    if t > e.entryIndex { PeakIsHighest(k, e, t - 1); }
  }

  lemma {:induction false} HeatIsHot(k: Setup, e: Episode, t: nat)
    requires e.entryIndex <= t < |k.bars|
    ensures Ratcheted(k, TicketOf(e), t).heated <==> exists u :: e.entryIndex <= u <= t && Hot(k, e, u)
    decreases t
  {
    PeakIsHighest(k, e, t);
    HeatStep(k, e, t);
    if t > e.entryIndex { HeatIsHot(k, e, t - 1); }
  }

  lemma OverheatsIsHot(r: Rules, bar: Bar, e: Episode, peak: real)
    ensures Overheats(r, bar, e.signal, peak) <==> HotBar(r, bar, e, peak)
  {
  }

  lemma RatchetHeats(r: Rules, bar: Bar, e: Episode)
    ensures Ratchet(r, bar, e).heated <==> e.heated || Overheats(r, bar, e.signal, Ratchet(r, bar, e).peak)
  {
  }

  lemma HeatStep(k: Setup, e: Episode, t: nat)
    requires e.entryIndex <= t < |k.bars| && Ratcheted(k, TicketOf(e), t).peak == HighestClose(k, e.entryIndex, t)
    ensures Ratcheted(k, TicketOf(e), t).heated <==>
      (t > e.entryIndex && Ratcheted(k, TicketOf(e), t - 1).heated) || Hot(k, e, t)
  {
    var w := TicketOf(e);
    var x := if t == w.entryIndex then Start(k, w) else Ratcheted(k, w, t - 1);
    RatchetHeats(k.rules, k.bars[t], x);
    OverheatsIsHot(k.rules, k.bars[t], e, Ratcheted(k, w, t).peak);
    assert TicketOf(x) == w;
  }

  /** The trailing level, from the multiple in force. */
  lemma TrailIs(r: Rules, atr: real, peak: real, heated: bool, mult: real)
    requires mult == if heated then r.heatTrailMult else 1.0
    ensures Trail(r, atr, peak, heated) == LevelBelow(r, atr, peak, mult)
  {
  }

  lemma OffersAreTrails(k: Setup, e: Episode, d: nat)
    requires e.entryIndex <= d < |k.bars|
    ensures Offers(k, TicketOf(e), d) <==> Trails(k, e, d)
    ensures Trails(k, e, d) ==> Offer(k, TicketOf(e), d) == TrailAt(k, e, d)
  {
    PeakIsHighest(k, e, d);
    OffersTrail(k, e, d, Ratcheted(k, TicketOf(e), d));
    if k.bars[d].atr.Some? { OfferIsTrail(k, e, d); }
  }

  lemma OffersTrail(k: Setup, e: Episode, d: nat, x: Episode)
    requires e.entryIndex <= d < |k.bars| && x.peak == HighestClose(k, e.entryIndex, d) && TicketOf(x) == TicketOf(e)
    ensures k.bars[d].atr.Some? && Armed(k.rules, x, x.peak) <==> Trails(k, e, d)
  {
    ArmsAt(k.rules, x, e);
  }

  lemma ArmsAt(r: Rules, x: Episode, e: Episode)
    requires TicketOf(x) == TicketOf(e)
    ensures Armed(r, x, x.peak) <==> Activates(r, e, x.peak)
  {
  }

  lemma OfferIsTrail(k: Setup, e: Episode, d: nat)
    requires e.entryIndex <= d < |k.bars| && Ratcheted(k, TicketOf(e), d).peak == HighestClose(k, e.entryIndex, d)
    requires k.bars[d].atr.Some?
    ensures Offer(k, TicketOf(e), d) == TrailAt(k, e, d)
  {
    HeatIsHot(k, e, d);
    var x := Ratcheted(k, TicketOf(e), d);
    TrailIs(k.rules, k.bars[d].atr.value, x.peak, x.heated, if x.heated then k.rules.heatTrailMult else 1.0);
  }

  /** `stop` is the higher of the first protection and the best trailing level through close `d`. */
  ghost predicate IsBestStop(k: Setup, e: Episode, d: nat, stop: real)
    requires e.entryIndex <= d < |k.bars|
  {
    exists low :: IsFloor(k.rules, e, low) && BestFrom(k, e, d, low, stop)
  }

  ghost predicate BestFrom(k: Setup, e: Episode, d: nat, low: real, stop: real)
    requires e.entryIndex <= d < |k.bars|
  {
    && stop >= low
    && (forall u :: e.entryIndex <= u <= d && Trails(k, e, u) ==> stop >= TrailAt(k, e, u))
    && (stop == low || exists u :: e.entryIndex <= u <= d && Trails(k, e, u) && stop == TrailAt(k, e, u))
  }

  lemma RatchetedIsBest(k: Setup, e: Episode, d: nat)
    requires e.entryIndex <= d < |k.bars|
    ensures IsBestStop(k, e, d, Ratcheted(k, TicketOf(e), d).stop)
  {
    var low, stop := InitialStop(k.rules, e.signal, e.entry), Ratcheted(k, TicketOf(e), d).stop;
    FloorIs(k.rules, e);
    StopIsBestOffer(k, TicketOf(e), d);
    forall u | e.entryIndex <= u <= d ensures Offers(k, TicketOf(e), u) <==> Trails(k, e, u)
      ensures Trails(k, e, u) ==> Offer(k, TicketOf(e), u) == TrailAt(k, e, u)
    {
      OffersAreTrails(k, e, u);
    }
    assert BestFrom(k, e, d, low, stop);
  }

  /** Every listed stop, through the close that decides the exit, from prices, ranges and rules alone. */
  lemma ListedStopIsBest(k: Setup, run: Run, i: nat, d: nat)
    requires k.target > 0.0 && Produces(k, run) && i < |run.episodes|
    requires var e := run.episodes[i]; e.entryIndex <= d < k.Last() && (e.decision.Some? ==> d <= e.decision.value.day)
    ensures d < |run.stop| && run.stop[d].Some? && IsBestStop(k, run.episodes[i], d, run.stop[d].value)
  {
    var e := run.episodes[i];
    var h := StoryOf(k, run);
    StoryStopsMatch(k, h, run, i, k.Last());
    RatchetedIsBest(k, e, d);
  }

  /** No other value is the best stop. */
  lemma BestStopIsUnique(k: Setup, e: Episode, d: nat, a: real, b: real)
    requires e.entryIndex <= d < |k.bars| && IsBestStop(k, e, d, a) && IsBestStop(k, e, d, b)
    ensures a == b
  {
    var low :| IsFloor(k.rules, e, low) && BestFrom(k, e, d, low, a);
    var low' :| IsFloor(k.rules, e, low') && BestFrom(k, e, d, low', b);
    assert low == low';
    if a != low { var u :| e.entryIndex <= u <= d && Trails(k, e, u) && a == TrailAt(k, e, u); }
    if b != low { var u :| e.entryIndex <= u <= d && Trails(k, e, u) && b == TrailAt(k, e, u); }
  }
}
