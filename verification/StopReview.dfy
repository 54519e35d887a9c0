/**
  Two reports rebuild every trade's protective stop from its entry record alone. Here each
  rebuilt stop is compared with the one the engine carried, on every run.
 */
module StopReview {
  import opened Common
  import opened BreakoutEngine
  import opened RunHistory
  import opened TradeHistory
  import opened EpisodeTiling
  import opened SignalRecords

  /** All a rebuild may look at: the confirmed signal, the fill session and the fill price. */
  datatype Ticket = Ticket(signal: Signal, entryIndex: nat, entry: real)

  function TicketOf(e: Episode): Ticket { Ticket(e.signal, e.entryIndex, e.entry) }

  function Start(k: Setup, w: Ticket): Episode
    requires w.entryIndex < |k.bars|
  {
    Episode(w.signal, w.entryIndex, w.entry, k.bars[w.entryIndex].close, InitialStop(k.rules, w.signal, w.entry), false, None, None)
  }

  /** The engine's own ratchet from entry through the close of `t`. */
  function Ratcheted(k: Setup, w: Ticket, t: nat): (e: Episode)
    requires w.entryIndex <= t < |k.bars|
    ensures TicketOf(e) == w && e.decision.None? && e.exit.None?
  {
    Ratchet(k.rules, k.bars[t], if t == w.entryIndex then Start(k, w) else Ratcheted(k, w, t - 1))
  }

  // ---------------------------------------------------------------- what the ratchet promises

  /** Peak and stop never fall, and heat is never forgotten, from one close to any later one. */
  lemma {:induction false} RatchetOnlyRises(k: Setup, w: Ticket, s: nat, t: nat)
    requires w.entryIndex <= s <= t < |k.bars|
    ensures Ratcheted(k, w, s).peak <= Ratcheted(k, w, t).peak
    ensures Ratcheted(k, w, s).stop <= Ratcheted(k, w, t).stop
    ensures Ratcheted(k, w, s).heated ==> Ratcheted(k, w, t).heated
    ensures Armed(k.rules, Ratcheted(k, w, s), Ratcheted(k, w, s).peak) ==> Armed(k.rules, Ratcheted(k, w, t), Ratcheted(k, w, t).peak)
    decreases t
  {
    if s < t {
      RatchetOnlyRises(k, w, s, t - 1);
    }
  }

  /** Session `d` offers a trailing level: its range is known and the peak has reached activation. */
  ghost predicate Offers(k: Setup, w: Ticket, d: nat)
    requires w.entryIndex <= d < |k.bars|
  {
    k.bars[d].atr.Some? && Armed(k.rules, Ratcheted(k, w, d), Ratcheted(k, w, d).peak)
  }

  ghost function Offer(k: Setup, w: Ticket, d: nat): real
    requires w.entryIndex <= d < |k.bars| && k.bars[d].atr.Some?
  {
    Trail(k.rules, k.bars[d].atr.value, Ratcheted(k, w, d).peak, Ratcheted(k, w, d).heated)
  }

  /** The stop is the best of the initial floor and every trailing level offered so far. */
  lemma {:induction false} StopIsBestOffer(k: Setup, w: Ticket, t: nat)
    requires w.entryIndex <= t < |k.bars|
    ensures var stop, floor := Ratcheted(k, w, t).stop, InitialStop(k.rules, w.signal, w.entry);
      && stop >= floor
      && (forall d :: w.entryIndex <= d <= t && Offers(k, w, d) ==> stop >= Offer(k, w, d))
      && (stop == floor || exists d :: w.entryIndex <= d <= t && Offers(k, w, d) && stop == Offer(k, w, d))
    decreases t
  {
    var e := Ratcheted(k, w, t);
    if t > w.entryIndex {
      StopIsBestOffer(k, w, t - 1);
      var before := Ratcheted(k, w, t - 1);
      if Offers(k, w, t) {
        assert e.stop == MaxReal(before.stop, Offer(k, w, t));
      } else {
        assert e.stop == before.stop;
      }
    } else if Offers(k, w, t) {
      assert e.stop == MaxReal(Start(k, w).stop, Offer(k, w, t));
    }
  }

  // ---------------------------------------------------------------- the engine carries that stop

  /** The last close that moved the stop: later closes wait for the queued exit. */
  function LastMove(e: Episode, t: nat): nat {
    if e.decision.Some? && e.decision.value.day < t then e.decision.value.day else t
  }

  /** What one session does to an open trade: opened and ratcheted, ratcheted, or waiting. */
  ghost predicate TradeMoves(k: Setup, t: nat, s: State, r: State)
    requires t < |k.bars| && r.episode.Some?
  {
    var x := r.episode.value;
    && r.stop == Some(x.stop)
    && (x.decision.Some? ==> x.decision.value.day <= t)
    && (if s.episode.None? then
          && x.entryIndex == t && LastMove(x, t) == t
          && x.(decision := None) == Ratchet(k.rules, k.bars[t], Start(k, TicketOf(x)))
        else if s.episode.value.decision.None? then
          && LastMove(x, t) == t
          && x.(decision := None) == Ratchet(k.rules, k.bars[t], s.episode.value)
        else x == s.episode.value)
  }

  lemma TradeMovesAt(k: Setup, h: seq<State>, t: nat)
    requires Story(k, h) && k.First() <= t < |h| - 1 && h[t + 1].episode.Some?
    ensures TradeMoves(k, t, h[t], h[t + 1])
  {
    var f, kind, d, choice := Step(k, h, t);
    TradesAreBooked(k, h, t + 1);
  }

  lemma {:induction false} EngineRatchets(k: Setup, h: seq<State>, t: nat)
    requires Story(k, h) && k.First() <= t < |h| - 1 && h[t + 1].episode.Some?
    ensures var x := h[t + 1].episode.value;
      && x.entryIndex <= LastMove(x, t) <= t
      && (x.decision.Some? ==> x.decision.value.day <= t)
      && Ratcheted(k, TicketOf(x), LastMove(x, t)) == x.(decision := None)
      && h[t + 1].stop == Some(x.stop)
    decreases t
  {
    TradeMovesAt(k, h, t);
    if h[t].episode.Some? {
      assert t > k.First();
      EngineRatchets(k, h, t - 1);
      var x, y := h[t + 1].episode.value, h[t].episode.value;
      if y.decision.None? {
        assert y == y.(decision := None) == Ratcheted(k, TicketOf(y), t - 1);
        assert TicketOf(x.(decision := None)) == TicketOf(Ratchet(k.rules, k.bars[t], y)) == TicketOf(y);
        assert Ratcheted(k, TicketOf(x), t) == Ratchet(k.rules, k.bars[t], y);
      }
    }
  }

  lemma SpansUnique(es: seq<Episode>, i: nat, j: nat, t: nat)
    requires Proper(es) && i < |es| && j < |es| && Spans(es[i], t) && Spans(es[j], t)
    ensures i == j
  {
  }

  lemma OpenTradeIs(k: Setup, h: seq<State>, i: nat, t: nat)
    requires Story(k, h) && k.First() <= t < |h| - 1 && i < |h[|h| - 1].Trades()| && Spans(h[|h| - 1].Trades()[i], t)
    ensures var e := h[|h| - 1].Trades()[i];
      && h[t + 1].episode.Some? && Later(h[t + 1].episode.value, e, t + 1)
  {
    var u := |h| - 1;
    HeldInsideTrades(k, h, t, u);
    RunTradesProper(k, h, u);
    SpansUnique(h[u].Trades(), i, |h[t + 1].closed|, t);
    TradesExtend(k, h, t + 1, u);
    assert Sound(k, h, t + 1);
  }

  /** While a trade is open, the listed stop is the ratchet of its own ticket. */
  lemma StopOfTrade(k: Setup, h: seq<State>, i: nat, t: nat)
    requires Story(k, h) && k.First() <= t < |h| - 1 && i < |h[|h| - 1].Trades()| && Spans(h[|h| - 1].Trades()[i], t)
    ensures var e := h[|h| - 1].Trades()[i];
      && t < |k.bars| && e.entryIndex <= LastMove(e, t)
      && h[t + 1].stop == Some(Ratcheted(k, TicketOf(e), LastMove(e, t)).stop)
  {
    OpenTradeIs(k, h, i, t);
    EngineRatchets(k, h, t);
  }

  // ---------------------------------------------------------------- first rebuild: the failure report

  /** The trailing candidate of both rebuilds; a multiple of an unknown range is no level. */
  function ReportTrail(r: Rules, atr: Option<real>, peak: real, heated: bool): Option<real> {
    if r.trailPercent then Some(PercentTrail(r, peak, heated))
    else if atr.Some? then Some(RangeTrail(r, atr.value, peak, heated))
    else None
  }

  function ReportRatchet(r: Rules, bar: Bar, e: Episode): Episode {
    var peak := MaxReal(e.peak, bar.close);
    var heated := e.heated || Overheats(r, bar, e.signal, peak);
    var trail := ReportTrail(r, bar.atr, peak, heated);
    e.(peak := peak, heated := heated,
       stop := if Armed(r, e, peak) && trail.Some? then MaxReal(e.stop, trail.value) else e.stop)
  }

  function Reported(k: Setup, w: Ticket, t: nat): (e: Episode)
    requires w.entryIndex <= t < |k.bars|
    ensures TicketOf(e) == w
  {
    ReportRatchet(k.rules, k.bars[t], if t == w.entryIndex then Start(k, w) else Reported(k, w, t - 1))
  }

  /**
    A session on which the report trails and the engine does not: an unknown range, a percentage
    trail, an activated peak, and a level above the stop.
   */
  ghost predicate Blind(k: Setup, w: Ticket, t: nat)
    requires w.entryIndex <= t < |k.bars|
  {
    var e := Ratcheted(k, w, t);
    k.bars[t].atr.None? && k.rules.trailPercent && Armed(k.rules, e, e.peak) && PercentTrail(k.rules, e.peak, e.heated) > e.stop
  }

  ghost predicate NeverBlind(k: Setup, w: Ticket, last: nat)
    requires last < |k.bars|
  {
    forall t :: w.entryIndex <= t <= last ==> !Blind(k, w, t)
  }

  ghost predicate StopsAgree(k: Setup, w: Ticket, last: nat)
    requires last < |k.bars|
  {
    forall t :: w.entryIndex <= t <= last ==> Reported(k, w, t).stop == Ratcheted(k, w, t).stop
  }

  /** From the same state the two ratchets differ on a blind session only, and then the report's stop is higher. */
  lemma RatchetsCompare(r: Rules, bar: Bar, e: Episode, a: Episode, b: Episode, blind: bool)
    requires a == Ratchet(r, bar, e) && b == ReportRatchet(r, bar, e)
    requires blind <==> bar.atr.None? && r.trailPercent && Armed(r, a, a.peak) && PercentTrail(r, a.peak, a.heated) > a.stop
    ensures if blind then b.stop > a.stop else a == b
  {
  }

  lemma OneSessionAgrees(k: Setup, w: Ticket, t: nat)
    requires w.entryIndex <= t < |k.bars|
    requires t > w.entryIndex ==> Reported(k, w, t - 1) == Ratcheted(k, w, t - 1)
    ensures Blind(k, w, t) ==> Reported(k, w, t).stop > Ratcheted(k, w, t).stop
    ensures !Blind(k, w, t) ==> Reported(k, w, t) == Ratcheted(k, w, t)
  {
    var e := if t == w.entryIndex then Start(k, w) else Ratcheted(k, w, t - 1);
    RatchetsCompare(k.rules, k.bars[t], e, Ratcheted(k, w, t), Reported(k, w, t), Blind(k, w, t));
  }

  /** The rebuilt stops agree with the engine's through `last` exactly when no session up to it is blind. */
  lemma {:induction false} RebuildAgrees(k: Setup, w: Ticket, last: nat)
    requires w.entryIndex <= last < |k.bars|
    ensures StopsAgree(k, w, last) <==> NeverBlind(k, w, last)
    ensures NeverBlind(k, w, last) ==> Reported(k, w, last) == Ratcheted(k, w, last)
    decreases last
  {
    if last == w.entryIndex {
      OneSessionAgrees(k, w, last);
    } else {
      RebuildAgrees(k, w, last - 1);
      if NeverBlind(k, w, last - 1) {
        OneSessionAgrees(k, w, last);
      }
    }
  }

  // ---------------------------------------------------------------- the report's own variables

  function InitialRisk(r: Rules, w: Ticket): real { w.entry - r.initialStopAtr * w.signal.atr }

  function BandLevel(r: Rules, w: Ticket): Option<real> {
    if r.bandFailAtr >= 0.0 then Some(w.signal.candidate.u - r.bandFailAtr * w.signal.atr) else None
  }

  /** The levels both rebuilds start from: their floor is the engine's first stop. */
  method RiskLevels(r: Rules, w: Ticket) returns (initial: real, band: Option<real>, floor: real, activation: real)
    ensures initial == InitialRisk(r, w) && band == BandLevel(r, w)
    ensures floor == InitialStop(r, w.signal, w.entry) && activation == Activation(r, w.signal, w.entry)
  {
    initial, band := InitialRisk(r, w), BandLevel(r, w);
    floor := if band.Some? then MaxReal(initial, band.value) else initial;
    activation := w.entry + r.trailActivateAtr * w.signal.atr;
  }

  const FLOOR_TOLERANCE := 0.000000001

  /** What the report keeps of one rebuilt trade. */
  datatype Review = Review(peak: real, stop: real, heat: bool, armed: bool, firstArm: Option<nat>, firstHeat: Option<nat>,
                           floorDays: nat, lossDays: nat)

  ghost predicate ArmedAt(k: Setup, w: Ticket, t: nat)
    requires w.entryIndex <= t < |k.bars|
  {
    Armed(k.rules, Reported(k, w, t), Reported(k, w, t).peak)
  }

  /** Armed closes so far whose stop is still the initial floor. */
  ghost function FloorDays(k: Setup, w: Ticket, t: nat): nat
    requires w.entryIndex <= t < |k.bars|
  {
    (if t == w.entryIndex then 0 else FloorDays(k, w, t - 1))
    + if ArmedAt(k, w, t) && Reported(k, w, t).stop <= InitialStop(k.rules, w.signal, w.entry) + FLOOR_TOLERANCE then 1 else 0
  }

  /** Armed closes so far whose stop is still below the entry. */
  ghost function LossDays(k: Setup, w: Ticket, t: nat): nat
    requires w.entryIndex <= t < |k.bars|
  {
    (if t == w.entryIndex then 0 else LossDays(k, w, t - 1)) + if ArmedAt(k, w, t) && Reported(k, w, t).stop < w.entry then 1 else 0
  }

  /** `first` is the session from which the trade is armed, through `t`. */
  ghost predicate FirstArmed(k: Setup, w: Ticket, t: nat, first: Option<nat>)
    requires w.entryIndex <= t < |k.bars|
  {
    && (first.Some? ==> w.entryIndex <= first.value <= t)
    && forall u :: w.entryIndex <= u <= t ==> (ArmedAt(k, w, u) <==> first.Some? && first.value <= u)
  }

  ghost predicate FirstHeated(k: Setup, w: Ticket, t: nat, first: Option<nat>)
    requires w.entryIndex <= t < |k.bars|
  {
    && (first.Some? ==> w.entryIndex <= first.value <= t)
    && forall u :: w.entryIndex <= u <= t ==> (Reported(k, w, u).heated <==> first.Some? && first.value <= u)
  }

  /** Everything the report knows of the trade after close `t`. */
  ghost predicate Rebuilt(k: Setup, w: Ticket, t: nat, v: Review)
    requires w.entryIndex <= t < |k.bars|
  {
    var e := Reported(k, w, t);
    && v.peak == e.peak && v.stop == e.stop && v.heat == e.heated && v.armed == ArmedAt(k, w, t)
    && FirstArmed(k, w, t, v.firstArm) && FirstHeated(k, w, t, v.firstHeat)
    && v.floorDays == FloorDays(k, w, t) && v.lossDays == LossDays(k, w, t)
  }

  ghost predicate StopsMatch(k: Setup, run: Run, w: Ticket, t: nat)
    requires w.entryIndex <= t < |k.bars| && |run.stop| == |k.bars|
  {
    run.stop[t] == Some(Reported(k, w, t).stop)
  }

  ghost predicate StopCheck(k: Setup, run: Run, w: Ticket, last: nat)
    requires last < |k.bars| && |run.stop| == |k.bars|
  {
    forall t :: w.entryIndex <= t <= last ==> StopsMatch(k, run, w, t)
  }

  /** The volume and extension test of both rebuilds, term by term. */
  method HeatTest(r: Rules, bar: Bar, g: Signal, peak: real) returns (heats: bool)
    ensures heats == Overheats(r, bar, g, peak)
  {
    if !r.heatEnabled || bar.volumeMedian.None? || bar.atr.None? { return false; }
    heats := && bar.close >= g.candidate.u + r.heatExtAtr * g.atr
             && bar.volume >= r.heatVolRatio * bar.volumeMedian.value
             && bar.close >= peak - r.heatNearHighAtr * bar.atr.value;
  }

  /** One close of the rebuild, computed by the report itself, against the engine's trade record `e`. */
  method RebuildOnce(r: Rules, bar: Bar, g: Signal, activation: real, peak0: real, stop0: real, heat0: bool, ghost e: Episode)
    returns (peak: real, stop: real, heat: bool, arms: bool)
    requires e.peak == peak0 && e.stop == stop0 && e.heated == heat0 && e.signal == g && activation == Activation(r, g, e.entry)
    ensures var x := ReportRatchet(r, bar, e);
      peak == x.peak && stop == x.stop && heat == x.heated && arms == Armed(r, x, x.peak)
  {
    peak := MaxReal(peak0, bar.close);
    stop, heat := stop0, heat0;
    var heats := HeatTest(r, bar, g, peak);
    if heats {
      heat := true;
    }
    arms := peak >= activation;
    if arms {
      var candidate := ReportTrail(r, bar.atr, peak, heat);
      if candidate.Some? { stop := MaxReal(stop, candidate.value); }
    }
  }

  lemma ReportedStep(k: Setup, w: Ticket, t: nat)
    requires w.entryIndex < t < |k.bars|
    ensures ArmedAt(k, w, t - 1) ==> ArmedAt(k, w, t)
    ensures Reported(k, w, t - 1).heated ==> Reported(k, w, t).heated
  {
    assert Reported(k, w, t) == ReportRatchet(k.rules, k.bars[t], Reported(k, w, t - 1));
  }

  lemma FirstArmExtends(k: Setup, w: Ticket, t: nat, arm: Option<nat>)
    requires w.entryIndex <= t < |k.bars|
    requires if t == w.entryIndex then arm.None? else FirstArmed(k, w, t - 1, arm)
    ensures FirstArmed(k, w, t, if arm.None? && ArmedAt(k, w, t) then Some(t) else arm)
  {
    if t > w.entryIndex { ReportedStep(k, w, t); }
  }

  lemma FirstHeatExtends(k: Setup, w: Ticket, t: nat, heat: Option<nat>)
    requires w.entryIndex <= t < |k.bars|
    requires if t == w.entryIndex then heat.None? else FirstHeated(k, w, t - 1, heat)
    ensures FirstHeated(k, w, t, if heat.None? && Reported(k, w, t).heated then Some(t) else heat)
  {
    if t > w.entryIndex { ReportedStep(k, w, t); }
  }

  lemma FirstsExtend(k: Setup, w: Ticket, t: nat, arm: Option<nat>, heat: Option<nat>)
    requires w.entryIndex <= t < |k.bars|
    requires t == w.entryIndex ==> arm.None? && heat.None?
    requires t > w.entryIndex ==> FirstArmed(k, w, t - 1, arm) && FirstHeated(k, w, t - 1, heat)
    ensures FirstArmed(k, w, t, if arm.None? && ArmedAt(k, w, t) then Some(t) else arm)
    ensures FirstHeated(k, w, t, if heat.None? && Reported(k, w, t).heated then Some(t) else heat)
  {
    FirstArmExtends(k, w, t, arm);
    FirstHeatExtends(k, w, t, heat);
  }

  /** One close of the report's loop, its marks and counters included. */
  method RebuildDay(k: Setup, w: Ticket, t: nat, floor: real, activation: real, v0: Review) returns (v: Review)
    requires w.entryIndex <= t < |k.bars|
    requires floor == InitialStop(k.rules, w.signal, w.entry) && activation == Activation(k.rules, w.signal, w.entry)
    requires t == w.entryIndex ==> v0 == Review(k.bars[t].close, floor, false, false, None, None, 0, 0)
    requires t > w.entryIndex ==> Rebuilt(k, w, t - 1, v0)
    ensures Rebuilt(k, w, t, v)
  {
    ghost var e := if t == w.entryIndex then Start(k, w) else Reported(k, w, t - 1);
    FirstsExtend(k, w, t, v0.firstArm, v0.firstHeat);
    if t > w.entryIndex { ReportedStep(k, w, t); }
    var peak, stop, heat, arms := RebuildOnce(k.rules, k.bars[t], w.signal, activation, v0.peak, v0.stop, v0.heat, e);
    var armed := v0.armed || arms;
    var firstArm := if arms && v0.firstArm.None? then Some(t) else v0.firstArm;
    var firstHeat := if heat && v0.firstHeat.None? then Some(t) else v0.firstHeat;
    var floorDays, lossDays := v0.floorDays, v0.lossDays;
    if armed {
      if stop <= floor + FLOOR_TOLERANCE { floorDays := floorDays + 1; }
      if stop < w.entry { lossDays := lossDays + 1; }
    }
    v := Review(peak, stop, heat, armed, firstArm, firstHeat, floorDays, lossDays);
  }

  /** The day-by-day rebuild of one trade; it stops the report at the first stop that differs. */
  method RebuildStops(k: Setup, run: Run, w: Ticket, last: nat) returns (r: Option<Review>)
    requires w.entryIndex <= last < |k.bars| && |run.stop| == |k.bars|
    ensures r.Some? <==> StopCheck(k, run, w, last)
    ensures r.Some? ==> Rebuilt(k, w, last, r.value)
  {
    var initial, band, floor, activation := RiskLevels(k.rules, w);
    var v := Review(k.bars[w.entryIndex].close, floor, false, false, None, None, 0, 0);
    ghost var start := v;
    var t := w.entryIndex;
    while t <= last
      invariant w.entryIndex <= t <= last + 1
      invariant t == w.entryIndex ==> v == start
      invariant t > w.entryIndex ==> Rebuilt(k, w, t - 1, v)
      invariant forall d :: w.entryIndex <= d < t ==> StopsMatch(k, run, w, d)
    {
      v := RebuildDay(k, w, t, floor, activation, v);
      if run.stop[t] != Some(v.stop) {
        assert !StopsMatch(k, run, w, t);
        return None;
      }
      t := t + 1;
    }
    r := Some(v);
  }

  lemma StoryStopsMatch(k: Setup, h: seq<State>, run: Run, i: nat, hi: nat)
    requires Tells(k, h, run) && |run.stop| == |k.bars| && i < |run.episodes| && run.episodes[i].entryIndex < hi <= k.Last()
    ensures var e := run.episodes[i];
      && k.First() <= e.entryIndex <= LastMove(e, hi - 1) < |k.bars|
      && forall t :: e.entryIndex <= t <= LastMove(e, hi - 1) ==> t < |k.bars| && run.stop[t] == Some(Ratcheted(k, TicketOf(e), t).stop)
  {
    var e := run.episodes[i];
    TradesAreBooked(k, h, k.Last());
    assert Opened(k, e) by { if i < |h[k.Last()].closed| { assert Completed(k, h[k.Last()].closed[i]); } }
    EntryAfterFirst(k, h, i);
    forall t | e.entryIndex <= t <= LastMove(e, hi - 1)
      ensures t < |k.bars| && run.stop[t] == Some(Ratcheted(k, TicketOf(e), t).stop)
    {
      assert Spans(e, t);
      StopOfTrade(k, h, i, t);
      assert Shows(k, h, run, t);
    }
  }

  /** No trade is entered before the run starts. */
  lemma EntryAfterFirst(k: Setup, h: seq<State>, i: nat)
    requires Story(k, h) && i < |h[|h| - 1].Trades()|
    ensures h[|h| - 1].Trades()[i].entryIndex >= k.First()
  {
    TradesExtend(k, h, k.First(), |h| - 1);
  }

  /**
    The report's stop check on one trade, on every run: it passes exactly when the trade has no
    session on which only the report would trail.
   */
  lemma StopCheckPasses(k: Setup, run: Run, i: nat, hi: nat)
    requires k.target > 0.0 && Produces(k, run) && i < |run.episodes| && run.episodes[i].entryIndex < hi <= k.Last()
    ensures var e, last := run.episodes[i], LastMove(run.episodes[i], hi - 1);
      && e.entryIndex <= last < |k.bars|
      && (StopCheck(k, run, TicketOf(e), last) <==> NeverBlind(k, TicketOf(e), last))
  {
    var h := StoryOf(k, run);
    StoryStopCheck(k, h, run, i, hi);
  }

  /**
    Where ranges, once known, stay known, no session of a listed trade is blind: a confirmation needs a
    range, so every later session has one, and the report's stop check passes on every trade of every run.
   */
  lemma StopCheckAlwaysPasses(k: Setup, run: Run, i: nat, hi: nat)
    requires k.target > 0.0 && Produces(k, run) && RangesLast(k)
    requires i < |run.episodes| && run.episodes[i].entryIndex < hi <= k.Last()
    ensures var e, last := run.episodes[i], LastMove(run.episodes[i], hi - 1);
      && e.entryIndex <= last < |k.bars|
      && StopCheck(k, run, TicketOf(e), last)
  {
    var w, last := TicketOf(run.episodes[i]), LastMove(run.episodes[i], hi - 1);
    StopCheckPasses(k, run, i, hi);
    SignalsAreGrounded(k, run, i);
    EntryAfterConfirmation(k, run, i);
    forall t | w.entryIndex <= t <= last ensures !Blind(k, w, t) {
      assert k.bars[w.signal.confirmation].atr.Some?;
    }
  }

  lemma EntryAfterConfirmation(k: Setup, run: Run, i: nat)
    requires k.target > 0.0 && Produces(k, run) && i < |run.episodes|
    ensures Opened(k, run.episodes[i])
  {
    var h := StoryOf(k, run);
    TradesAreBooked(k, h, k.Last());
    if i < |h[k.Last()].closed| { assert Completed(k, h[k.Last()].closed[i]); }
  }

  lemma StoryStopCheck(k: Setup, h: seq<State>, run: Run, i: nat, hi: nat)
    requires Tells(k, h, run) && |run.stop| == |k.bars| && i < |run.episodes| && run.episodes[i].entryIndex < hi <= k.Last()
    ensures var e, last := run.episodes[i], LastMove(run.episodes[i], hi - 1);
      && e.entryIndex <= last < |k.bars|
      && (StopCheck(k, run, TicketOf(e), last) <==> NeverBlind(k, TicketOf(e), last))
  {
    var e := run.episodes[i];
    var w, last := TicketOf(e), LastMove(e, hi - 1);
    StoryStopsMatch(k, h, run, i, hi);
    RebuildAgrees(k, w, last);
    if StopCheck(k, run, w, last) {
      forall t | e.entryIndex <= t <= last ensures Reported(k, w, t).stop == Ratcheted(k, w, t).stop {
        assert StopsMatch(k, run, w, t);
      }
      assert StopsAgree(k, w, last);
    }
    if StopsAgree(k, w, last) {
      forall t | e.entryIndex <= t <= last ensures StopsMatch(k, run, w, t) {
        assert run.stop[t] == Some(Ratcheted(k, w, t).stop);
      }
    }
  }
}
