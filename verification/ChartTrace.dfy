/**
  The chart's reconstruction of every trade's risk levels, on its own variables, against the stop the
  engine carried through the same sessions.
 */
module ChartTrace {
  import opened Common
  import opened BreakoutEngine
  import opened RunHistory
  import opened TradeHistory
  import opened EpisodeTiling
  import opened SignalRecords
  import opened StopReview

  /** The chart's loop variables after a close. */
  datatype Trace = Trace(peak: real, stop: real, heated: bool, armed: bool, trail: Option<real>,
                         firstArm: Option<nat>, firstHeat: Option<nat>)

  /** One chart row: which trade, its levels, and its risk state after that close. */
  datatype Mark = Mark(trade: nat, initial: real, band: Option<real>, floor: real, activation: real,
                       peak: real, trail: Option<real>, stop: real, armed: bool, heated: bool)

  // ---------------------------------------------------------------- what the variables must be

  /** The latest trailing level offered, if any: it is shown even when it did not lift the stop. */
  ghost function LastOffer(k: Setup, w: Ticket, t: nat): Option<real>
    requires w.entryIndex <= t < |k.bars|
  {
    if Offers(k, w, t) then Some(Offer(k, w, t)) else if t == w.entryIndex then None else LastOffer(k, w, t - 1)
  }

  /** `first` is the first session through `t` that offered a level. */
  ghost predicate FirstOffer(k: Setup, w: Ticket, t: nat, first: Option<nat>)
    requires w.entryIndex <= t < |k.bars|
  {
    && (first.Some? ==> w.entryIndex <= first.value <= t && Offers(k, w, first.value))
    && forall u :: w.entryIndex <= u <= t && (first.Some? ==> u < first.value) ==> !Offers(k, w, u)
  }

  ghost predicate FirstHeat(k: Setup, w: Ticket, t: nat, first: Option<nat>)
    requires w.entryIndex <= t < |k.bars|
  {
    && (first.Some? ==> w.entryIndex <= first.value <= t)
    && forall u :: w.entryIndex <= u <= t ==> (Ratcheted(k, w, u).heated <==> first.Some? && first.value <= u)
  }

  /** The chart's variables after close `t`: the engine's ratchet, and which closes armed and heated it. */
  ghost predicate Follows(k: Setup, w: Ticket, t: nat, c: Trace)
    requires w.entryIndex <= t < |k.bars|
  {
    var e := Ratcheted(k, w, t);
    && c.peak == e.peak && c.stop == e.stop && c.heated == e.heated
    && c.trail == LastOffer(k, w, t) && c.armed == c.firstArm.Some?
    && FirstOffer(k, w, t, c.firstArm) && FirstHeat(k, w, t, c.firstHeat)
  }

  /** A level has been offered exactly when some session so far was armed with a known range. */
  lemma {:induction false} OfferedIsArmed(k: Setup, w: Ticket, t: nat, first: Option<nat>)
    requires w.entryIndex <= t < |k.bars| && FirstOffer(k, w, t, first)
    ensures LastOffer(k, w, t).Some? <==> first.Some?
    decreases t
  {
    if t > w.entryIndex && !Offers(k, w, t) {
      OfferedIsArmed(k, w, t - 1, first);
    }
  }

  // ---------------------------------------------------------------- one close

  /** The chart's own update, against the engine's trade record `e`. */
  method ChartClose(r: Rules, bar: Bar, g: Signal, activation: real, c0: Trace, ghost e: Episode)
    returns (peak: real, stop: real, heated: bool, offer: Option<real>)
    requires e.peak == c0.peak && e.stop == c0.stop && e.heated == c0.heated
    requires e.signal == g && activation == Activation(r, g, e.entry)
    ensures var x := Ratchet(r, bar, e); peak == x.peak && stop == x.stop && heated == x.heated
    ensures var x := Ratchet(r, bar, e);
      offer == if bar.atr.Some? && Armed(r, x, x.peak) then Some(Trail(r, bar.atr.value, x.peak, x.heated)) else None
  {
    peak := MaxReal(c0.peak, bar.close);
    stop, heated, offer := c0.stop, c0.heated, None;
    var heats := HeatTest(r, bar, g, peak);
    if heats {
      heated := true;
    }
    if peak >= activation && bar.atr.Some? {
      offer := ReportTrail(r, bar.atr, peak, heated);
      stop := MaxReal(stop, offer.value);
    }
  }

  lemma HeatStays(k: Setup, w: Ticket, t: nat)
    requires w.entryIndex < t < |k.bars|
    ensures Ratcheted(k, w, t - 1).heated ==> Ratcheted(k, w, t).heated
  {
    RatchetOnlyRises(k, w, t - 1, t);
  }

  lemma OfferExtends(k: Setup, w: Ticket, t: nat, arm: Option<nat>)
    requires w.entryIndex <= t < |k.bars|
    requires if t == w.entryIndex then arm.None? else FirstOffer(k, w, t - 1, arm)
    ensures FirstOffer(k, w, t, if arm.None? && Offers(k, w, t) then Some(t) else arm)
  {
  }

  lemma HeatExtends(k: Setup, w: Ticket, t: nat, heat: Option<nat>)
    requires w.entryIndex <= t < |k.bars|
    requires if t == w.entryIndex then heat.None? else FirstHeat(k, w, t - 1, heat)
    ensures FirstHeat(k, w, t, if heat.None? && Ratcheted(k, w, t).heated then Some(t) else heat)
  {
    if t > w.entryIndex { HeatStays(k, w, t); }
  }

  lemma FirstsFollow(k: Setup, w: Ticket, t: nat, arm: Option<nat>, heat: Option<nat>)
    requires w.entryIndex <= t < |k.bars|
    requires t == w.entryIndex ==> arm.None? && heat.None?
    requires t > w.entryIndex ==> FirstOffer(k, w, t - 1, arm) && FirstHeat(k, w, t - 1, heat)
    ensures FirstOffer(k, w, t, if arm.None? && Offers(k, w, t) then Some(t) else arm)
    ensures FirstHeat(k, w, t, if heat.None? && Ratcheted(k, w, t).heated then Some(t) else heat)
  {
    OfferExtends(k, w, t, arm);
    HeatExtends(k, w, t, heat);
  }

  /** One session before the exit decision binds. */
  method ChartDay(k: Setup, w: Ticket, t: nat, floor: real, activation: real, c0: Trace) returns (c: Trace)
    requires w.entryIndex <= t < |k.bars|
    requires floor == InitialStop(k.rules, w.signal, w.entry) && activation == Activation(k.rules, w.signal, w.entry)
    requires t == w.entryIndex ==> c0 == Trace(k.bars[t].close, floor, false, false, None, None, None)
    requires t > w.entryIndex ==> Follows(k, w, t - 1, c0)
    ensures Follows(k, w, t, c)
  {
    ghost var e := if t == w.entryIndex then Start(k, w) else Ratcheted(k, w, t - 1);
    FirstsFollow(k, w, t, c0.firstArm, c0.firstHeat);
    if t > w.entryIndex { HeatStays(k, w, t); }
    var peak, stop, heated, offer := ChartClose(k.rules, k.bars[t], w.signal, activation, c0, e);
    var firstArm := if offer.Some? && c0.firstArm.None? then Some(t) else c0.firstArm;
    var firstHeat := if heated && c0.firstHeat.None? then Some(t) else c0.firstHeat;
    c := Trace(peak, stop, heated, c0.armed || offer.Some?, if offer.Some? then offer else c0.trail, firstArm, firstHeat);
  }

  // ---------------------------------------------------------------- one trade's rows

  ghost function MarkOf(k: Setup, es: seq<Episode>, i: nat, t: nat): Mark
    requires i < |es| && es[i].entryIndex <= LastMove(es[i], t) && t < |k.bars|
  {
    var w, d := TicketOf(es[i]), LastMove(es[i], t);
    var e := Ratcheted(k, w, d);
    Mark(i, InitialRisk(k.rules, w), BandLevel(k.rules, w), InitialStop(k.rules, w.signal, w.entry),
         Activation(k.rules, w.signal, w.entry), e.peak, LastOffer(k, w, d), e.stop, LastOffer(k, w, d).Some?, e.heated)
  }

  /** Trades as the engine returns them: disjoint, and an exit is decided on or after entry. */
  ghost predicate Charted(k: Setup, es: seq<Episode>) {
    && Separate(es)
    && (forall i :: 0 <= i < |es| ==> InBounds(k, es[i]))
  }

  ghost predicate InBounds(k: Setup, e: Episode) {
    && e.entryIndex < |k.bars| && e.signal.candidate.crossing < |k.bars|
    && (e.decision.Some? ==> e.entryIndex <= e.decision.value.day)
    && (e.exit.Some? ==> e.entryIndex < e.exit.value.index < |k.bars|)
  }

  /** The rows of the first `n` trades. */
  ghost predicate Charts(k: Setup, es: seq<Episode>, n: nat, trace: seq<Option<Mark>>)
    requires Charted(k, es) && n <= |es|
  {
    && |trace| == |k.bars|
    && (forall i, t :: 0 <= i < n && 0 <= t < |k.bars| && Spans(es[i], t) ==> trace[t] == Some(MarkOf(k, es, i, t)))
    && (forall t :: 0 <= t < |k.bars| && trace[t].Some? ==> trace[t].value.trade < n && Spans(es[trace[t].value.trade], t))
  }

  /** The trade's last session, and what the chart reports of its arming and heating. */
  function LastSession(k: Setup, e: Episode): nat
    requires InBounds(k, e)
  {
    (if e.exit.Some? then e.exit.value.index else |k.bars|) - 1
  }

  ghost predicate Recorded(k: Setup, e: Episode, c: Trace)
    requires InBounds(k, e)
  {
    Follows(k, TicketOf(e), LastMove(e, LastSession(k, e)), c)
  }

  lemma RowsOfTrade(k: Setup, es: seq<Episode>, i: nat, before: seq<Option<Mark>>, after: seq<Option<Mark>>)
    requires Charted(k, es) && i < |es| && Charts(k, es, i, before) && |after| == |k.bars|
    requires forall d :: es[i].entryIndex <= d <= LastSession(k, es[i]) ==> after[d] == Some(MarkOf(k, es, i, d))
    requires forall d :: 0 <= d < |k.bars| && !(es[i].entryIndex <= d <= LastSession(k, es[i])) ==> after[d] == before[d]
    ensures Charts(k, es, i + 1, after)
  {
    forall j, d | 0 <= j < i + 1 && 0 <= d < |k.bars| && Spans(es[j], d) ensures after[d] == Some(MarkOf(k, es, j, d)) {
      if j < i { assert es[j].exit.value.index < es[i].entryIndex; }
    }
  }

  /** Rows of one trade over its sessions; after the exit decision nothing moves. */
  method ChartTrade(k: Setup, es: seq<Episode>, i: nat, trace0: seq<Option<Mark>>) returns (trace: seq<Option<Mark>>, c: Trace)
    requires Charted(k, es) && i < |es| && Charts(k, es, i, trace0)
    ensures Charts(k, es, i + 1, trace) && Recorded(k, es[i], c)
  {
    trace := trace0;
    var w, start, end := TicketOf(es[i]), es[i].entryIndex, LastSession(k, es[i]) + 1;
    var initial, band, floor, activation := RiskLevels(k.rules, w);
    c := Trace(k.bars[start].close, floor, false, false, None, None, None);
    ghost var c0 := c;
    var t := start;
    while t < end
      invariant start <= t <= end && |trace| == |k.bars|
      invariant t == start ==> c == c0
      invariant t > start ==> Follows(k, w, LastMove(es[i], t - 1), c)
      invariant forall d :: start <= d < t ==> trace[d] == Some(MarkOf(k, es, i, d))
      invariant forall d :: 0 <= d < |trace| && !(start <= d < t) ==> trace[d] == trace0[d]
    {
      if es[i].decision.None? || t <= es[i].decision.value.day {
        c := ChartDay(k, w, t, floor, activation, c);
      }
      OfferedIsArmed(k, w, LastMove(es[i], t), c.firstArm);
      trace := trace[t := Some(Mark(i, initial, band, floor, activation, c.peak, c.trail, c.stop, c.armed, c.heated))];
      t := t + 1;
    }
    RowsOfTrade(k, es, i, trace0, trace);
  }

  /**
    The whole chart with what it records of each trade. It is refused when a trade is a continuation
    re-entry, or when its crossing session has no qualifying range to draw.
   */
  method StopTrace(k: Setup, lengths: seq<nat>, es: seq<Episode>) returns (r: Option<(seq<Option<Mark>>, seq<Trace>)>)
    requires Charted(k, es) && |lengths| == |k.bars|
    ensures r.None? <==> exists i :: 0 <= i < |es| && Refused(lengths, es[i])
    ensures r.Some? ==> Charts(k, es, |es|, r.value.0)
    ensures r.Some? ==> |r.value.1| == |es| && forall i :: 0 <= i < |es| ==> Recorded(k, es[i], r.value.1[i])
  {
    var trace: seq<Option<Mark>> := seq(|k.bars|, _ => None);
    var records: seq<Trace> := [];
    var i := 0;
    while i < |es|
      invariant 0 <= i <= |es| && Charts(k, es, i, trace) && |records| == i
      invariant forall j :: 0 <= j < i ==> !Refused(lengths, es[j])
      invariant forall j :: 0 <= j < i ==> Recorded(k, es[j], records[j])
    {
      if es[i].signal.candidate.reentry { return None; }
      var c;
      trace, c := ChartTrade(k, es, i, trace);
      if lengths[es[i].signal.candidate.crossing] == 0 { return None; }
      records := records + [c];
      i := i + 1;
    }
    r := Some((trace, records));
  }

  predicate Refused(lengths: seq<nat>, e: Episode) {
    e.signal.candidate.reentry || (e.signal.candidate.crossing < |lengths| && lengths[e.signal.candidate.crossing] == 0)
  }

  // ---------------------------------------------------------------- on every run of the engine

  lemma RunTradesCharted(k: Setup, h: seq<State>, u: nat)
    requires Story(k, h) && k.First() <= u < |h|
    requires forall i :: 0 <= i < |h[u].Trades()| ==> Grounded(k, h[u].Trades()[i].signal, u)
    ensures Charted(k, h[u].Trades())
  {
    TradesAreBooked(k, h, u);
    RunTradesProper(k, h, u);
    var s := h[u];
    forall i | 0 <= i < |s.Trades()| ensures InBounds(k, s.Trades()[i]) {
      assert Grounded(k, s.Trades()[i].signal, u);
      if i < |s.closed| { assert Completed(k, s.closed[i]); }
    }
  }

  /** What the chart is given is always chartable. */
  lemma RunsAreChartable(k: Setup, run: Run)
    requires k.target > 0.0 && Produces(k, run)
    ensures Charted(k, run.episodes)
  {
    var h := StoryOf(k, run);
    forall i | 0 <= i < |run.episodes| ensures Grounded(k, run.episodes[i].signal, k.Last()) {
      SignalsAreGrounded(k, run, i);
    }
    RunTradesCharted(k, h, k.Last());
  }

  /** With a range behind every crossing, the chart of a run is refused only for a re-entry. */
  lemma OnlyReentriesAreRefused(k: Setup, lengths: seq<nat>, run: Run, i: nat)
    requires Produces(k, run) && |lengths| == |k.bars| && i < |run.episodes|
    requires forall t :: 0 <= t < |k.bars| && k.bars[t].cross.Some? ==> lengths[t] > 0
    ensures Refused(lengths, run.episodes[i]) ==> run.episodes[i].signal.candidate.reentry
  {
    SignalsAreGrounded(k, run, i);
  }

  lemma StoryChart(k: Setup, h: seq<State>, run: Run, trace: seq<Option<Mark>>, t: nat)
    requires Tells(k, h, run) && k.First() <= t < k.Last() && |run.stop| == |run.held| == |k.bars|
    requires Charted(k, run.episodes) && Charts(k, run.episodes, |run.episodes|, trace)
    ensures trace[t].Some? <==> run.held[t]
    ensures run.stop[t] == if trace[t].Some? then Some(trace[t].value.stop) else None
  {
    var es := run.episodes;
    assert Shows(k, h, run, t);
    HeldInsideTrades(k, h, t, k.Last());
    if run.held[t] {
      var j := |h[t + 1].closed|;
      assert Spans(es[j], t);
      StopOfTrade(k, h, j, t);
    } else {
      NoStopWhenFlat(k, h, t);
    }
  }

  lemma NoStopWhenFlat(k: Setup, h: seq<State>, t: nat)
    requires Story(k, h) && k.First() <= t < |h| - 1
    ensures !h[t + 1].Held() ==> h[t + 1].stop.None?
  {
    var f, kind, d, choice := Step(k, h, t);
  }

  lemma ChartBeforeRun(k: Setup, h: seq<State>, run: Run, trace: seq<Option<Mark>>, t: nat)
    requires Tells(k, h, run) && t < k.First() && t < |k.bars|
    requires Charted(k, run.episodes) && Charts(k, run.episodes, |run.episodes|, trace)
    ensures trace[t].None?
  {
    if trace[t].Some? {
      EntryAfterFirst(k, h, trace[t].value.trade);
    }
  }

  /**
    The chart's two assertions can never fail: on every run through the last bar, at every session the
    rebuilt stop exists exactly while the account is long, and is then the engine's, queued exits included.
   */
  lemma ChartEqualsEngine(k: Setup, run: Run, trace: seq<Option<Mark>>, t: nat)
    requires k.target > 0.0 && Produces(k, run) && k.Last() == |k.bars| && t < |k.bars|
    requires Charted(k, run.episodes) && Charts(k, run.episodes, |run.episodes|, trace)
    ensures trace[t].Some? <==> run.held[t]
    ensures run.stop[t] == if trace[t].Some? then Some(trace[t].value.stop) else None
  {
    var h := StoryOf(k, run);
    if t < k.First() {
      assert Row(k, run, t, k.Last());
      ChartBeforeRun(k, h, run, trace, t);
    } else {
      StoryChart(k, h, run, trace, t);
    }
  }
}
