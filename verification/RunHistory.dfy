/** How one session changes the run, and how earlier states survive in later ones. */
module RunHistory {
  import opened Common
  import opened BreakoutEngine
  import opened OrderBook

  /** What the open does. */
  datatype FillKind = NoFill | Bought | Sold

  ghost predicate Fills(k: Setup, s: State, t: nat, f: State, kind: FillKind)
    requires k.Valid() && t < |k.bars|
  {
    && f.events == s.events && f.candidate == s.candidate
    && match kind
       case NoFill =>
         && f == s && (s.pending != NoOrder ==> s.pending.fill != t)
       case Bought =>
         && s.pending.BuyOrder? && s.pending.fill == t && f.pending.NoOrder? && f.closed == s.closed
         && f.cooldownUntil == s.cooldownUntil
         && f.cash == s.cash - Notional(k, s.cash) * (1.0 + k.fee)
         && f.units == Notional(k, s.cash) / k.bars[t].open
         && f.episode == Some(Episode(s.pending.signal, t, k.bars[t].open, k.bars[t].close,
                                      InitialStop(k.rules, s.pending.signal, k.bars[t].open), false, None, None))
       case Sold =>
         && s.pending.SellOrder? && s.pending.fill == t && f.pending.NoOrder? && f.episode.None? && s.episode.Some?
         && f.cash == s.cash + s.units * k.bars[t].open * (1.0 - k.fee) && f.units == 0.0
         && f.cooldownUntil == t + k.rules.cooldown - 1
         && f.closed == s.closed + [s.episode.value.(exit := Some(Close(t, k.bars[t].open)))]
  }

  lemma FillKindOf(k: Setup, s: State, t: nat, f: State) returns (kind: FillKind)
    requires k.Valid() && WellFormed(s) && t < |k.bars| && f == Fill(k, s, t)
    ensures Fills(k, s, t, f, kind)
  {
    kind := if s.pending.NoOrder? || s.pending.fill != t then NoFill else if s.pending.BuyOrder? then Bought else Sold;
  }

  lemma OpenHalf(k: Setup, t: nat, s: State) returns (f: State, kind: FillKind)
    requires k.Valid() && k.target > 0.0 && t < |k.bars| && WellFormed(s) && Coherent(k, s, t) && Funded(k, s)
    ensures f == Fill(k, s, t) && WellFormed(f) && Fills(k, s, t, f, kind) && Coherent(k, f, t + 1) && Funded(k, f)
  {
    f := Fill(k, s, t);
    kind := FillKindOf(k, s, t, f);
    FillKeepsCoherent(k, s, t);
  }

  /** What the close writes down: stop and level, and how an unqueued trade's stop moved. */
  ghost predicate Writes(k: Setup, s: State, t: nat, r: State)
    requires t < |k.bars|
  {
    if s.episode.Some? then
      && r.episode.Some? && r.stop == Some(r.episode.value.stop)
      && (if s.pending.NoOrder? then r.episode.value.(decision := None) == Ratchet(k.rules, k.bars[t], s.episode.value).(decision := None)
          else r.episode == s.episode)
    else
      && r.stop.None?
      && (r.pending.NoOrder? ==> (r.level.Some? <==> r.candidate.Some? && t > s.cooldownUntil))
  }

  lemma DecideWrites(k: Setup, s: State, t: nat, r: State)
    requires WellFormed(s) && 1 <= t < |k.bars| && Decide(k, s, t) == Ok(r)
    requires s.units >= 0.0 && (s.episode.Some? <==> s.units > 0.0)
    ensures Writes(k, s, t, r)
  {
  }

  lemma SessionAt(k: Setup, t: nat, s: State, r: State)
    requires k.Valid() && k.First() <= t < k.Last()
    requires After(k, t) == Ok(s) && After(k, t + 1) == Ok(r)
    ensures WellFormed(s) && Session(k, s, t) == Ok(r)
  {
  }

  lemma CloseHalf(k: Setup, t: nat, s: State, r: State, f: State) returns (d: State, choice: Choice)
    requires k.Valid() && WellFormed(s) && WellFormed(f) && 1 <= t < |k.bars| && Session(k, s, t) == Ok(r) && f == Fill(k, s, t)
    requires Coherent(k, f, t + 1) && Funded(k, f)
    ensures Chooses(k, f, t, d, choice) && Writes(k, f, t, d)
    ensures r == d.(mark := d.cash + d.units * k.bars[t].close)
  {
    d := Decide(k, f, t).value;
    choice := DecideChooses(k, f, t, d);
    DecideWrites(k, f, t, d);
  }

  /** A session is a fill, then a choice, then a mark. */
  lemma SessionSplits(k: Setup, t: nat, s: State, r: State) returns (f: State, kind: FillKind, d: State, choice: Choice)
    requires k.Valid() && k.target > 0.0 && k.First() <= t < k.Last()
    requires After(k, t) == Ok(s) && After(k, t + 1) == Ok(r)
    ensures Coherent(k, s, t) && Funded(k, s)
    ensures Fills(k, s, t, f, kind) && Coherent(k, f, t + 1) && Funded(k, f)
    ensures Chooses(k, f, t, d, choice) && Writes(k, f, t, d)
    ensures r == d.(mark := d.cash + d.units * k.bars[t].close)
  {
    SessionAt(k, t, s, r);
    RunsAreCoherent(k, t, s);
    f, kind := OpenHalf(k, t, s);
    d, choice := CloseHalf(k, t, s, r, f);
  }

  // ---------------------------------------------------------------- the run as a list of states

  /** `f`, `kind`, `d` and `choice` explain how session `t` turns `s` into `r`. */
  ghost predicate Explains(k: Setup, t: nat, s: State, r: State, f: State, kind: FillKind, d: State, choice: Choice)
    requires k.Valid() && t < |k.bars|
  {
    && Fills(k, s, t, f, kind) && Linked(k, f, t + 1) && Funded(k, f)
    && Chooses(k, f, t, d, choice) && Writes(k, f, t, d)
    && r == d.(mark := d.cash + d.units * k.bars[t].close)
  }

  /** State `h[t]` is the engine before session `t`; entries before the first session are unused. */
  ghost predicate Sound(k: Setup, h: seq<State>, t: nat)
    requires t < |h|
  {
    Coherent(k, h[t], t) && Funded(k, h[t])
  }

  ghost predicate Moved(k: Setup, t: nat, s: State, r: State)
    requires k.Valid() && t < |k.bars|
  {
    exists f, kind, d, choice :: Explains(k, t, s, r, f, kind, d, choice)
  }

  ghost predicate Moves(k: Setup, h: seq<State>, t: nat)
    requires k.Valid() && t + 1 < |h| && t < |k.bars|
  {
    Moved(k, t, h[t], h[t + 1])
  }

  ghost predicate Story(k: Setup, h: seq<State>) {
    && k.Valid() && k.target > 0.0 && k.First() < |h| <= k.Last() + 1
    && h[k.First()] == InitialState()
    && (forall t :: k.First() <= t < |h| ==> Sound(k, h, t))
    && (forall t :: k.First() <= t < |h| - 1 ==> Moves(k, h, t))
  }

  ghost predicate Shows(k: Setup, h: seq<State>, run: Run, t: nat) {
    && t + 1 < |h| && t < |run.nav| && |run.nav| == |run.desired| == |run.held| == |run.stop| == |run.level|
    && run.nav[t] == Some(h[t + 1].mark)
    && run.desired[t] == h[t + 1].Desired()
    && run.held[t] == h[t + 1].Held()
    && run.stop[t] == h[t + 1].stop
    && run.level[t] == h[t + 1].level
  }

  /** The story of a complete run. */
  ghost predicate Tells(k: Setup, h: seq<State>, run: Run) {
    && Story(k, h) && |h| == k.Last() + 1
    && (forall t :: k.First() <= t < k.Last() ==> Shows(k, h, run, t))
    && run.episodes == h[k.Last()].Trades() && run.events == h[k.Last()].events
  }

  ghost predicate Traced(k: Setup, h: seq<State>, t: nat) {
    t < |h| && Reaches(k, t) && At(k, t) == h[t]
  }

  lemma {:induction false} StoryUpTo(k: Setup, u: nat) returns (h: seq<State>)
    requires k.target > 0.0 && Reaches(k, u)
    ensures Story(k, h) && |h| == u + 1
    ensures forall t :: k.First() <= t <= u ==> Traced(k, h, t)
    decreases u
  {
    if u == k.First() {
      h := seq(u + 1, _ => InitialState());
      RunsAreCoherent(k, u, h[u]);
      assert Sound(k, h, u);
    } else {
      ReachesEarlier(k, u - 1, u);
      var h0 := StoryUpTo(k, u - 1);
      assert Traced(k, h0, u - 1);
      var r := At(k, u);
      SessionMoves(k, u - 1, h0[u - 1], r);
      RunsAreCoherent(k, u, r);
      h := StoryExtends(k, h0, u, r);
      forall t | k.First() <= t <= u ensures Traced(k, h, t) {
        if t < u { assert Traced(k, h0, t); }
      }
    }
  }

  lemma SessionMoves(k: Setup, t: nat, s: State, r: State)
    requires k.Valid() && k.target > 0.0 && k.First() <= t < k.Last()
    requires After(k, t) == Ok(s) && After(k, t + 1) == Ok(r)
    ensures Moved(k, t, s, r)
  {
    var f, kind, d, choice := SessionSplits(k, t, s, r);
    assert Explains(k, t, s, r, f, kind, d, choice);
  }

  lemma StoryExtends(k: Setup, h: seq<State>, u: nat, r: State) returns (h': seq<State>)
    requires Story(k, h) && |h| == u && k.First() < u <= k.Last() && Moved(k, u - 1, h[u - 1], r)
    requires Coherent(k, r, u) && Funded(k, r)
    ensures h' == h + [r] && Story(k, h')
  {
    h' := h + [r];
    forall t | k.First() <= t < |h'| ensures Sound(k, h', t) {
      if t < u { assert Sound(k, h, t); }
    }
    forall t | k.First() <= t < |h'| - 1 ensures Moves(k, h', t) {
      if t < u - 1 { assert Moves(k, h, t); }
    }
  }

  /** Every complete run has a story. */
  lemma StoryOf(k: Setup, run: Run) returns (h: seq<State>)
    requires k.target > 0.0 && Produces(k, run)
    ensures Tells(k, h, run)
    ensures forall t :: k.First() <= t <= k.Last() ==> Traced(k, h, t)
  {
    h := StoryUpTo(k, k.Last());
    forall t | k.First() <= t < k.Last() ensures Shows(k, h, run, t) {
      assert Row(k, run, t, k.Last());
      assert Traced(k, h, t + 1);
    }
    assert Traced(k, h, k.Last());
  }

  lemma Step(k: Setup, h: seq<State>, t: nat) returns (f: State, kind: FillKind, d: State, choice: Choice)
    requires Story(k, h) && k.First() <= t < |h| - 1
    ensures Sound(k, h, t) && Sound(k, h, t + 1)
    ensures Explains(k, t, h[t], h[t + 1], f, kind, d, choice)
  {
    assert Moves(k, h, t);
    assert Moved(k, t, h[t], h[t + 1]);
    f, kind, d, choice :| Explains(k, t, h[t], h[t + 1], f, kind, d, choice);
    assert Sound(k, h, t) && Sound(k, h, t + 1);
  }

  /** Later states only append orders, all decided later. */
  lemma {:induction false} EventsGrow(k: Setup, h: seq<State>, t: nat, u: nat)
    requires Story(k, h) && k.First() <= t <= u < |h|
    ensures h[t].events <= h[u].events
    ensures forall i :: |h[t].events| <= i < |h[u].events| ==> h[u].events[i].day >= t
    decreases u
  {
    if t < u {
      EventsGrow(k, h, t, u - 1);
      var f, kind, d, choice := Step(k, h, u - 1);
    }
  }

  /** The session-to-side lookup that the report builds from the order list; a later entry wins. */
  function ByFill(ev: seq<Order>): (m: map<nat, Side>)
    ensures forall t :: t in m <==> exists i :: 0 <= i < |ev| && ev[i].fill == t
  {
    if ev == [] then map[] else
      var last := ev[|ev| - 1];
      assert ev == ev[..|ev| - 1] + [last];
      ByFill(ev[..|ev| - 1])[last.fill := last.side]
  }

  lemma {:induction false} ByFillAt(ev: seq<Order>, i: nat)
    requires i < |ev| && forall j :: i < j < |ev| ==> ev[j].fill != ev[i].fill
    ensures ev[i].fill in ByFill(ev) && ByFill(ev)[ev[i].fill] == ev[i].side
  {
    if i < |ev| - 1 {
      ByFillAt(ev[..|ev| - 1], i);
    }
  }

  function DueSide(p: Pending, t: nat): Option<Side> {
    if p.NoOrder? || p.fill != t then None else if p.BuyOrder? then Some(Buy) else Some(Sell)
  }

  function Lookup(m: map<nat, Side>, t: nat): Option<Side> {
    if t in m then Some(m[t]) else None
  }

  lemma OnlyLastIsDue(k: Setup, ev: seq<Order>, n: nat, i: nat, t: nat)
    requires Orderly(k, ev) && i < |ev| && n <= |ev| && (n > 0 ==> ev[n - 1].day < t) && ev[i].fill == t
    requires i >= n ==> ev[i].day >= t
    ensures i == n - 1
  {
  }

  /** In an orderly list that holds the queue as its last entry, the lookup is the queue. */
  lemma QueueIsListed(k: Setup, p: Pending, ev: seq<Order>, n: nat, t: nat, m: map<nat, Side>)
    requires Orderly(k, ev) && n <= |ev|
    requires forall i :: n <= i < |ev| ==> ev[i].day >= t
    requires n > 0 ==> ev[n - 1].day < t && (p.NoOrder? ==> ev[n - 1].fill < t)
    requires !p.NoOrder? ==> n > 0 && ev[n - 1].fill == p.fill >= t && ev[n - 1].side == if p.BuyOrder? then Buy else Sell
    requires t in m ==> exists i :: 0 <= i < |ev| && ev[i].fill == t
    requires n > 0 ==> ev[n - 1].fill in m && m[ev[n - 1].fill] == ev[n - 1].side
    ensures Lookup(m, t) == DueSide(p, t)
  {
    if t in m {
      var i :| 0 <= i < |ev| && ev[i].fill == t;
      OnlyLastIsDue(k, ev, n, i, t);
    }
  }

  lemma LaterOrdersFillLater(k: Setup, ev: seq<Order>, i: nat)
    requires Orderly(k, ev) && i < |ev|
    ensures forall j :: i < j < |ev| ==> ev[j].fill > ev[i].fill
  {
  }

  /** The finished order list says of session `t` exactly what was pending when it opened. */
  lemma DueIsListed(k: Setup, h: seq<State>, t: nat, u: nat)
    requires Story(k, h) && k.First() <= t < u < |h|
    ensures Lookup(ByFill(h[u].events), t) == DueSide(h[t].pending, t)
  {
    EventsGrow(k, h, t, u);
    assert Sound(k, h, t) && Sound(k, h, u);
    var n := |h[t].events|;
    assert n > 0 ==> h[u].events[n - 1] == h[t].events[n - 1];
    if n > 0 {
      LaterOrdersFillLater(k, h[u].events, n - 1);
      ByFillAt(h[u].events, n - 1);
    }
    QueueIsListed(k, h[t].pending, h[u].events, n, t, ByFill(h[u].events));
  }
}
