/** Trades across a run: dates, prices and identity, from confirmation to exit. */
module TradeHistory {
  import opened Common
  import opened BreakoutEngine
  import opened OrderBook
  import opened RunHistory

  // ---------------------------------------------------------------- one session's effect on trades

  ghost predicate Continues(a: Episode, b: Episode, t: nat) {
    && SameTrade(a, b)
    && (if a.decision.Some? then b.decision == a.decision else b.decision.None? || b.decision.value.day == t)
  }

  ghost predicate Opens(k: Setup, t: nat, s: State, r: State)
    requires t < |k.bars|
  {
    && r.closed == s.closed && s.episode.None? && r.episode.Some?
    && s.pending.BuyOrder? && s.pending.fill == t
    && r.episode.value.signal == s.pending.signal && r.episode.value.entryIndex == t
    && r.episode.value.entry == k.bars[t].open && r.episode.value.exit.None?
    && (r.episode.value.decision.None? || r.episode.value.decision.value.day == t)
  }

  ghost predicate Closes(k: Setup, t: nat, s: State, r: State)
    requires t < |k.bars|
  {
    && s.episode.Some? && r.episode.None? && s.pending.SellOrder? && s.pending.fill == t
    && r.closed == s.closed + [s.episode.value.(exit := Some(Close(t, k.bars[t].open)))]
  }

  ghost predicate Advances(k: Setup, t: nat, s: State, r: State)
    requires t < |k.bars|
  {
    || (r.closed == s.closed && s.episode.None? && r.episode.None?)
    || (r.closed == s.closed && s.episode.Some? && r.episode.Some? && Continues(s.episode.value, r.episode.value, t))
    || Opens(k, t, s, r)
    || Closes(k, t, s, r)
  }

  /** A pending order fills one session, plus the delay, after the close that made it. */
  ghost predicate Dated(k: Setup, s: State) {
    match s.pending
    case NoOrder => true
    case BuyOrder(fill, g) => fill == g.confirmation + 1 + k.delay && g.atr > 0.0
    case SellOrder(fill) =>
      s.episode.Some? && s.episode.value.decision.Some? && fill == s.episode.value.decision.value.day + 1 + k.delay
  }

  lemma TradesAdvance(k: Setup, h: seq<State>, t: nat)
    requires Story(k, h) && k.First() <= t < |h| - 1
    ensures Advances(k, t, h[t], h[t + 1])
    ensures h[t + 1].pending == h[t].pending || Dated(k, h[t + 1])
    ensures h[t + 1].pending.SellOrder? ==> Dated(k, h[t + 1])
  {
    var f, kind, d, choice := Step(k, h, t);
    var n := |h[t + 1].events|;
    if h[t + 1].pending.SellOrder? {
      assert h[t + 1].events[n - 1].fill == h[t + 1].events[n - 1].day + 1 + k.delay;
    }
  }

  // ---------------------------------------------------------------- the trade book

  ghost predicate Opened(k: Setup, e: Episode) {
    && e.entryIndex < |k.bars| && e.entry == k.bars[e.entryIndex].open
    && e.entryIndex == e.signal.confirmation + 1 + k.delay && e.signal.atr > 0.0
  }

  ghost predicate Completed(k: Setup, e: Episode) {
    && Opened(k, e) && e.decision.Some? && e.exit.Some?
    && e.entryIndex <= e.decision.value.day
    && e.exit.value.index == e.decision.value.day + 1 + k.delay
    && e.exit.value.index < |k.bars| && e.exit.value.price == k.bars[e.exit.value.index].open
  }

  ghost predicate Separate(es: seq<Episode>) {
    && (forall i :: 0 <= i < |es| - 1 ==> es[i].exit.Some?)
    && (forall i, j :: 0 <= i < j < |es| ==> es[i].exit.Some? && es[i].exit.value.index < es[j].entryIndex)
  }

  ghost predicate TradeBook(k: Setup, s: State, t: nat) {
    && (forall i :: 0 <= i < |s.closed| ==> Completed(k, s.closed[i]) && s.closed[i].exit.value.index < t)
    && Separate(s.closed)
    && (s.episode.Some? ==>
        && Opened(k, s.episode.value) && s.episode.value.exit.None? && s.episode.value.entryIndex < t
        && (forall i :: 0 <= i < |s.closed| ==> s.closed[i].exit.value.index < s.episode.value.entryIndex)
        && (s.episode.value.decision.Some? ==> s.episode.value.entryIndex <= s.episode.value.decision.value.day < t))
    && Dated(k, s)
  }

  lemma TradeBookAdvances(k: Setup, t: nat, s: State, r: State)
    requires t < |k.bars| && TradeBook(k, s, t) && Advances(k, t, s, r)
    requires r.pending == s.pending || Dated(k, r)
    requires r.pending.SellOrder? ==> Dated(k, r)
    ensures TradeBook(k, r, t + 1)
  {
    if Closes(k, t, s, r) {
      var n := |s.closed|;
      assert forall i :: 0 <= i < n ==> r.closed[i] == s.closed[i];
      assert Completed(k, r.closed[n]);
    }
  }

  /** At every moment of every run the trades so far are complete, dated in order and disjoint. */
  lemma {:induction false} TradesAreBooked(k: Setup, h: seq<State>, t: nat)
    requires Story(k, h) && k.First() <= t < |h|
    ensures TradeBook(k, h[t], t)
    decreases t
  {
    if t > k.First() {
      TradesAreBooked(k, h, t - 1);
      TradesAdvance(k, h, t - 1);
      TradeBookAdvances(k, t - 1, h[t - 1], h[t]);
    }
  }

  // ---------------------------------------------------------------- the same trade, earlier and later

  /** Trade `i` is the open trade of an earlier state, seen in a later one. */
  ghost predicate Later(a: Episode, b: Episode, t: nat) {
    && a.signal == b.signal && a.entryIndex == b.entryIndex && a.entry == b.entry
    && (if a.decision.Some? then b.decision == a.decision else b.decision.None? || b.decision.value.day >= t)
    && (b.exit.Some? ==> b.exit.value.index >= t)
  }

  ghost predicate Extends(s: State, t: nat, r: State) {
    && |s.Trades()| <= |r.Trades()|
    && |s.closed| <= |r.closed| && (forall i :: 0 <= i < |s.closed| ==> r.closed[i] == s.closed[i])
    && (s.episode.Some? ==> Later(s.episode.value, r.Trades()[|s.closed|], t))
    && (forall i :: |s.Trades()| <= i < |r.Trades()| ==> r.Trades()[i].entryIndex >= t)
  }

  lemma OpenTradeContinues(k: Setup, s: State, t: nat, u: nat, q: State, r: State)
    requires t <= u < |k.bars| && Extends(s, t, q) && Advances(k, u, q, r) && s.episode.Some?
    ensures |s.closed| < |r.Trades()| && Later(s.episode.value, r.Trades()[|s.closed|], t)
  {
    var n := |q.closed|;
    assert forall i :: 0 <= i < n ==> r.closed[i] == q.closed[i];
    var b, c := q.Trades()[|s.closed|], r.Trades()[|s.closed|];
    if |s.closed| < n { assert b == c; }
  }

  lemma NewTradeIsLater(k: Setup, s: State, t: nat, u: nat, q: State, r: State, i: nat)
    requires t <= u < |k.bars| && Extends(s, t, q) && Advances(k, u, q, r) && |s.Trades()| <= i < |r.Trades()|
    ensures r.Trades()[i].entryIndex >= t
  {
    if i < |q.closed| {
      assert r.Trades()[i] == q.Trades()[i];
    } else if i < |q.Trades()| {
      assert q.Trades()[i].entryIndex >= t;
    }
  }

  lemma ClosedTradesStay(k: Setup, s: State, t: nat, u: nat, q: State, r: State)
    requires t <= u < |k.bars| && Extends(s, t, q) && Advances(k, u, q, r)
    ensures |s.Trades()| <= |r.Trades()|
    ensures |s.closed| <= |r.closed| && forall i :: 0 <= i < |s.closed| ==> r.closed[i] == s.closed[i]
  {
    assert |q.closed| <= |r.closed| && r.closed[..|q.closed|] == q.closed;
    forall i | 0 <= i < |s.closed| ensures r.closed[i] == s.closed[i] {
      assert q.closed[i] == r.closed[..|q.closed|][i];
    }
  }

  lemma ExtendsAdvances(k: Setup, s: State, t: nat, u: nat, q: State, r: State)
    requires t <= u < |k.bars| && Extends(s, t, q) && Advances(k, u, q, r)
    ensures Extends(s, t, r)
  {
    ClosedTradesStay(k, s, t, u, q, r);
    if s.episode.Some? {
      OpenTradeContinues(k, s, t, u, q, r);
    }
    forall i | |s.Trades()| <= i < |r.Trades()| ensures r.Trades()[i].entryIndex >= t {
      NewTradeIsLater(k, s, t, u, q, r, i);
    }
  }

  lemma {:induction false} TradesExtend(k: Setup, h: seq<State>, t: nat, u: nat)
    requires Story(k, h) && k.First() <= t <= u < |h|
    ensures Extends(h[t], t, h[u])
    decreases u
  {
    if t < u {
      TradesExtend(k, h, t, u - 1);
      TradesAdvance(k, h, u - 1);
      ExtendsAdvances(k, h[t], t, u - 1, h[u - 1], h[u]);
    } else {
      TradesAreBooked(k, h, t);
      ExtendsItself(k, h[t], t);
    }
  }

  lemma ExtendsItself(k: Setup, s: State, t: nat)
    requires TradeBook(k, s, t)
    ensures Extends(s, t, s)
  {
  }

  ghost predicate Spans(e: Episode, d: nat) {
    e.entryIndex <= d && (e.exit.Some? ==> d < e.exit.value.index)
  }

  /** Long at close `d`: that close is in the current trade. Not long: it is in none. */
  ghost predicate HoldingIsSpanned(s: State, d: nat, es: seq<Episode>) {
    && (s.Held() ==> |s.closed| < |es| && Spans(es[|s.closed|], d))
    && (!s.Held() ==> forall i :: 0 <= i < |es| ==> !Spans(es[i], d))
  }

  lemma OpenTradeSpans(k: Setup, s: State, d: nat, r: State)
    requires TradeBook(k, s, d + 1) && Extends(s, d + 1, r) && s.episode.Some?
    ensures |s.closed| < |r.Trades()| && Spans(r.Trades()[|s.closed|], d)
  {
  }

  lemma NoTradeSpans(k: Setup, s: State, d: nat, r: State, i: nat)
    requires TradeBook(k, s, d + 1) && Extends(s, d + 1, r) && s.episode.None? && i < |r.Trades()|
    ensures !Spans(r.Trades()[i], d)
  {
    if i < |s.closed| {
      assert r.Trades()[i] == s.closed[i];
      assert Completed(k, s.closed[i]);
    }
  }

  lemma TradesSpanHoldings(k: Setup, s: State, d: nat, r: State)
    requires TradeBook(k, s, d + 1) && Extends(s, d + 1, r)
    requires s.Held() <==> s.episode.Some?
    ensures HoldingIsSpanned(s, d, r.Trades())
  {
    if s.episode.Some? {
      OpenTradeSpans(k, s, d, r);
    } else {
      forall i | 0 <= i < |r.Trades()| ensures !Spans(r.Trades()[i], d) {
        NoTradeSpans(k, s, d, r, i);
      }
    }
  }

  lemma HeldHasEpisode(k: Setup, h: seq<State>, t: nat)
    requires Story(k, h) && k.First() <= t < |h|
    ensures h[t].Held() <==> h[t].episode.Some?
  {
    assert Sound(k, h, t);
  }

  lemma TradesAround(k: Setup, h: seq<State>, t: nat, u: nat)
    requires Story(k, h) && k.First() <= t <= u < |h|
    ensures TradeBook(k, h[t], t) && Extends(h[t], t, h[u]) && (h[t].Held() <==> h[t].episode.Some?)
  {
    TradesExtend(k, h, t, u);
    TradesAreBooked(k, h, t);
    HeldHasEpisode(k, h, t);
  }

  /** The account is long at a close exactly when that close lies inside a listed trade. */
  lemma HeldInsideTrades(k: Setup, h: seq<State>, d: nat, u: nat)
    requires Story(k, h) && k.First() <= d < u < |h|
    ensures HoldingIsSpanned(h[d + 1], d, h[u].Trades())
  {
    TradesAround(k, h, d + 1, u);
    TradesSpanHoldings(k, h[d + 1], d, h[u]);
  }
}
