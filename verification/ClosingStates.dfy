/**
  The report labels every close from the order and trade lists alone. The labels are the engine's
  hidden state at that close, so the label counts describe what the engine was really doing.
 */
module ClosingStates {
  import opened Common
  import opened BreakoutEngine
  import opened RunHistory
  import opened TradeHistory
  import opened EpisodeTiling

  datatype Label = Holding | BuyQueued | Cooldown | AwaitingConfirmation | NoFreshRange | WaitingForCrossing

  ghost predicate Queues(ev: seq<Order>, t: nat) {
    exists i :: 0 <= i < |ev| && ev[i].side == Buy && ev[i].day <= t < ev[i].fill
  }

  ghost predicate Cools(es: seq<Episode>, cooldown: nat, t: nat) {
    exists i :: 0 <= i < |es| && es[i].exit.Some? && es[i].exit.value.index <= t < es[i].exit.value.index + cooldown
  }

  /** The label the report gives session `t`, in its order of precedence. */
  ghost function LabelOf(run: Run, cooldown: nat, valid: seq<bool>, t: nat): Label
    requires t < |run.held| && |run.held| == |run.level| == |valid|
  {
    if run.held[t] then Holding
    else if Queues(run.events, t) then BuyQueued
    else if Cools(run.episodes, cooldown, t) then Cooldown
    else if run.level[t].Some? then AwaitingConfirmation
    else if !valid[t] then NoFreshRange
    else WaitingForCrossing
  }

  ghost function LabelsFrom(run: Run, cooldown: nat, valid: seq<bool>, lo: nat, hi: nat): multiset<Label>
    requires lo <= hi <= |run.held| && |run.held| == |run.level| == |valid|
  {
    if lo == hi then multiset{}
    else LabelsFrom(run, cooldown, valid, lo, hi - 1) + multiset{LabelOf(run, cooldown, valid, hi - 1)}
  }

  /** Sets `a[from..to]`, clipped to the array. */
  method MarkRange(a: array<bool>, from: nat, to: nat)
    modifies a
    ensures forall t :: 0 <= t < a.Length ==> a[t] == (old(a[t]) || from <= t < to)
  {
    var t := from;
    var end := if to < a.Length then to else a.Length;
    while t < end
      invariant from <= t && (t <= end || t == from)
      invariant forall d :: 0 <= d < a.Length ==> a[d] == (old(a[d]) || from <= d < t)
    {
      a[t] := true;
      t := t + 1;
    }
  }

  /** The cooldown flags, one closed trade at a time. */
  method MarkCooldowns(es: seq<Episode>, cooldown: nat, hi: nat) returns (cool: array<bool>)
    ensures fresh(cool) && cool.Length == hi && forall t :: 0 <= t < hi ==> cool[t] == Cools(es, cooldown, t)
  {
    cool := new bool[hi](_ => false);
    var i := 0;
    while i < |es|
      invariant 0 <= i <= |es|
      invariant forall t :: 0 <= t < hi ==> cool[t] == Cools(es[..i], cooldown, t)
    {
      if es[i].exit.Some? {
        var x := es[i].exit.value.index;
        MarkRange(cool, x, x + cooldown);
      }
      forall t | 0 <= t < hi ensures cool[t] == Cools(es[..i + 1], cooldown, t) {
        CoolsOneMore(es, i, cooldown, t);
      }
      i := i + 1;
    }
    assert es[..i] == es;
  }

  /** The flags of sessions with a purchase waiting, one order at a time. */
  method MarkQueued(ev: seq<Order>, hi: nat) returns (queued: array<bool>)
    ensures fresh(queued) && queued.Length == hi && forall t :: 0 <= t < hi ==> queued[t] == Queues(ev, t)
  {
    queued := new bool[hi](_ => false);
    var i := 0;
    while i < |ev|
      invariant 0 <= i <= |ev|
      invariant forall t :: 0 <= t < hi ==> queued[t] == Queues(ev[..i], t)
    {
      if ev[i].side == Buy {
        MarkRange(queued, ev[i].day, ev[i].fill);
      }
      forall t | 0 <= t < hi ensures queued[t] == Queues(ev[..i + 1], t) {
        QueuesOneMore(ev, i, t);
      }
      i := i + 1;
    }
    assert ev[..i] == ev;
  }

  /** The report's counter over sessions `lo` to `hi`. */
  method CountClosingStates(run: Run, cooldown: nat, valid: seq<bool>, lo: nat, hi: nat) returns (counts: multiset<Label>)
    requires lo <= hi <= |run.held| && |run.held| == |run.level| == |valid|
    ensures counts == LabelsFrom(run, cooldown, valid, lo, hi)
  {
    var cool := MarkCooldowns(run.episodes, cooldown, hi);
    var queued := MarkQueued(run.events, hi);
    counts := multiset{};
    var t := lo;
    while t < hi
      invariant lo <= t <= hi && counts == LabelsFrom(run, cooldown, valid, lo, t)
    {
      var state :=
        if run.held[t] then Holding
        else if queued[t] then BuyQueued
        else if cool[t] then Cooldown
        else if run.level[t].Some? then AwaitingConfirmation
        else if !valid[t] then NoFreshRange
        else WaitingForCrossing;
      counts := counts + multiset{state};
      t := t + 1;
    }
  }

  lemma CoolsOneMore(es: seq<Episode>, i: nat, cooldown: nat, t: nat)
    requires i < |es|
    ensures Cools(es[..i + 1], cooldown, t) <==>
      Cools(es[..i], cooldown, t) || (es[i].exit.Some? && es[i].exit.value.index <= t < es[i].exit.value.index + cooldown)
  {
    var a, b := es[..i], es[..i + 1];
    assert forall j :: 0 <= j < i ==> a[j] == b[j];
    assert b[i] == es[i];
  }

  lemma QueuesOneMore(ev: seq<Order>, i: nat, t: nat)
    requires i < |ev|
    ensures Queues(ev[..i + 1], t) <==> Queues(ev[..i], t) || (ev[i].side == Buy && ev[i].day <= t < ev[i].fill)
  {
    var a, b := ev[..i], ev[..i + 1];
    assert forall j :: 0 <= j < i ==> a[j] == b[j];
    assert b[i] == ev[i];
  }

  // ---------------------------------------------------------------- the labels are the hidden state

  /** The same label read off the engine's variables after the close. */
  ghost function HiddenLabel(s: State, t: nat, valid: bool): Label {
    if s.Held() then Holding
    else if s.pending.BuyOrder? then BuyQueued
    else if t <= s.cooldownUntil then Cooldown
    else if s.candidate.Some? then AwaitingConfirmation
    else if !valid then NoFreshRange
    else WaitingForCrossing
  }

  lemma QueuesIsPending(k: Setup, h: seq<State>, t: nat)
    requires Story(k, h) && k.First() <= t < |h| - 1
    ensures Queues(h[|h| - 1].events, t) <==> h[t + 1].pending.BuyOrder?
  {
    var s, ev := h[t + 1], h[|h| - 1].events;
    EventsGrow(k, h, t + 1, |h| - 1);
    assert Sound(k, h, t + 1) && Sound(k, h, |h| - 1);
    var n := |s.events|;
    if s.pending.BuyOrder? {
      assert ev[n - 1] == s.events[n - 1];
    }
    if Queues(ev, t) {
      var i :| 0 <= i < |ev| && ev[i].side == Buy && ev[i].day <= t < ev[i].fill;
      assert i < n;
      assert ev[n - 1] == s.events[n - 1] && ev[i] == s.events[i];
      assert i == n - 1;
    }
  }

  lemma {:induction false} CooldownFollowsExit(k: Setup, h: seq<State>, t: nat)
    requires Story(k, h) && k.First() <= t < |h|
    ensures var s := h[t];
      && (forall i :: 0 <= i < |s.closed| ==> s.closed[i].exit.Some?)
      && s.cooldownUntil == if s.closed == [] then -1 else s.closed[|s.closed| - 1].exit.value.index + k.rules.cooldown - 1
    decreases t
  {
    if t > k.First() {
      CooldownFollowsExit(k, h, t - 1);
      var f, kind, d, choice := Step(k, h, t - 1);
    }
  }

  /** Only the last exit's cooldown can still be running. */
  lemma LastExitCools(closed: seq<Episode>, es: seq<Episode>, cooldown: nat, t: nat)
    requires FlatAt(closed, es, t)
    ensures Cools(es, cooldown, t) <==> closed != [] && ExitedBy(closed[|closed| - 1], t) && t < closed[|closed| - 1].exit.value.index + cooldown
  {
    var n := |closed|;
    if n > 0 {
      assert es[n - 1] == closed[n - 1];
    }
    if Cools(es, cooldown, t) {
      var i :| 0 <= i < |es| && es[i].exit.Some? && es[i].exit.value.index <= t < es[i].exit.value.index + cooldown;
      assert i < n;
      assert es[i].exit.value.index <= es[n - 1].exit.value.index;
    }
  }

  ghost predicate ExitedBy(e: Episode, t: nat) {
    e.exit.Some? && e.exit.value.index <= t
  }

  ghost predicate AllExited(es: seq<Episode>, t: nat) {
    forall i :: 0 <= i < |es| ==> ExitedBy(es[i], t)
  }

  lemma ClosedHaveExited(k: Setup, h: seq<State>, t: nat)
    requires Story(k, h) && k.First() <= t < |h| - 1
    ensures AllExited(h[t + 1].closed, t)
  {
    TradesAreBooked(k, h, t + 1);
    var es := h[t + 1].closed;
    forall i | 0 <= i < |es| ensures ExitedBy(es[i], t) {
      assert Completed(k, es[i]);
    }
  }

  ghost predicate FlatAt(closed: seq<Episode>, es: seq<Episode>, t: nat) {
    && Proper(es) && |closed| <= |es|
    && (forall i :: 0 <= i < |closed| ==> es[i] == closed[i])
    && AllExited(closed, t)
    && (forall i :: |closed| <= i < |es| ==> es[i].entryIndex > t)
  }

  lemma FlatExtends(s: State, r: State, t: nat)
    requires Extends(s, t + 1, r) && s.episode.None? && Proper(r.Trades())
    requires AllExited(s.closed, t)
    ensures FlatAt(s.closed, r.Trades(), t)
  {
    assert s.Trades() == s.closed;
    forall i | |s.closed| <= i < |r.Trades()| ensures r.Trades()[i].entryIndex > t {
      assert r.Trades()[i].entryIndex >= t + 1;
    }
  }

  lemma ExitedAndProper(k: Setup, h: seq<State>, t: nat)
    requires Story(k, h) && k.First() <= t < |h| - 1
    ensures AllExited(h[t + 1].closed, t) && Proper(h[|h| - 1].Trades())
  {
    ClosedHaveExited(k, h, t);
    RunTradesProper(k, h, |h| - 1);
  }

  lemma FlatTrades(k: Setup, h: seq<State>, t: nat)
    requires Story(k, h) && k.First() <= t < |h| - 1 && !h[t + 1].Held()
    ensures FlatAt(h[t + 1].closed, h[|h| - 1].Trades(), t)
  {
    TradesAround(k, h, t + 1, |h| - 1);
    ExitedAndProper(k, h, t);
    FlatExtends(h[t + 1], h[|h| - 1], t);
  }

  lemma CoolsIsCooldown(k: Setup, h: seq<State>, t: nat)
    requires Story(k, h) && k.First() <= t < |h| - 1 && !h[t + 1].Held()
    ensures Cools(h[|h| - 1].Trades(), k.rules.cooldown, t) <==> t <= h[t + 1].cooldownUntil
  {
    CooldownFollowsExit(k, h, t + 1);
    FlatTrades(k, h, t);
    LastExitCools(h[t + 1].closed, h[|h| - 1].Trades(), k.rules.cooldown, t);
  }

  lemma LevelIsCandidate(k: Setup, h: seq<State>, t: nat)
    requires Story(k, h) && k.First() <= t < |h| - 1
    requires !h[t + 1].Held() && h[t + 1].pending.NoOrder? && t > h[t + 1].cooldownUntil
    ensures h[t + 1].level.Some? <==> h[t + 1].candidate.Some?
  {
    var f, kind, d, choice := Step(k, h, t);
  }

  lemma StoryLabel(k: Setup, h: seq<State>, run: Run, valid: seq<bool>, t: nat)
    requires Tells(k, h, run) && k.First() <= t < k.Last() && |run.held| == |run.level| == |valid| && t < |run.held|
    ensures LabelOf(run, k.rules.cooldown, valid, t) == HiddenLabel(h[t + 1], t, valid[t])
  {
    assert Shows(k, h, run, t);
    QueuesIsPending(k, h, t);
    if !h[t + 1].Held() {
      CoolsIsCooldown(k, h, t);
      assert Sound(k, h, t + 1);
      if h[t + 1].pending.NoOrder? && t > h[t + 1].cooldownUntil {
        LevelIsCandidate(k, h, t);
      }
    }
  }

  /** On every run each label rebuilt from the lists is the engine's own state after that close. */
  lemma LabelsAreHiddenStates(k: Setup, run: Run, valid: seq<bool>, t: nat)
    requires k.target > 0.0 && Produces(k, run) && |valid| == |k.bars| && k.First() <= t < k.Last()
    ensures Reaches(k, t + 1)
    ensures LabelOf(run, k.rules.cooldown, valid, t) == HiddenLabel(At(k, t + 1), t, valid[t])
  {
    ReachesEarlier(k, t + 1, k.Last());
    var h := TracedStoryOf(k, run, t + 1);
    StoryLabel(k, h, run, valid, t);
  }

  lemma TracedStoryOf(k: Setup, run: Run, u: nat) returns (h: seq<State>)
    requires k.target > 0.0 && Produces(k, run) && k.First() <= u <= k.Last() && Reaches(k, u)
    ensures Tells(k, h, run) && h[u] == At(k, u)
  {
    h := StoryOf(k, run);
    assert Traced(k, h, u);
  }
}
