/**
  What every confirmed breakout carries, for every market and every target: a crossing on or before its
  confirmation, and the range of the confirmation close.
 */
module SignalRecords {
  import opened Common
  import opened BreakoutEngine

  /** A breakout of the range crosses at its crossing session; a continuation need not. */
  ghost predicate Crossed(k: Setup, c: Candidate, t: nat) {
    c.crossing < t && c.crossing < |k.bars| && (!c.reentry ==> k.bars[c.crossing].cross.Some?)
  }

  ghost predicate Grounded(k: Setup, g: Signal, t: nat) {
    && k.First() <= g.confirmation < t && g.confirmation < |k.bars|
    && Crossed(k, g.candidate, t) && g.candidate.crossing <= g.confirmation
    && k.bars[g.confirmation].atr == Some(g.atr)
  }

  ghost predicate AllGrounded(k: Setup, es: seq<Episode>, t: nat) {
    forall i :: 0 <= i < |es| ==> Grounded(k, es[i].signal, t)
  }

  /** Before session `t`: the waiting breakout, the queued one and those of all trades. */
  ghost predicate Carries(k: Setup, s: State, t: nat) {
    && (s.candidate.Some? ==> Crossed(k, s.candidate.value, t))
    && (s.pending.BuyOrder? ==> Grounded(k, s.pending.signal, t))
    && (s.episode.Some? ==> Grounded(k, s.episode.value.signal, t))
    && AllGrounded(k, s.closed, t)
  }

  lemma CarriesFill(k: Setup, s: State, t: nat)
    requires k.Valid() && WellFormed(s) && t < |k.bars| && Carries(k, s, t)
    ensures Carries(k, Fill(k, s, t), t + 1)
  {
    var f := Fill(k, s, t);
    forall i | 0 <= i < |f.closed| ensures Grounded(k, f.closed[i].signal, t + 1) {
      if i < |s.closed| { assert Grounded(k, s.closed[i].signal, t); }
    }
  }

  lemma CarriesScan(k: Setup, s: State, t: nat, r: State)
    requires WellFormed(s) && k.First() <= t < |k.bars| && s.pending.NoOrder? && Scan(k, s, t) == Ok(r) && Carries(k, s, t + 1)
    ensures Carries(k, r, t + 1)
  {
    var kept := Recount(s.candidate, k.bars[t].close);
    assert kept.Some? ==> Crossed(k, kept.value, t + 1);
  }

  lemma CarriesDecision(k: Setup, s: State, t: nat, r: State)
    requires WellFormed(s) && k.First() <= t < |k.bars| && Decide(k, s, t) == Ok(r) && Carries(k, s, t + 1)
    ensures Carries(k, r, t + 1)
  {
    if s.units == 0.0 && s.pending.NoOrder? && t > s.cooldownUntil {
      CarriesScan(k, s, t, r);
    }
  }

  lemma CarriesSession(k: Setup, s: State, t: nat, r: State)
    requires k.Valid() && WellFormed(s) && k.First() <= t < |k.bars| && Carries(k, s, t) && Session(k, s, t) == Ok(r)
    ensures Carries(k, r, t + 1)
  {
    CarriesFill(k, s, t);
    CarriesDecision(k, Fill(k, s, t), t, Decide(k, Fill(k, s, t), t).value);
  }

  lemma {:induction false} EveryStateCarries(k: Setup, t: nat, s: State)
    requires k.Valid() && k.First() <= t <= k.Last() && After(k, t) == Ok(s)
    ensures Carries(k, s, t)
    decreases t
  {
    if t > k.First() {
      var before := After(k, t - 1).value;
      EveryStateCarries(k, t - 1, before);
      CarriesSession(k, before, t - 1, s);
    }
  }

  // ---------------------------------------------------------------- ranges, once known

  /** A range that is known stays known: what the feature builder yields. */
  ghost predicate RangesLast(k: Setup) {
    forall t, u :: 0 <= t <= u < |k.bars| && k.bars[t].atr.Some? ==> k.bars[u].atr.Some?
  }

  /** The day's true range; the first day has no previous close. */
  function TrueRange(high: seq<real>, low: seq<real>, close: seq<real>, t: nat): Option<real>
    requires t < |high| == |low| == |close|
  {
    if t == 0 then None
    else Some(MaxReal(high[t] - low[t], MaxReal(AbsReal(high[t] - close[t - 1]), AbsReal(low[t] - close[t - 1]))))
  }

  /** The true range is the stretch that the day's prices and the previous close take up together. */
  lemma TrueRangeIsStretch(high: seq<real>, low: seq<real>, close: seq<real>, t: nat)
    requires 0 < t < |high| == |low| == |close| && low[t] <= high[t]
    ensures TrueRange(high, low, close, t) ==
      Some((if close[t - 1] > high[t] then close[t - 1] else high[t]) - (if close[t - 1] < low[t] then close[t - 1] else low[t]))
  {
  }

  /** Sum over the `m` days that end with `t`, unknown when a day is missing or unknown. */
  function WindowSum(high: seq<real>, low: seq<real>, close: seq<real>, m: nat, t: nat): Option<real>
    requires t < |high| == |low| == |close|
    decreases m
  {
    if m == 0 then Some(0.0)
    else if t + 1 < m || TrueRange(high, low, close, t).None? then None
    else if m == 1 then TrueRange(high, low, close, t)
    else
      var before := WindowSum(high, low, close, m - 1, t - 1);
      if before.None? then None else Some(before.value + TrueRange(high, low, close, t).value)
  }

  /** The rolling mean of true ranges. */
  function RollingRange(high: seq<real>, low: seq<real>, close: seq<real>, period: nat, t: nat): Option<real>
    requires t < |high| == |low| == |close| && period > 0
  {
    var sum := WindowSum(high, low, close, period, t);
    if sum.None? then None else Some(sum.value / (period as real))
  }

  lemma {:induction false} WindowIsKnown(high: seq<real>, low: seq<real>, close: seq<real>, m: nat, t: nat)
    requires t < |high| == |low| == |close| && m > 0
    ensures WindowSum(high, low, close, m, t).Some? <==> m <= t
    decreases m
  {
    if m > 1 && t > 0 { WindowIsKnown(high, low, close, m - 1, t - 1); }
  }

  /** Whatever the prices, a rolling range is unknown on exactly the first `period` days: once known it lasts. */
  lemma RollingRangesLast(k: Setup, high: seq<real>, low: seq<real>, close: seq<real>, period: nat)
    requires |k.bars| == |high| == |low| == |close| && period > 0
    requires forall t :: 0 <= t < |k.bars| ==> k.bars[t].atr == RollingRange(high, low, close, period, t)
    ensures forall t :: 0 <= t < |k.bars| ==> (k.bars[t].atr.Some? <==> period <= t)
    ensures RangesLast(k)
  {
    forall t | 0 <= t < |k.bars| ensures k.bars[t].atr.Some? <==> period <= t {
      WindowIsKnown(high, low, close, period, t);
    }
  }

  /** Every listed trade has its crossing on or before its confirmation, and its frozen range is that close's. */
  lemma SignalsAreGrounded(k: Setup, run: Run, i: nat)
    requires Produces(k, run) && i < |run.episodes|
    ensures Grounded(k, run.episodes[i].signal, k.Last())
  {
    var s := At(k, k.Last());
    EveryStateCarries(k, k.Last(), s);
    if i < |s.closed| { assert run.episodes[i] == s.closed[i]; }
  }
}
