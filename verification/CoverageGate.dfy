/**
  Dated cohorts and the coverage gate of the sector features. Every day belongs to the latest activated
  snapshot, and a feature that looks back is gated by that same snapshot's cohort on every day it reads.
 */
module CoverageGate {
  import opened Common

  /** Dates are yyyymmdd numbers: the order of ISO date strings. */
  const NEVER := 99991231

  /** Coverage of one sector on one day, by value and by name. */
  datatype Cover = Cover(value: real, name: real)

  /** A dated cohort; a sector without stocks has no coverage, not a number. */
  datatype Snapshot = Snapshot(asOf: string, available: int, coverage: seq<seq<Option<Cover>>>)

  predicate SectorPasses(c: Option<Cover>) {
    c.Some? && c.value.value >= 0.95 && c.value.name >= 0.70
  }

  /** Every sector is covered on day `t` under this cohort. */
  predicate Passes(s: Snapshot, t: nat)
    requires t < |s.coverage|
  {
    forall c :: c in s.coverage[t] ==> SectorPasses(c)
  }

  function Lookback(g: nat): nat { if g == 0 then 0 else if g == 1 then 2 else 70 }

  // ---------------------------------------------------------------- prefix counts

  function Failures(gate: seq<bool>, t: nat): nat
    requires t <= |gate|
  {
    if t == 0 then 0 else Failures(gate, t - 1) + if gate[t - 1] then 0 else 1
  }

  /** The day's whole lookback exists and passes. */
  predicate WindowPasses(gate: seq<bool>, lookback: nat, t: nat)
    requires t < |gate|
  {
    lookback <= t && forall d :: t - lookback <= d <= t ==> gate[d]
  }

  lemma {:induction false} CountIsWindow(gate: seq<bool>, lo: nat, hi: nat)
    requires lo <= hi <= |gate|
    ensures Failures(gate, lo) <= Failures(gate, hi)
    ensures Failures(gate, hi) == Failures(gate, lo) <==> forall d :: lo <= d < hi ==> gate[d]
    decreases hi
  {
    if lo < hi { CountIsWindow(gate, lo, hi - 1); }
  }

  /** The length that a negative or excessive end leaves of a slice from the start. */
  function SliceEnd(stop: int, length: nat): nat {
    if stop < 0 then MaxInt(0, length + stop) else MinInt(stop, length)
  }

  /** Two vectors combine elementwise, a single element being repeated. */
  predicate Broadcasts(a: nat, b: nat) { a == b || a == 1 || b == 1 }

  /** Failures before each day, one entry longer than the calendar. */
  method CountFailures(gate: seq<bool>) returns (failed: seq<nat>)
    ensures |failed| == |gate| + 1 && forall i :: 0 <= i <= |gate| ==> failed[i] == Failures(gate, i)
  {
    failed := [0];
    for t := 0 to |gate|
      invariant |failed| == t + 1
      invariant forall i :: 0 <= i <= t ==> failed[i] == Failures(gate, i)
    {
      failed := failed + [failed[t] + if gate[t] then 0 else 1];
    }
  }

  /** The two slices have one length up to the calendar's; beyond twice of it the second is a single entry or none. */
  lemma SlicesFit(n: nat, lookback: nat)
    ensures var a, b := n + 1 - MinInt(lookback + 1, n + 1), SliceEnd(n - lookback, n + 1);
      Broadcasts(a, b) <==> !(n < lookback < 2 * n)
  {
  }

  /** The shifted difference, written from position `lookback` on. */
  method Differences(gate: seq<bool>, lookback: nat, upper: seq<nat>, lower: seq<nat>) returns (pass: seq<bool>)
    requires lookback < |gate| && |upper| == |lower| == |gate| - lookback
    requires forall i :: 0 <= i < |upper| ==> upper[i] == Failures(gate, i + lookback + 1) && lower[i] == Failures(gate, i)
    ensures |pass| == |gate| && forall t :: 0 <= t < |gate| ==> pass[t] == WindowPasses(gate, lookback, t)
  {
    pass := seq(|gate|, i => false);
    for t := lookback to |gate|
      invariant |pass| == |gate|
      invariant forall i :: 0 <= i < |gate| ==> pass[i] == (i < t && WindowPasses(gate, lookback, i))
    {
      CountIsWindow(gate, t - lookback, t + 1);
      pass := pass[t := upper[t - lookback] - lower[t - lookback] == 0];
    }
  }

  /**
    The prefix-count form of the window check. It cannot be computed when the calendar is shorter than the
    lookback but longer than half of it: the two slices then differ in length.
   */
  method PassWindow(gate: seq<bool>, lookback: nat) returns (r: Option<seq<bool>>)
    ensures r.None? <==> |gate| < lookback < 2 * |gate|
    ensures r.Some? ==> |r.value| == |gate|
    ensures r.Some? ==> forall t :: 0 <= t < |gate| ==> r.value[t] == WindowPasses(gate, lookback, t)
  {
    var n := |gate|;
    var failed := CountFailures(gate);
    var upper := failed[MinInt(lookback + 1, n + 1)..];
    var lower := failed[..SliceEnd(n - lookback, n + 1)];
    SlicesFit(n, lookback);
    if !Broadcasts(|upper|, |lower|) {
      return None;
    }
    if lookback >= n {
      return Some(seq(n, i => false));
    }
    var pass := Differences(gate, lookback, upper, lower);
    r := Some(pass);
  }

  // ---------------------------------------------------------------- activation

  /** Day `day` falls in the activation interval of snapshot `i`. */
  predicate Active(activations: seq<int>, i: nat, day: int)
    requires i < |activations|
  {
    activations[i] <= day < if i + 1 < |activations| then activations[i + 1] else NEVER
  }

  /** The last of the first `m` snapshots whose interval holds the day: later assignments win. */
  function Owner(activations: seq<int>, m: nat, day: int): (o: Option<nat>)
    requires m <= |activations|
    ensures o.Some? ==> o.value < m && Active(activations, o.value, day)
  {
    if m == 0 then None
    else if Active(activations, m - 1, day) then Some(m - 1)
    else Owner(activations, m - 1, day)
  }

  ghost predicate Sorted(s: seq<int>) {
    forall i, j :: 0 <= i < j < |s| ==> s[i] <= s[j]
  }

  lemma {:induction false} OwnerIsLatest(activations: seq<int>, m: nat, day: int)
    requires Sorted(activations) && m <= |activations| && day < NEVER
    requires m < |activations| ==> day < activations[m]
    ensures Owner(activations, m, day).None? <==> forall i :: 0 <= i < m ==> day < activations[i]
    ensures Owner(activations, m, day).Some? ==>
              forall j :: 0 <= j < |activations| ==> (activations[j] <= day <==> j <= Owner(activations, m, day).value)
  {
    if m > 0 && day < activations[m - 1] {
      OwnerIsLatest(activations, m - 1, day);
    }
  }

  /**
    With sorted activations every day before the end of time belongs to the latest activated snapshot, and
    to no other: no day is written twice.
   */
  lemma LatestActivated(activations: seq<int>, day: int)
    requires Sorted(activations) && day < NEVER
    ensures var o := Owner(activations, |activations|, day);
            if o.None? then forall i :: 0 <= i < |activations| ==> day < activations[i]
            else forall j :: 0 <= j < |activations| ==> (activations[j] <= day <==> j <= o.value)
    ensures forall j :: 0 <= j < |activations| && Active(activations, j, day) ==>
              Owner(activations, |activations|, day) == Some(j)
  {
    OwnerIsLatest(activations, |activations|, day);
  }

  // ---------------------------------------------------------------- the build loop

  function Activations(snapshots: seq<Snapshot>): seq<int> {
    seq(|snapshots|, i requires 0 <= i < |snapshots| => snapshots[i].available)
  }

  function Gate(s: Snapshot): seq<bool> {
    seq(|s.coverage|, t requires 0 <= t < |s.coverage| => Passes(s, t))
  }

  /** What row `t` must hold after `m` snapshots: its owner's name and its owner's window verdicts. */
  ghost predicate RowRight(days: seq<int>, snapshots: seq<Snapshot>, m: nat, t: nat, id: string, verdicts: seq<bool>)
    requires m <= |snapshots| && t < |days| && |verdicts| == 3
    requires forall s :: s in snapshots ==> |s.coverage| == |days|
  {
    match Owner(Activations(snapshots), m, days[t])
    case None => id == "" && (forall g :: 0 <= g < 3 ==> !verdicts[g])
    case Some(i) =>
      && id == snapshots[i].asOf
      && forall g :: 0 <= g < 3 ==> verdicts[g] == WindowPasses(Gate(snapshots[i]), Lookback(g), t)
  }

  ghost predicate AnyActive(days: seq<int>, activations: seq<int>, m: nat)
    requires m <= |activations|
  {
    exists i, t :: 0 <= i < m && 0 <= t < |days| && Active(activations, i, days[t])
  }

  function Row(gates: array2<bool>, t: nat): (r: seq<bool>)
    requires t < gates.Length0 && gates.Length1 == 3
    reads gates
    ensures |r| == 3
  {
    [gates[t, 0], gates[t, 1], gates[t, 2]]
  }

  method AnyDayActive(days: seq<int>, activations: seq<int>, i: nat) returns (b: bool)
    requires i < |activations|
    ensures b <==> exists t :: 0 <= t < |days| && Active(activations, i, days[t])
  {
    for t := 0 to |days|
      invariant forall d :: 0 <= d < t ==> !Active(activations, i, days[d])
    {
      if Active(activations, i, days[t]) { return true; }
    }
    b := false;
  }

  /** One column of verdicts, written on the active days only. */
  method WriteColumn(days: seq<int>, activations: seq<int>, i: nat, pass: seq<bool>, g: nat, gates: array2<bool>)
    requires i < |activations| && |pass| == |days| == gates.Length0 && g < gates.Length1
    modifies gates
    ensures forall t, c :: 0 <= t < gates.Length0 && 0 <= c < gates.Length1 ==>
              gates[t, c] == if c == g && Active(activations, i, days[t]) then pass[t] else old(gates[t, c])
  {
    for t := 0 to |days|
      invariant forall d, c :: 0 <= d < gates.Length0 && 0 <= c < gates.Length1 ==>
                  gates[d, c] == if d < t && c == g && Active(activations, i, days[d]) then pass[d] else old(gates[d, c])
    {
      if Active(activations, i, days[t]) {
        gates[t, g] := pass[t];
      }
    }
  }

  method WriteIds(days: seq<int>, activations: seq<int>, i: nat, id: string, ids: array<string>)
    requires i < |activations| && |days| == ids.Length
    modifies ids
    ensures forall t :: 0 <= t < ids.Length ==> ids[t] == if Active(activations, i, days[t]) then id else old(ids[t])
  {
    for t := 0 to |days|
      invariant forall d :: 0 <= d < ids.Length ==>
                  ids[d] == if d < t && Active(activations, i, days[d]) then id else old(ids[d])
    {
      if Active(activations, i, days[t]) {
        ids[t] := id;
      }
    }
  }

  /** One snapshot's pass: its verdicts and its name, on its own days. */
  method Apply(days: seq<int>, activations: seq<int>, i: nat, s: Snapshot, ids: array<string>, gates: array2<bool>)
    returns (ok: bool)
    requires i < |activations| && |s.coverage| == |days| == ids.Length == gates.Length0 && gates.Length1 == 3
    modifies ids, gates
    ensures !ok <==> 35 < |days| < 70
    ensures ok ==> forall t :: 0 <= t < |days| ==> ids[t] == if Active(activations, i, days[t]) then s.asOf else old(ids[t])
    ensures ok ==> forall t, g :: 0 <= t < |days| && 0 <= g < 3 ==>
              gates[t, g] == if Active(activations, i, days[t]) then WindowPasses(Gate(s), Lookback(g), t) else old(gates[t, g])
  {
    var gate := Gate(s);
    for g := 0 to 3
      invariant g == 3 ==> !(35 < |days| < 70)
      invariant forall t :: 0 <= t < |days| ==> ids[t] == old(ids[t])
      invariant forall t, c :: 0 <= t < |days| && 0 <= c < 3 ==>
                  gates[t, c] == if c < g && Active(activations, i, days[t]) then WindowPasses(gate, Lookback(c), t) else old(gates[t, c])
    {
      var pass := PassWindow(gate, Lookback(g));
      if pass.None? { return false; }
      WriteColumn(days, activations, i, pass.value, g, gates);
    }
    WriteIds(days, activations, i, s.asOf, ids);
    ok := true;
  }

  ghost predicate RowsRight(days: seq<int>, snapshots: seq<Snapshot>, m: nat, ids: array<string>, gates: array2<bool>)
    requires ids.Length == gates.Length0 == |days| && gates.Length1 == 3 && m <= |snapshots|
    requires forall s :: s in snapshots ==> |s.coverage| == |days|
    reads ids, gates
  {
    forall t :: 0 <= t < |days| ==> RowRight(days, snapshots, m, t, ids[t], Row(gates, t))
  }

  /** A snapshot that is never active changes nothing, and no day becomes its own. */
  method ApplyActive(days: seq<int>, snapshots: seq<Snapshot>, m: nat, ids: array<string>, gates: array2<bool>) returns (ok: bool)
    requires ids.Length == gates.Length0 == |days| && gates.Length1 == 3 && m < |snapshots|
    requires forall s :: s in snapshots ==> |s.coverage| == |days|
    requires RowsRight(days, snapshots, m, ids, gates)
    modifies ids, gates
    ensures !ok ==> AnyActive(days, Activations(snapshots), |snapshots|) && 35 < |days| < 70
    ensures ok ==> RowsRight(days, snapshots, m + 1, ids, gates)
    ensures ok && (exists t :: 0 <= t < |days| && Active(Activations(snapshots), m, days[t])) ==> !(35 < |days| < 70)
  {
    var activations := Activations(snapshots);
    ok := AnyDayActive(days, activations, m);
    if ok {
      ok := Apply(days, activations, m, snapshots[m], ids, gates);
      if !ok { return; }
    }
    ok := true;
    forall t | 0 <= t < |days| ensures RowRight(days, snapshots, m + 1, t, ids[t], Row(gates, t)) {
      NextRow(days, snapshots, m, t, old(ids[t]), old(Row(gates, t)), ids[t], Row(gates, t));
    }
  }

  /** A row is its owner's before and after one more snapshot has written its own days. */
  lemma NextRow(days: seq<int>, snapshots: seq<Snapshot>, m: nat, t: nat, id0: string, verdicts0: seq<bool>, id: string, verdicts: seq<bool>)
    requires m < |snapshots| && t < |days| && |verdicts0| == |verdicts| == 3 && forall s :: s in snapshots ==> |s.coverage| == |days|
    requires RowRight(days, snapshots, m, t, id0, verdicts0)
    requires if Active(Activations(snapshots), m, days[t]) then
               id == snapshots[m].asOf && forall g :: 0 <= g < 3 ==> verdicts[g] == WindowPasses(Gate(snapshots[m]), Lookback(g), t)
             else id == id0 && verdicts == verdicts0
    ensures RowRight(days, snapshots, m + 1, t, id, verdicts)
  {
  }

  /**
    The snapshot loop. It fails exactly when some snapshot is ever active and the calendar has between 36
    and 69 days; otherwise every row is its owner's.
   */
  method Build(days: seq<int>, snapshots: seq<Snapshot>) returns (ok: bool, ids: array<string>, gates: array2<bool>)
    requires forall s :: s in snapshots ==> |s.coverage| == |days|
    ensures !ok <==> AnyActive(days, Activations(snapshots), |snapshots|) && 35 < |days| < 70
    ensures ids.Length == gates.Length0 == |days| && gates.Length1 == 3
    ensures ok ==> RowsRight(days, snapshots, |snapshots|, ids, gates)
  {
    var activations := Activations(snapshots);
    ids := new string[|days|](i => "");
    gates := new bool[|days|, 3]((i, j) => false);
    for m := 0 to |snapshots|
      invariant fresh(ids) && fresh(gates)
      invariant AnyActive(days, activations, m) ==> !(35 < |days| < 70)
      invariant RowsRight(days, snapshots, m, ids, gates)
    {
      ok := ApplyActive(days, snapshots, m, ids, gates);
      if !ok { return; }
    }
    ok := true;
  }

  // ---------------------------------------------------------------- what a row says, written out

  /** Every sector is at least 95 percent covered by value and 70 percent by name. */
  ghost predicate Covered(s: Snapshot, t: nat)
    requires t < |s.coverage|
  {
    forall c :: c in s.coverage[t] ==> c.Some? && c.value.value >= 0.95 && c.value.name >= 0.70
  }

  /** The last `n` days and day `t` exist and are covered. */
  ghost predicate CoveredBack(s: Snapshot, n: nat, t: nat)
    requires t < |s.coverage|
  {
    n <= t && forall d :: t - n <= d <= t ==> Covered(s, d)
  }

  lemma WindowIsCovered(s: Snapshot, n: nat, t: nat)
    requires t < |s.coverage|
    ensures WindowPasses(Gate(s), n, t) <==> CoveredBack(s, n, t)
  {
    forall d | 0 <= d <= t ensures Gate(s)[d] <==> Covered(s, d) {
      assert Gate(s)[d] == Passes(s, d);
    }
  }

  /**
    With sorted activations, a finished row before the first activation is blank; any other holds the name of
    the latest activated snapshot, and whether that cohort is covered on the day, over two days back and over 70.
   */
  lemma RowIsExplicit(days: seq<int>, snapshots: seq<Snapshot>, t: nat, id: string, verdicts: seq<bool>)
    requires t < |days| && |verdicts| == 3 && forall s :: s in snapshots ==> |s.coverage| == |days|
    requires Sorted(Activations(snapshots)) && days[t] < 99991231
    requires RowRight(days, snapshots, |snapshots|, t, id, verdicts)
    ensures (forall i :: 0 <= i < |snapshots| ==> days[t] < snapshots[i].available) ==> id == "" && verdicts == [false, false, false]
    ensures forall i :: 0 <= i < |snapshots| && snapshots[i].available <= days[t]
                        && (forall j :: i < j < |snapshots| ==> days[t] < snapshots[j].available) ==>
              && id == snapshots[i].asOf
              && verdicts == [CoveredBack(snapshots[i], 0, t), CoveredBack(snapshots[i], 2, t), CoveredBack(snapshots[i], 70, t)]
  {
    var a := Activations(snapshots);
    LatestActivated(a, days[t]);
    var o := Owner(a, |a|, days[t]);
    forall i | 0 <= i < |snapshots| ensures a[i] == snapshots[i].available { }
    if o.Some? {
      var s := snapshots[o.value];
      WindowIsCovered(s, 0, t);
      WindowIsCovered(s, 2, t);
      WindowIsCovered(s, 70, t);
    }
  }
}
