/**
  The probability that `n` independent trades contain `k` losses in a row. A dynamic program over the
  trailing run length is compared with the plain sum over all outcome sequences.
 */
module LossRuns {
  import opened RealArithmetic

  /** Outcomes in order; true is a loss. */
  type Outcome = seq<bool>

  function Extend(os: seq<Outcome>, loss: bool): (r: seq<Outcome>)
    ensures |r| == |os| && forall i :: 0 <= i < |os| ==> r[i] == os[i] + [loss]
  {
    seq(|os|, i requires 0 <= i < |os| => os[i] + [loss])
  }

  /** Every outcome of `n` trades, once each. */
  function Outcomes(n: nat): seq<Outcome> {
    if n == 0 then [[]] else Extend(Outcomes(n - 1), false) + Extend(Outcomes(n - 1), true)
  }

  function Factor(loss: bool, q: real): real { if loss then q else 1.0 - q }

  /** The probability of one outcome when each trade loses with probability `q`. */
  function Weight(o: Outcome, q: real): real {
    if o == [] then 1.0 else Compound(Weight(o[..|o| - 1], q), Factor(o[|o| - 1], q))
  }

  /** The probability of the outcomes in `os` that satisfy `p`. */
  ghost function Mass(os: seq<Outcome>, q: real, p: Outcome -> bool): real {
    if os == [] then 0.0
    else Mass(os[..|os| - 1], q, p) + if p(os[|os| - 1]) then Weight(os[|os| - 1], q) else 0.0
  }

  ghost predicate RunAt(o: Outcome, k: nat, i: nat) {
    i + k <= |o| && forall d :: i <= d < i + k ==> o[d]
  }

  ghost predicate HasRun(o: Outcome, k: nat) {
    exists i: nat :: RunAt(o, k, i)
  }

  ghost function Runs(k: nat): Outcome -> bool { o => HasRun(o, k) }

  /** The definition: the total probability of the outcomes with a run. */
  ghost function RunProbability(n: nat, k: nat, q: real): real {
    Mass(Outcomes(n), q, Runs(k))
  }

  // ---------------------------------------------------------------- the enumeration is complete and has no repeats

  lemma InExtend(os: seq<Outcome>, loss: bool, o: Outcome)
    ensures o in Extend(os, loss) <==> o != [] && o[|o| - 1] == loss && o[..|o| - 1] in os
  {
    var e := Extend(os, loss);
    if o in e {
      var i :| 0 <= i < |e| && e[i] == o;
      assert o[..|o| - 1] == os[i];
    }
    if o != [] && o[|o| - 1] == loss && o[..|o| - 1] in os {
      var i :| 0 <= i < |os| && os[i] == o[..|o| - 1];
      assert o == os[i] + [loss] == e[i];
    }
  }

  lemma {:induction false} OutcomesAreAll(n: nat, o: Outcome)
    ensures o in Outcomes(n) <==> |o| == n
    decreases n
  {
    if n == 0 {
      assert Outcomes(0) == [[]];
    } else {
      ExtendsBothWays(Outcomes(n - 1), o);
      if o != [] {
        OutcomesAreAll(n - 1, o[..|o| - 1]);
      }
    }
  }

  lemma ExtendsBothWays(os: seq<Outcome>, o: Outcome)
    ensures o in Extend(os, false) + Extend(os, true) <==> o != [] && o[..|o| - 1] in os
  {
    InExtend(os, false, o);
    InExtend(os, true, o);
  }

  lemma {:induction false} OutcomesAreDistinct(n: nat)
    ensures forall i, j :: 0 <= i < j < |Outcomes(n)| ==> Outcomes(n)[i] != Outcomes(n)[j]
    decreases n
  {
    if n > 0 {
      OutcomesAreDistinct(n - 1);
      var os := Outcomes(n - 1);
      forall i, j | 0 <= i < j < |Outcomes(n)| ensures Outcomes(n)[i] != Outcomes(n)[j] {
        var a, b := Outcomes(n)[i], Outcomes(n)[j];
        if j < |os| || |os| <= i {
          var x, y := if j < |os| then i else i - |os|, if j < |os| then j else j - |os|;
          assert a[..|a| - 1] == os[x] && b[..|b| - 1] == os[y];
        } else {
          assert a[|a| - 1] != b[|b| - 1];
        }
      }
    }
  }

  // ---------------------------------------------------------------- sums over outcomes

  lemma {:induction false} MassConcat(a: seq<Outcome>, b: seq<Outcome>, q: real, p: Outcome -> bool)
    ensures Mass(a + b, q, p) == Mass(a, q, p) + Mass(b, q, p)
    decreases |b|
  {
    if b == [] {
      assert a + b == a;
    } else {
      assert (a + b)[..|a + b| - 1] == a + b[..|b| - 1];
      MassConcat(a, b[..|b| - 1], q, p);
    }
  }

  lemma {:induction false} MassAgrees(os: seq<Outcome>, q: real, p: Outcome -> bool, r: Outcome -> bool)
    requires forall o :: o in os ==> p(o) == r(o)
    ensures Mass(os, q, p) == Mass(os, q, r)
  {
    if os != [] {
      MassAgrees(os[..|os| - 1], q, p, r);
    }
  }

  lemma {:induction false} MassGrows(os: seq<Outcome>, q: real, p: Outcome -> bool, r: Outcome -> bool)
    requires 0.0 <= q <= 1.0 && forall o :: o in os && p(o) ==> r(o)
    ensures 0.0 <= Mass(os, q, p) <= Mass(os, q, r)
  {
    if os != [] {
      MassGrows(os[..|os| - 1], q, p, r);
      WeightNonnegative(os[|os| - 1], q);
    }
  }

  lemma {:induction false} WeightNonnegative(o: Outcome, q: real)
    requires 0.0 <= q <= 1.0
    ensures Weight(o, q) >= 0.0
  {
    if o != [] {
      WeightNonnegative(o[..|o| - 1], q);
      CompoundNonnegative(Weight(o[..|o| - 1], q), Factor(o[|o| - 1], q));
    }
  }

  ghost function Next(p: Outcome -> bool, loss: bool): Outcome -> bool { o => p(o + [loss]) }

  lemma Distribute(a: real, b: real, f: real)
    ensures Compound(a, f) + Compound(b, f) == Compound(a + b, f)
  {
  }

  /** One more trade multiplies every outcome's weight by that trade's factor. */
  lemma {:induction false} MassExtend(os: seq<Outcome>, q: real, p: Outcome -> bool, loss: bool)
    ensures Mass(Extend(os, loss), q, p) == Compound(Mass(os, q, Next(p, loss)), Factor(loss, q))
  {
    if os != [] {
      var rest, o := os[..|os| - 1], os[|os| - 1];
      MassExtend(rest, q, p, loss);
      assert Extend(os, loss)[..|os| - 1] == Extend(rest, loss);
      assert (o + [loss])[..|o|] == o;
      Distribute(Mass(rest, q, Next(p, loss)), Weight(o, q), Factor(loss, q));
    }
  }

  lemma MassNext(n: nat, q: real, p: Outcome -> bool)
    ensures Mass(Outcomes(n + 1), q, p)
         == Compound(Mass(Outcomes(n), q, Next(p, false)), 1.0 - q) + Compound(Mass(Outcomes(n), q, Next(p, true)), q)
  {
    MassConcat(Extend(Outcomes(n), false), Extend(Outcomes(n), true), q, p);
    MassExtend(Outcomes(n), q, p, false);
    MassExtend(Outcomes(n), q, p, true);
  }

  ghost function Always(): Outcome -> bool { o => true }

  lemma AlwaysNext(os: seq<Outcome>, q: real, loss: bool)
    ensures Mass(os, q, Next(Always(), loss)) == Mass(os, q, Always())
  {
    MassAgrees(os, q, Next(Always(), loss), Always());
  }

  lemma EitherWay(q: real)
    ensures Compound(1.0, 1.0 - q) + Compound(1.0, q) == 1.0
  {
  }

  lemma TotalMassStep(n: nat, q: real)
    requires n > 0 && Mass(Outcomes(n - 1), q, Always()) == 1.0
    ensures Mass(Outcomes(n), q, Always()) == 1.0
  {
    TotalMassNext(n - 1, q);
  }

  lemma TotalMassNext(n: nat, q: real)
    requires Mass(Outcomes(n), q, Always()) == 1.0
    ensures Mass(Outcomes(n + 1), q, Always()) == 1.0
  {
    AlwaysNext(Outcomes(n), q, false);
    AlwaysNext(Outcomes(n), q, true);
    MassNext(n, q, Always());
    EitherWay(q);
  }

  lemma TotalMassStart(q: real)
    ensures Mass(Outcomes(0), q, Always()) == 1.0
  {
    assert Outcomes(0)[..0] == [];
  }

  lemma {:induction false} TotalMass(n: nat, q: real)
    ensures Mass(Outcomes(n), q, Always()) == 1.0
    decreases n
  {
    if n == 0 {
      TotalMassStart(q);
    } else {
      TotalMass(n - 1, q);
      TotalMassStep(n, q);
    }
  }

  // ---------------------------------------------------------------- survivors by trailing run

  function Trailing(o: Outcome): nat {
    if o == [] || !o[|o| - 1] then 0 else 1 + Trailing(o[..|o| - 1])
  }

  lemma {:induction false} TrailingIsRun(o: Outcome)
    ensures Trailing(o) <= |o| && RunAt(o, Trailing(o), |o| - Trailing(o))
    ensures Trailing(o) < |o| ==> !o[|o| - Trailing(o) - 1]
  {
    if o != [] && o[|o| - 1] {
      TrailingIsRun(o[..|o| - 1]);
    }
  }

  lemma {:induction false} EndingRunIsTrailing(o: Outcome, m: nat)
    requires m <= |o| && RunAt(o, m, |o| - m)
    ensures m <= Trailing(o)
  {
    if m > 0 {
      assert RunAt(o[..|o| - 1], m - 1, |o| - m);
      EndingRunIsTrailing(o[..|o| - 1], m - 1);
    }
  }

  /** A new run can only end at the last trade. */
  lemma HasRunNext(o: Outcome, loss: bool, k: nat)
    requires k > 0
    ensures HasRun(o + [loss], k) <==> HasRun(o, k) || (loss && Trailing(o) + 1 >= k)
  {
    var e := o + [loss];
    assert forall d :: 0 <= d < |o| ==> e[d] == o[d];
    TrailingIsRun(o);
    if HasRun(o, k) {
      var i: nat :| RunAt(o, k, i);
      assert RunAt(e, k, i);
    }
    if loss && Trailing(o) + 1 >= k {
      assert RunAt(e, k, |e| - k);
    }
    if HasRun(e, k) && !HasRun(o, k) {
      var i: nat :| RunAt(e, k, i);
      assert i + k <= |o| ==> RunAt(o, k, i);
      assert i + k == |e| && e[|o|];
      assert RunAt(o, k - 1, i);
      EndingRunIsTrailing(o, k - 1);
    }
  }

  /** No run yet, and exactly `j` losses at the end. */
  ghost function Slot(k: nat, j: nat): Outcome -> bool { o => !HasRun(o, k) && Trailing(o) == j }

  ghost function Survivors(k: nat): Outcome -> bool { o => !HasRun(o, k) }

  lemma TrailingNext(o: Outcome, loss: bool)
    ensures Trailing(o + [loss]) == if loss then Trailing(o) + 1 else 0
  {
    assert (o + [loss])[..|o|] == o;
  }

  /** A win empties every slot into slot 0. */
  lemma SlotZeroNext(n: nat, k: nat, q: real)
    requires k > 0
    ensures Mass(Outcomes(n + 1), q, Slot(k, 0)) == Compound(Mass(Outcomes(n), q, Survivors(k)), 1.0 - q)
  {
    MassNext(n, q, Slot(k, 0));
    forall o ensures Next(Slot(k, 0), false)(o) == Survivors(k)(o) && Next(Slot(k, 0), true)(o) == Never()(o) {
      HasRunNext(o, false, k);
      TrailingNext(o, false);
      TrailingNext(o, true);
    }
    MassAgrees(Outcomes(n), q, Next(Slot(k, 0), false), Survivors(k));
    MassAgrees(Outcomes(n), q, Next(Slot(k, 0), true), Never());
    NoMass(Outcomes(n), q);
  }

  /** A loss moves slot `j - 1` to slot `j`. */
  lemma SlotNext(n: nat, k: nat, j: nat, q: real)
    requires 0 < j < k
    ensures Mass(Outcomes(n + 1), q, Slot(k, j)) == Compound(Mass(Outcomes(n), q, Slot(k, j - 1)), q)
  {
    MassNext(n, q, Slot(k, j));
    forall o ensures Next(Slot(k, j), true)(o) == Slot(k, j - 1)(o) && Next(Slot(k, j), false)(o) == Never()(o) {
      HasRunNext(o, true, k);
      TrailingNext(o, true);
      TrailingNext(o, false);
    }
    MassAgrees(Outcomes(n), q, Next(Slot(k, j), true), Slot(k, j - 1));
    MassAgrees(Outcomes(n), q, Next(Slot(k, j), false), Never());
    NoMass(Outcomes(n), q);
  }

  ghost function Never(): Outcome -> bool { o => false }

  lemma {:induction false} NoMass(os: seq<Outcome>, q: real)
    ensures Mass(os, q, Never()) == 0.0
  {
    if os != [] { NoMass(os[..|os| - 1], q); }
  }

  // ---------------------------------------------------------------- the dynamic program

  function Sum(a: seq<real>): real {
    if a == [] then 0.0 else Sum(a[..|a| - 1]) + a[|a| - 1]
  }

  method SumOf(a: array<real>) returns (s: real)
    ensures s == Sum(a[..])
  {
    s := 0.0;
    for i := 0 to a.Length
      invariant s == Sum(a[..i])
    {
      assert a[..i + 1][..i] == a[..i];
      s := s + a[i];
    }
    assert a[..a.Length] == a[..];
  }

  ghost function UpTo(k: nat, m: nat): Outcome -> bool { o => !HasRun(o, k) && Trailing(o) < m }

  /** The first `m` slots add up to the survivors whose trailing run is shorter than `m`. */
  lemma {:induction false} SlotsAddUp(a: seq<real>, os: seq<Outcome>, k: nat, q: real)
    requires forall j :: 0 <= j < |a| ==> a[j] == Mass(os, q, Slot(k, j))
    ensures Sum(a) == Mass(os, q, UpTo(k, |a|))
    decreases |a|
  {
    if a == [] {
      MassAgrees(os, q, UpTo(k, 0), Never());
      NoMass(os, q);
    } else {
      SlotsAddUp(a[..|a| - 1], os, k, q);
      MassSplits(os, q, UpTo(k, |a| - 1), Slot(k, |a| - 1), UpTo(k, |a|));
    }
  }

  lemma {:induction false} MassSplits(os: seq<Outcome>, q: real, p: Outcome -> bool, r: Outcome -> bool, both: Outcome -> bool)
    requires forall o :: both(o) == (p(o) || r(o)) && !(p(o) && r(o))
    ensures Mass(os, q, both) == Mass(os, q, p) + Mass(os, q, r)
  {
    if os != [] { MassSplits(os[..|os| - 1], q, p, r, both); }
  }

  /** Every survivor's trailing run is shorter than `k`. */
  lemma SurvivorsEndShort(os: seq<Outcome>, k: nat, q: real)
    requires k > 0
    ensures Mass(os, q, UpTo(k, k)) == Mass(os, q, Survivors(k))
  {
    forall o ensures UpTo(k, k)(o) == Survivors(k)(o) {
      TrailingIsRun(o);
      if Trailing(o) >= k { assert RunAt(o, k, |o| - Trailing(o)); }
    }
    MassAgrees(os, q, UpTo(k, k), Survivors(k));
  }

  lemma StartMass(q: real, p: Outcome -> bool)
    ensures Mass(Outcomes(0), q, p) == if p([]) then 1.0 else 0.0
  {
    var os := Outcomes(0);
    assert os == [[]] && os[..0] == [];
    assert Weight([], q) == 1.0;
  }

  lemma StartSlots(k: nat, j: nat, q: real)
    requires j < k
    ensures Mass(Outcomes(0), q, Slot(k, j)) == if j == 0 then 1.0 else 0.0
  {
    StartMass(q, Slot(k, j));
    assert !HasRun([], k);
  }

  /** Slot `j` holds the probability of no run yet and `j` losses at the end. */
  ghost predicate SlotsAre(a: seq<real>, n: nat, k: nat, q: real) {
    |a| == k && forall j :: 0 <= j < k ==> a[j] == Mass(Outcomes(n), q, Slot(k, j))
  }

  /** The recurrence on the slots. */
  ghost predicate Advances(a: seq<real>, b: seq<real>, q: real) {
    |a| == |b| > 0 && b[0] == Compound(Sum(a), 1.0 - q) && forall j :: 0 < j < |b| ==> b[j] == Compound(a[j - 1], q)
  }

  lemma FirstSlotStep(a: seq<real>, b: seq<real>, n: nat, k: nat, q: real)
    requires k > 0 && SlotsAre(a, n, k, q) && Advances(a, b, q)
    ensures b[0] == Mass(Outcomes(n + 1), q, Slot(k, 0))
  {
    SlotsAddUp(a, Outcomes(n), k, q);
    SurvivorsEndShort(Outcomes(n), k, q);
    SlotZeroNext(n, k, q);
  }

  lemma SlotsStep(a: seq<real>, b: seq<real>, n: nat, k: nat, q: real)
    requires k > 0 && SlotsAre(a, n, k, q) && Advances(a, b, q)
    ensures SlotsAre(b, n + 1, k, q)
  {
    forall j | 0 <= j < k ensures b[j] == Mass(Outcomes(n + 1), q, Slot(k, j)) {
      if j == 0 { FirstSlotStep(a, b, n, k, q); } else { SlotNext(n, k, j, q); }
    }
  }

  lemma SlotsStart(a: seq<real>, k: nat, q: real)
    requires k > 0 && |a| == k && a[0] == 1.0 && forall j :: 0 < j < k ==> a[j] == 0.0
    ensures SlotsAre(a, 0, k, q)
  {
    forall j | 0 <= j < k ensures a[j] == Mass(Outcomes(0), q, Slot(k, j)) {
      StartSlots(k, j, q);
    }
  }

  /** The slots that are left are all the outcomes without a run. */
  lemma SlotsLeaveRuns(a: seq<real>, n: nat, k: nat, q: real)
    requires k > 0 && SlotsAre(a, n, k, q)
    ensures 1.0 - Sum(a) == RunProbability(n, k, q)
  {
    SlotsAddUp(a, Outcomes(n), k, q);
    SurvivorsEndShort(Outcomes(n), k, q);
    MassSplits(Outcomes(n), q, Survivors(k), Runs(k), Always());
    TotalMass(n, q);
  }

  /** One trade of the program, from the old array into a fresh one. */
  method Advance(alive: array<real>, q: real) returns (nxt: array<real>)
    requires alive.Length > 0
    ensures fresh(nxt) && Advances(alive[..], nxt[..], q)
  {
    nxt := new real[alive.Length];
    var total := SumOf(alive);
    nxt[0] := total * (1.0 - q);
    assert nxt[0] == Compound(total, 1.0 - q);
    for j := 1 to alive.Length
      invariant nxt[0] == Compound(total, 1.0 - q)
      invariant forall i :: 0 < i < j ==> nxt[i] == Compound(alive[i - 1], q)
    {
      nxt[j] := alive[j - 1] * q;
    }
  }

  /** The program returns the probability of a run, summed over all outcomes. */
  method NullRunProbability(n: nat, k: nat, q: real) returns (p: real)
    requires k > 0
    ensures p == RunProbability(n, k, q)
  {
    var alive := new real[k](_ => 0.0);
    alive[0] := 1.0;
    SlotsStart(alive[..], k, q);
    for i := 0 to n
      invariant alive.Length == k && SlotsAre(alive[..], i, k, q)
    {
      var nxt := Advance(alive, q);
      SlotsStep(alive[..], nxt[..], i, k, q);
      alive := nxt;
    }
    var total := SumOf(alive);
    SlotsLeaveRuns(alive[..], n, k, q);
    p := 1.0 - total;
  }

  // ---------------------------------------------------------------- what the probability does

  lemma LongerRunsAreRarer(n: nat, k: nat, q: real)
    requires 0.0 <= q <= 1.0
    ensures RunProbability(n, k + 1, q) <= RunProbability(n, k, q)
  {
    forall o | HasRun(o, k + 1) ensures HasRun(o, k) {
      var i: nat :| RunAt(o, k + 1, i);
      assert RunAt(o, k, i);
    }
    MassGrows(Outcomes(n), q, Runs(k + 1), Runs(k));
    assert RunProbability(n, k + 1, q) == Mass(Outcomes(n), q, Runs(k + 1));
    assert RunProbability(n, k, q) == Mass(Outcomes(n), q, Runs(k));
  }

  lemma Parts(m: real, q: real)
    ensures Compound(m, 1.0 - q) + Compound(m, q) == m
  {
  }

  lemma Scaled(m: real, a: real, c: real)
    requires m <= a && c >= 0.0
    ensures Compound(m, c) <= Compound(a, c)
  {
    ProductMonotone(m, a, c);
  }

  lemma MixtureGrows(m: real, a: real, b: real, q: real)
    requires 0.0 <= q <= 1.0 && m <= a && m <= b
    ensures m <= Compound(a, 1.0 - q) + Compound(b, q)
  {
    Scaled(m, a, 1.0 - q);
    Scaled(m, b, q);
    Parts(m, q);
  }

  lemma MoreTradesMoreRuns(n: nat, k: nat, q: real)
    requires 0.0 <= q <= 1.0
    ensures RunProbability(n, k, q) <= RunProbability(n + 1, k, q)
  {
    MassNext(n, q, Runs(k));
    forall o, loss | HasRun(o, k) ensures HasRun(o + [loss], k) {
      var i: nat :| RunAt(o, k, i);
      assert RunAt(o + [loss], k, i);
    }
    MassGrows(Outcomes(n), q, Runs(k), Next(Runs(k), false));
    MassGrows(Outcomes(n), q, Runs(k), Next(Runs(k), true));
    MixtureGrows(RunProbability(n, k, q), Mass(Outcomes(n), q, Next(Runs(k), false)), Mass(Outcomes(n), q, Next(Runs(k), true)), q);
  }

  /** It is a probability, it never falls with more trades and never rises with a longer run. */
  lemma ProbabilityIsMonotone(n: nat, k: nat, q: real)
    requires 0.0 <= q <= 1.0
    ensures 0.0 <= RunProbability(n, k, q) <= 1.0
    ensures RunProbability(n, k + 1, q) <= RunProbability(n, k, q) <= RunProbability(n + 1, k, q)
  {
    MassGrows(Outcomes(n), q, Runs(k), Always());
    TotalMass(n, q);
    LongerRunsAreRarer(n, k, q);
    MoreTradesMoreRuns(n, k, q);
  }

  function Power(q: real, n: nat): real {
    if n == 0 then 1.0 else Compound(Power(q, n - 1), q)
  }

  ghost function AllLosses(): Outcome -> bool { o => forall i :: 0 <= i < |o| ==> o[i] }

  lemma AllLossesNext(o: Outcome)
    ensures AllLosses()(o + [true]) == AllLosses()(o) && !AllLosses()(o + [false])
  {
    assert forall i :: 0 <= i < |o| ==> (o + [true])[i] == o[i];
    assert !(o + [false])[|o|];
  }

  lemma AllLossesStep(n: nat, q: real)
    ensures Mass(Outcomes(n + 1), q, AllLosses()) == Compound(Mass(Outcomes(n), q, AllLosses()), q)
  {
    var os := Outcomes(n);
    MassNext(n, q, AllLosses());
    forall o ensures Next(AllLosses(), true)(o) == AllLosses()(o) && Next(AllLosses(), false)(o) == Never()(o) {
      AllLossesNext(o);
    }
    MassAgrees(os, q, Next(AllLosses(), true), AllLosses());
    MassAgrees(os, q, Next(AllLosses(), false), Never());
    NoMass(os, q);
    CompoundUnits(1.0 - q);
  }

  lemma PowerStep(q: real, n: nat, m: real)
    requires m == Power(q, n)
    ensures Compound(m, q) == Power(q, n + 1)
  {
  }

  lemma {:induction false} AllLossesMass(n: nat, q: real)
    ensures Mass(Outcomes(n), q, AllLosses()) == Power(q, n)
    decreases n
  {
    if n == 0 {
      StartMass(q, AllLosses());
    } else {
      var i := n - 1;
      AllLossesMass(i, q);
      AllLossesStep(i, q);
      PowerStep(q, i, Mass(Outcomes(i), q, AllLosses()));
      assert i + 1 == n;
    }
  }

  /** Too few trades never hold a run; exactly `k` trades hold one with probability q to the k. */
  lemma ProbabilityAtTheEdge(n: nat, k: nat, q: real)
    ensures n < k ==> RunProbability(n, k, q) == 0.0
    ensures RunProbability(k, k, q) == Power(q, k)
  {
    if n < k {
      forall o | o in Outcomes(n) ensures Runs(k)(o) == Never()(o) {
        OutcomesAreAll(n, o);
      }
      MassAgrees(Outcomes(n), q, Runs(k), Never());
      NoMass(Outcomes(n), q);
    }
    forall o | o in Outcomes(k) ensures Runs(k)(o) == AllLosses()(o) {
      OutcomesAreAll(k, o);
      if AllLosses()(o) { assert RunAt(o, k, 0); }
    }
    MassAgrees(Outcomes(k), q, Runs(k), AllLosses());
    AllLossesMass(k, q);
  }
}
