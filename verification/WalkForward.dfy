/**
  The yearly walk-forward replay: rows of weights are adopted at month ends, at a change of the
  selected rule, when the gap to the adopted row is too wide, or when a held name is flagged to exit.
 */
module WalkForward {
  import opened Common
  import opened RealArithmetic

  /** One session as the loop sees it; `active` once the next session is on or after the start. */
  datatype Session = Session(active: bool, choice: string, row: seq<real>, exits: seq<bool>, monthEnd: bool)

  /** Applications whose lifecycle rules may force an exit. */
  datatype Application = Selection | Trading | Tilt

  const EVENT := "__event"
  const WIDE := 0.100000000001

  predicate EventRule(choice: string) {
    |choice| >= |EVENT| && choice[|choice| - |EVENT|..] == EVENT
  }

  predicate LifecycleRule(choice: string) {
    |choice| > 0 && choice[0] == 'L'
  }

  function Sum(a: seq<real>): real {
    if a == [] then 0.0 else Sum(a[..|a| - 1]) + a[|a| - 1]
  }

  function Moves(a: seq<real>, b: seq<real>): real
    requires |a| == |b|
  {
    if a == [] then 0.0 else Moves(a[..|a| - 1], b[..|b| - 1]) + AbsReal(a[|a| - 1] - b[|b| - 1])
  }

  /** Risky movement plus the change in total weight, which is the movement of uninvested cash. */
  function Gap(a: seq<real>, b: seq<real>): real
    requires |a| == |b|
  {
    Moves(a, b) + AbsReal(Sum(a) - Sum(b))
  }

  /** A held name of the anchor is flagged; the last column is never compared. */
  predicate Flagged(exits: seq<bool>, anchor: seq<real>)
    requires |anchor| == |exits| + 1
  {
    exists i :: 0 <= i < |exits| && exits[i] && anchor[i] > 0.0
  }

  datatype Walk = Walk(app: Application, sessions: seq<Session>, width: nat)
  {
    ghost predicate Valid() {
      forall t :: 0 <= t < |sessions| ==> |sessions[t].row| == width + 1 && |sessions[t].exits| == width
    }

    ghost predicate RiskExit(t: nat, anchor: seq<real>)
      requires t < |sessions| && Valid() && |anchor| == width + 1
    {
      LifecycleRule(sessions[t].choice) && app != Selection && Flagged(sessions[t].exits, anchor)
    }

    /** The last active session before `t`. */
    function Previous(t: nat): (p: Option<nat>)
      requires t <= |sessions|
      ensures p.Some? ==> p.value < t
    {
      if t == 0 then None else if sessions[t - 1].active then Some(t - 1) else Previous(t - 1)
    }

    /** The session whose row is the anchor before session `t`. */
    ghost function AnchorAt(t: nat): (j: Option<nat>)
      requires t <= |sessions| && Valid()
      ensures j.Some? ==> j.value < t
      decreases t
    {
      if t == 0 then None else if AdoptsAfter(t - 1, AnchorAt(t - 1)) then Some(t - 1) else AnchorAt(t - 1)
    }

    ghost predicate AdoptsAfter(t: nat, j: Option<nat>)
      requires t < |sessions| && Valid() && (j.Some? ==> j.value < t)
    {
      && sessions[t].active
      && (j.None? || sessions[t].monthEnd || ChoiceChanged(t)
          || (EventRule(sessions[t].choice)
              && (Gap(sessions[t].row, sessions[j.value].row) > WIDE || RiskExit(t, sessions[j.value].row))))
    }

    predicate ChoiceChanged(t: nat)
      requires t < |sessions|
    {
      Previous(t).None? || sessions[Previous(t).value].choice != sessions[t].choice
    }

    ghost predicate Adopts(t: nat)
      requires t < |sessions| && Valid()
    {
      AdoptsAfter(t, AnchorAt(t))
    }

    ghost function Indices(t: nat): seq<nat>
      requires t <= |sessions| && Valid()
    {
      if t == 0 then [] else Indices(t - 1) + if Adopts(t - 1) then [t - 1] else []
    }
  }

  ghost function AnchorRow(k: Walk, t: nat): Option<seq<real>>
    requires k.Valid() && t <= |k.sessions|
  {
    if k.AnchorAt(t).None? then None else Some(k.sessions[k.AnchorAt(t).value].row)
  }

  ghost function PreviousChoice(k: Walk, t: nat): Option<string>
    requires t <= |k.sessions|
  {
    if k.Previous(t).None? then None else Some(k.sessions[k.Previous(t).value].choice)
  }

  /** An active session's question: does its row replace the anchor? */
  method Weigh(k: Walk, t: nat, anchor: Option<seq<real>>, previousChoice: Option<string>) returns (adopts: bool)
    requires k.Valid() && t < |k.sessions| && k.sessions[t].active
    requires anchor == AnchorRow(k, t) && previousChoice == PreviousChoice(k, t)
    ensures adopts == k.Adopts(t)
  {
    var s := k.sessions[t];
    var wide := anchor.None? || Gap(s.row, anchor.value) > WIDE;
    var riskExit := false;
    if LifecycleRule(s.choice) && k.app != Selection && anchor.Some? {
      riskExit := Flagged(s.exits, anchor.value);
    }
    adopts := anchor.None? || s.monthEnd || previousChoice != Some(s.choice) || (EventRule(s.choice) && (wide || riskExit));
  }

  /** The adoption loop: the weight matrix handed to the replay, and the adopted sessions. */
  method Replay(k: Walk) returns (w: seq<seq<real>>, indices: seq<nat>)
    requires k.Valid()
    ensures indices == k.Indices(|k.sessions|)
    ensures |w| == |k.sessions|
    ensures forall t :: 0 <= t < |w| ==> w[t] == if k.sessions[t].active then k.sessions[t].row else seq(k.width + 1, _ => 0.0)
  {
    w := seq(|k.sessions|, _ => seq(k.width + 1, _ => 0.0));
    indices := [];
    var anchor: Option<seq<real>>, previousChoice: Option<string> := None, None;
    var t := 0;
    while t < |k.sessions|
      invariant 0 <= t <= |k.sessions| && |w| == |k.sessions|
      invariant indices == k.Indices(t)
      invariant anchor == AnchorRow(k, t) && previousChoice == PreviousChoice(k, t)
      invariant forall d :: 0 <= d < t ==> w[d] == if k.sessions[d].active then k.sessions[d].row else seq(k.width + 1, _ => 0.0)
      invariant forall d :: t <= d < |w| ==> w[d] == seq(k.width + 1, _ => 0.0)
    {
      var s := k.sessions[t];
      if s.active {
        w := w[t := s.row];
        var adopts := Weigh(k, t, anchor, previousChoice);
        if adopts {
          indices := indices + [t];
          anchor := Some(s.row);
        }
        previousChoice := Some(s.choice);
      }
      t := t + 1;
    }
  }

  // ---------------------------------------------------------------- what a skipped session means

  lemma {:induction false} AnchorIsLastAdopted(k: Walk, t: nat)
    requires k.Valid() && t <= |k.sessions|
    ensures match k.AnchorAt(t)
      case None => forall d :: 0 <= d < t ==> !k.Adopts(d)
      case Some(j) => k.Adopts(j) && forall d :: j < d < t ==> !k.Adopts(d)
    decreases t
  {
    if t > 0 {
      AnchorIsLastAdopted(k, t - 1);
    }
  }

  lemma {:induction false} PreviousIsLastActive(k: Walk, t: nat)
    requires t <= |k.sessions|
    ensures match k.Previous(t)
      case None => forall d :: 0 <= d < t ==> !k.sessions[d].active
      case Some(p) => p < t && k.sessions[p].active && forall d :: p < d < t ==> !k.sessions[d].active
    decreases t
  {
    if t > 0 {
      PreviousIsLastActive(k, t - 1);
    }
  }

  /**
    An active session is skipped only inside a month and an unchanged choice; and under an event rule
    only while its row is near the last adopted row and no name held there is flagged by its own rule.
   */
  lemma SkippedSessionsAreSafe(k: Walk, t: nat) returns (j: nat, p: nat)
    requires k.Valid() && t < |k.sessions| && k.sessions[t].active && !k.Adopts(t)
    ensures j < t && k.Adopts(j) && forall d :: j < d < t ==> !k.Adopts(d)
    ensures p < t && k.sessions[p].active && k.sessions[p].choice == k.sessions[t].choice
    ensures forall d :: p < d < t ==> !k.sessions[d].active
    ensures !k.sessions[t].monthEnd
    ensures EventRule(k.sessions[t].choice) ==> Gap(k.sessions[t].row, k.sessions[j].row) <= WIDE
    ensures EventRule(k.sessions[t].choice) && LifecycleRule(k.sessions[t].choice) && k.app != Selection ==>
      forall i :: 0 <= i < k.width && k.sessions[t].exits[i] ==> k.sessions[j].row[i] <= 0.0
  {
    AnchorIsLastAdopted(k, t);
    PreviousIsLastActive(k, t);
    j, p := k.AnchorAt(t).value, k.Previous(t).value;
  }

  // ---------------------------------------------------------------- exactly which sessions are adopted

  ghost predicate Adopted(k: Walk, t: nat)
    requires k.Valid()
  {
    t in k.Indices(|k.sessions|)
  }

  lemma {:induction false} AdoptedIs(k: Walk, t: nat, n: nat)
    requires k.Valid() && n <= |k.sessions|
    ensures t in k.Indices(n) <==> t < n && k.Adopts(t)
    decreases n
  {
    if n > 0 { AdoptedIs(k, t, n - 1); }
  }

  ghost predicate LastActive(k: Walk, p: nat, t: nat)
    requires t <= |k.sessions|
  {
    p < t && k.sessions[p].active && forall d :: p < d < t ==> !k.sessions[d].active
  }

  ghost predicate LastAdopted(k: Walk, j: nat, t: nat)
    requires k.Valid() && t <= |k.sessions|
  {
    j < t && Adopted(k, j) && forall d :: j < d < t ==> !Adopted(k, d)
  }

  predicate EndsInEvent(choice: string) {
    |choice| >= 7 && choice[|choice| - 7..] == "__event"
  }

  /** The row has moved by more than a tenth since adoption `j`, or a name held there is flagged under an L rule. */
  ghost predicate Unsafe(k: Walk, t: nat, j: nat)
    requires k.Valid() && t < |k.sessions| && j < |k.sessions|
  {
    var s, held := k.sessions[t], k.sessions[j].row;
    || Gap(s.row, held) > 0.100000000001
    || (s.choice != "" && s.choice[0] == 'L' && (k.app == Trading || k.app == Tilt)
        && exists i :: 0 <= i < k.width && s.exits[i] && held[i] > 0.0)
  }

  /** A reason to adopt that does not look at weights. */
  ghost predicate Scheduled(k: Walk, t: nat)
    requires k.Valid() && t < |k.sessions|
  {
    || (forall d :: 0 <= d < t ==> !Adopted(k, d))
    || k.sessions[t].monthEnd
    || ChangesChoice(k, t)
  }

  ghost predicate ChangesChoice(k: Walk, t: nat)
    requires t < |k.sessions|
  {
    forall p: nat :: LastActive(k, p, t) ==> k.sessions[p].choice != k.sessions[t].choice
  }

  lemma WeighedExactly(k: Walk, t: nat, j: nat)
    requires k.Valid() && t < |k.sessions| && j < |k.sessions|
    ensures EventRule(k.sessions[t].choice) <==> EndsInEvent(k.sessions[t].choice)
    ensures Gap(k.sessions[t].row, k.sessions[j].row) > WIDE || k.RiskExit(t, k.sessions[j].row) <==> Unsafe(k, t, j)
  {
    assert |EVENT| == 7;
  }

  lemma {:induction false} AnchorIsLastIndex(k: Walk, t: nat)
    requires k.Valid() && t <= |k.sessions|
    ensures if k.AnchorAt(t).None? then k.Indices(t) == []
            else k.Indices(t) != [] && k.Indices(t)[|k.Indices(t)| - 1] == k.AnchorAt(t).value
    ensures forall i, j :: 0 <= i < j < |k.Indices(t)| ==> k.Indices(t)[i] < k.Indices(t)[j]
    ensures forall i :: 0 <= i < |k.Indices(t)| ==> k.Indices(t)[i] < t
    decreases t
  {
    if t > 0 { AnchorIsLastIndex(k, t - 1); }
  }

  lemma EarlierIndices(k: Walk, d: nat, t: nat)
    requires k.Valid() && d < t <= |k.sessions|
    ensures Adopted(k, d) <==> d in k.Indices(t)
  {
    AdoptedIs(k, d, t);
    AdoptedIs(k, d, |k.sessions|);
  }

  lemma LastOfSorted(s: seq<nat>, d: nat)
    requires s != [] && d in s && forall i, j :: 0 <= i < j < |s| ==> s[i] < s[j]
    ensures d <= s[|s| - 1]
  {
    var i :| 0 <= i < |s| && s[i] == d;
  }

  lemma AnchorsAre(k: Walk, t: nat)
    requires k.Valid() && t < |k.sessions|
    ensures k.AnchorAt(t).None? ==> forall d :: 0 <= d < t ==> !Adopted(k, d)
    ensures k.AnchorAt(t).Some? ==> LastAdopted(k, k.AnchorAt(t).value, t)
  {
    AnchorIsLastIndex(k, t);
    forall d | 0 <= d < t ensures Adopted(k, d) <==> d in k.Indices(t) { EarlierIndices(k, d, t); }
    if k.AnchorAt(t).Some? {
      var j := k.AnchorAt(t).value;
      assert j in k.Indices(t);
      forall d | j < d < t ensures d !in k.Indices(t) {
        if d in k.Indices(t) { LastOfSorted(k.Indices(t), d); }
      }
    }
  }

  lemma LastAdoptedIsUnique(k: Walk, i: nat, j: nat, t: nat)
    requires k.Valid() && t <= |k.sessions| && LastAdopted(k, i, t) && LastAdopted(k, j, t)
    ensures i == j
  {
  }

  lemma ChoicesAre(k: Walk, t: nat)
    requires t < |k.sessions|
    ensures k.ChoiceChanged(t) <==> ChangesChoice(k, t)
  {
    PreviousIsLastActive(k, t);
    if k.Previous(t).Some? {
      assert LastActive(k, k.Previous(t).value, t);
    } else {
      forall p: nat ensures !LastActive(k, p, t) { }
    }
  }

  /**
    A session is adopted exactly when it is active and nothing was adopted before, the month ends, its choice is
    not that of the last active session, or its choice ends in `__event` and the last adopted row is unsafe by now.
   */
  lemma AdoptedExactly(k: Walk, t: nat)
    requires k.Valid() && t < |k.sessions|
    ensures Adopted(k, t) <==>
      && k.sessions[t].active
      && (Scheduled(k, t) || (EndsInEvent(k.sessions[t].choice) && exists j: nat :: LastAdopted(k, j, t) && Unsafe(k, t, j)))
  {
    AdoptedIs(k, t, |k.sessions|);
    AnchorsAre(k, t);
    ChoicesAre(k, t);
    if k.AnchorAt(t).Some? {
      var a := k.AnchorAt(t).value;
      WeighedExactly(k, t, a);
      forall j: nat | LastAdopted(k, j, t) ensures j == a { LastAdoptedIsUnique(k, j, a, t); }
    }
  }

  /** Under any other choice only the schedule adopts, however far the row has moved. */
  lemma OtherChoicesFollowTheSchedule(k: Walk, t: nat)
    requires k.Valid() && t < |k.sessions| && !EndsInEvent(k.sessions[t].choice)
    ensures Adopted(k, t) <==> k.sessions[t].active && Scheduled(k, t)
  {
    AdoptedExactly(k, t);
  }

  // ---------------------------------------------------------------- the gap is a distance with cash

  lemma {:induction false} MovesTriangle(a: seq<real>, b: seq<real>, c: seq<real>)
    requires |a| == |b| == |c|
    ensures Moves(a, c) <= Moves(a, b) + Moves(b, c) && Moves(a, a) == 0.0 && Moves(a, b) >= 0.0
    decreases |a|
  {
    if a != [] {
      MovesTriangle(a[..|a| - 1], b[..|b| - 1], c[..|c| - 1]);
    }
  }

  function WithCash(a: seq<real>): seq<real> { a + [1.0 - Sum(a)] }

  /** Listing cash explicitly and summing every move gives the loop's gap. */
  lemma GapIsMovesWithCash(a: seq<real>, b: seq<real>)
    requires |a| == |b|
    ensures Moves(WithCash(a), WithCash(b)) == Gap(a, b)
  {
    assert WithCash(a)[..|a|] == a && WithCash(b)[..|b|] == b;
  }

  lemma GapTriangle(a: seq<real>, b: seq<real>, c: seq<real>)
    requires |a| == |b| == |c|
    ensures Gap(a, c) <= Gap(a, b) + Gap(b, c) && Gap(a, a) == 0.0 && Gap(a, b) >= 0.0
  {
    MovesTriangle(a, b, c);
  }

  /** Row movement between consecutive active sessions, through session `t`. */
  ghost function Variation(k: Walk, t: nat): real
    requires k.Valid() && t <= |k.sessions|
  {
    if t == 0 then 0.0 else
      Variation(k, t - 1)
      + if k.sessions[t - 1].active && k.Previous(t - 1).Some? && k.Previous(t - 1).value < t - 1
        then Gap(k.sessions[t - 1].row, k.sessions[k.Previous(t - 1).value].row) else 0.0
  }

  /** Adoptions that only a wide gap caused. */
  ghost function WideAdoptions(k: Walk, t: nat): nat
    requires k.Valid() && t <= |k.sessions|
  {
    if t == 0 then 0 else
      var s, j := k.sessions[t - 1], k.AnchorAt(t - 1);
      WideAdoptions(k, t - 1)
      + if k.Adopts(t - 1) && j.Some? && !s.monthEnd && !k.ChoiceChanged(t - 1) && Gap(s.row, k.sessions[j.value].row) > WIDE then 1 else 0
  }

  lemma {:induction false} AnchorFromFirstActive(k: Walk, t: nat)
    requires k.Valid() && t <= |k.sessions|
    ensures k.AnchorAt(t).Some? <==> k.Previous(t).Some?
    decreases t
  {
    if t > 0 {
      AnchorFromFirstActive(k, t - 1);
    }
  }

  lemma {:induction false} WalkPotential(k: Walk, t: nat)
    requires k.Valid() && t <= |k.sessions| && k.Previous(t).Some? && k.AnchorAt(t).Some?
    ensures Lots(WIDE, WideAdoptions(k, t)) + Gap(k.sessions[k.Previous(t).value].row, k.sessions[k.AnchorAt(t).value].row) <= Variation(k, t)
    decreases t
  {
    var i := t - 1;
    PreviousIsLastActive(k, i);
    AnchorFromFirstActive(k, i);
    OneLotMore(WIDE, WideAdoptions(k, i));
    if k.Previous(i).Some? {
      WalkPotential(k, i);
      if k.sessions[i].active {
        GapTriangle(k.sessions[i].row, k.sessions[k.Previous(i).value].row, k.sessions[k.AnchorAt(i).value].row);
        GapTriangle(k.sessions[k.Previous(i).value].row, k.sessions[k.AnchorAt(i).value].row, k.sessions[i].row);
        GapTriangle(k.sessions[i].row, k.sessions[i].row, k.sessions[i].row);
      }
    } else {
      NothingBefore(k, i);
      GapTriangle(k.sessions[i].row, k.sessions[i].row, k.sessions[i].row);
    }
  }

  lemma {:induction false} NothingBefore(k: Walk, t: nat)
    requires k.Valid() && t <= |k.sessions| && k.Previous(t).None?
    ensures Variation(k, t) == 0.0 && WideAdoptions(k, t) == 0
    decreases t
  {
    if t > 0 {
      NothingBefore(k, t - 1);
    }
  }

  /** Adoptions forced by a wide gap alone are bounded by the movement of the selected rows. */
  lemma WideAdoptionsArePaidFor(k: Walk)
    requires k.Valid()
    ensures Lots(WIDE, WideAdoptions(k, |k.sessions|)) <= Variation(k, |k.sessions|)
  {
    var n := |k.sessions|;
    PreviousIsLastActive(k, n);
    AnchorFromFirstActive(k, n);
    if k.Previous(n).Some? {
      WalkPotential(k, n);
      GapTriangle(k.sessions[k.Previous(n).value].row, k.sessions[k.AnchorAt(n).value].row, k.sessions[k.AnchorAt(n).value].row);
    } else {
      NothingBefore(k, n);
    }
  }
}
