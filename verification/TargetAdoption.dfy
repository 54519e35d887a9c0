/**
  The adoption policy: which days' target vectors become the portfolio's anchor, and an independent
  checker that recomputes every adoption from the raw tape.
 */
module TargetAdoption {
  import opened Common
  import opened RealArithmetic
  import opened TargetVectors

  datatype Target = Target(symbol: Symbol, weight: real)

  /** One signal day; days are ordinals. */
  datatype TapeRow = TapeRow(day: int, signalSession: int, knownThrough: int, targets: seq<Target>)

  datatype Policy = Monthly | Daily | Threshold(limit: real)

  datatype Reason = Initial | MonthEnd | EveryDay | Crossed

  datatype Error = BadTape | SwitchNotMonthly | Unavailable | NonPositiveThreshold | InvalidTargets

  /** The dictionary built from a target list; a later entry wins. */
  function Listed(ts: seq<Target>): Vector {
    if ts == [] then map[] else Listed(ts[..|ts| - 1])[ts[|ts| - 1].symbol := ts[|ts| - 1].weight]
  }

  /** A listed symbol has the weight of its last entry, and a symbol without an entry is not listed. */
  lemma {:induction false} ListedIsLast(ts: seq<Target>, s: Symbol)
    ensures s !in Listed(ts) <==> forall i :: 0 <= i < |ts| ==> ts[i].symbol != s
    ensures s in Listed(ts) ==>
      exists i :: 0 <= i < |ts| && ts[i].symbol == s && Listed(ts)[s] == ts[i].weight && forall j :: i < j < |ts| ==> ts[j].symbol != s
  {
    if ts != [] {
      var rest, n := ts[..|ts| - 1], |ts| - 1;
      ListedIsLast(rest, s);
      if ts[n].symbol != s && s in Listed(rest) {
        var i :| 0 <= i < |rest| && rest[i].symbol == s && Listed(rest)[s] == rest[i].weight && forall j :: i < j < |rest| ==> rest[j].symbol != s;
        assert ts[i] == rest[i];
        assert forall j :: i < j < n ==> ts[j] == rest[j];
      }
    }
  }

  ghost function Latest(row: TapeRow): Vector { WithCash(Listed(row.targets)) }

  ghost predicate ValidTargets(ts: seq<Target>) {
    && |Listed(ts)| == |ts| && CASH !in Listed(ts)
    && (forall s :: s in Listed(ts) ==> Listed(ts)[s] >= 0.0)
    && Total(Listed(ts), Listed(ts).Keys) <= 1.0
  }

  // ---------------------------------------------------------------- the policy as a function of the tape

  datatype Course = Course(tape: seq<TapeRow>, monthly: set<int>, policy: Policy, switches: map<int, Policy>)
  {
    /** The policy in force on day `i`: the latest switch so far, else the initial one. */
    function PolicyAt(i: nat): Policy
      requires i < |tape|
    {
      if tape[i].day in switches then switches[tape[i].day]
      else if i == 0 then policy
      else PolicyAt(i - 1)
    }

    ghost function Vector(i: nat): Vector
      requires i < |tape|
    {
      Latest(tape[i])
    }

    ghost function Gap(i: nat): Option<real>
      requires i < |tape|
    {
      if Anchor(i).None? then None else Some(Distance(Vector(i), Anchor(i).value))
    }

    ghost predicate Crosses(i: nat)
      requires i < |tape|
    {
      PolicyAt(i).Threshold? && Gap(i).Some? && Gap(i).value > PolicyAt(i).limit
    }

    ghost predicate Adopts(i: nat)
      requires i < |tape|
    {
      Anchor(i).None? || tape[i].day in monthly || PolicyAt(i).Daily? || Crosses(i)
    }

    /** The vector adopted last before day `i`. */
    ghost function Anchor(i: nat): Option<Vector>
      requires i <= |tape|
      decreases i, 0
    {
      if i == 0 then None else if AdoptsAfter(i - 1, Anchor(i - 1)) then Some(Vector(i - 1)) else Anchor(i - 1)
    }

    ghost predicate AdoptsAfter(i: nat, anchor: Option<Vector>)
      requires i < |tape|
    {
      || anchor.None? || tape[i].day in monthly || PolicyAt(i).Daily?
      || (PolicyAt(i).Threshold? && Distance(Vector(i), anchor.value) > PolicyAt(i).limit)
    }

    /** An adoption that only the threshold caused. */
    ghost predicate OnlyCrossed(i: nat)
      requires i < |tape|
    {
      Anchor(i).Some? && tape[i].day !in monthly && Crosses(i)
    }
  }

  lemma AdoptsIs(c: Course, i: nat)
    requires i < |c.tape|
    ensures c.Adopts(i) == c.AdoptsAfter(i, c.Anchor(i))
    ensures c.Anchor(i + 1) == if c.Adopts(i) then Some(c.Vector(i)) else c.Anchor(i)
  {
  }

  // ---------------------------------------------------------------- safety over whole runs

  /** The last adoption before day `i`. */
  ghost predicate LastAdoption(c: Course, i: nat, j: nat)
    requires i <= |c.tape|
  {
    j < i && c.Adopts(j) && forall d :: j < d < i ==> !c.Adopts(d)
  }

  /** After the first day there is always an anchor, and it is the vector of the last adopted day. */
  lemma {:induction false} AnchorIsLastAdoption(c: Course, i: nat) returns (j: nat)
    requires 0 < i <= |c.tape|
    ensures LastAdoption(c, i, j) && c.Anchor(i) == Some(c.Vector(j))
    decreases i
  {
    AdoptsIs(c, i - 1);
    if c.Adopts(i - 1) {
      j := i - 1;
    } else {
      j := AnchorIsLastAdoption(c, i - 1);
    }
  }

  /**
    A day is skipped only when it is not scheduled and its vector is within the limit then in force
    of the last adopted one, whatever policies were switched in between.
   */
  lemma SkippedDaysStayClose(c: Course, i: nat) returns (j: nat)
    requires i < |c.tape| && !c.Adopts(i)
    ensures LastAdoption(c, i, j)
    ensures c.tape[i].day !in c.monthly && !c.PolicyAt(i).Daily?
    ensures c.PolicyAt(i).Threshold? ==> Distance(c.Vector(i), c.Vector(j)) <= c.PolicyAt(i).limit
  {
    assert i > 0;
    j := AnchorIsLastAdoption(c, i);
  }

  /** `p` is the switch made last by day `i`, or the initial policy when there was none. */
  ghost predicate InForce(c: Course, i: nat, p: Policy)
    requires i < |c.tape|
  {
    || (exists d :: 0 <= d <= i && c.tape[d].day in c.switches && p == c.switches[c.tape[d].day]
                    && forall u :: d < u <= i ==> c.tape[u].day !in c.switches)
    || (p == c.policy && forall u :: 0 <= u <= i ==> c.tape[u].day !in c.switches)
  }

  lemma {:induction false} PolicyIsInForce(c: Course, i: nat)
    requires i < |c.tape|
    ensures InForce(c, i, c.PolicyAt(i))
    decreases i
  {
    if c.tape[i].day !in c.switches && i > 0 {
      PolicyIsInForce(c, i - 1);
      if exists d :: 0 <= d <= i - 1 && c.tape[d].day in c.switches && c.PolicyAt(i - 1) == c.switches[c.tape[d].day]
                     && forall u :: d < u <= i - 1 ==> c.tape[u].day !in c.switches {
        var d :| 0 <= d <= i - 1 && c.tape[d].day in c.switches && c.PolicyAt(i - 1) == c.switches[c.tape[d].day]
                 && forall u :: d < u <= i - 1 ==> c.tape[u].day !in c.switches;
        assert forall u :: d < u <= i ==> c.tape[u].day !in c.switches;
      }
    }
  }

  /** There is one policy in force. */
  lemma InForceIsUnique(c: Course, i: nat, p: Policy)
    requires i < |c.tape| && InForce(c, i, p)
    ensures p == c.PolicyAt(i)
  {
    PolicyIsInForce(c, i);
  }

  /** The last adoption before day `i` is the only one. */
  lemma LastAdoptionIsUnique(c: Course, i: nat, j: nat, d: nat)
    requires i <= |c.tape| && LastAdoption(c, i, j) && LastAdoption(c, i, d)
    ensures j == d
  {
  }

  /**
    The other half: a day is adopted exactly when nothing was adopted before, it is monthly, the policy in force
    is daily, or its vector is further from the last adopted one than the threshold in force.
   */
  lemma AdoptedExactly(c: Course, i: nat, p: Policy)
    requires i < |c.tape| && InForce(c, i, p)
    ensures c.Adopts(i) <==>
      || (forall d :: 0 <= d < i ==> !c.Adopts(d))
      || c.tape[i].day in c.monthly
      || p.Daily?
      || (p.Threshold? && exists j: nat :: LastAdoption(c, i, j) && Distance(c.Vector(i), c.Vector(j)) > p.limit)
  {
    InForceIsUnique(c, i, p);
    if i > 0 {
      var a := AnchorIsLastAdoption(c, i);
      forall j: nat | LastAdoption(c, i, j) ensures j == a { LastAdoptionIsUnique(c, i, j, a); }
    }
  }

  // ---------------------------------------------------------------- churn

  /** Total L1 movement of the target vectors over days 1 to `i`. */
  ghost function Variation(c: Course, i: nat): real
    requires i < |c.tape|
  {
    if i == 0 then 0.0 else Variation(c, i - 1) + Distance(c.Vector(i), c.Vector(i - 1))
  }

  /** The limits in force at the adoptions through day `i` that only a crossing caused. */
  ghost function Charged(c: Course, i: nat): real
    requires i < |c.tape|
  {
    (if i == 0 then 0.0 else Charged(c, i - 1)) + if c.OnlyCrossed(i) then c.PolicyAt(i).limit else 0.0
  }

  lemma {:induction false} ChurnPotential(c: Course, i: nat)
    requires i < |c.tape|
    ensures c.Anchor(i + 1).Some?
    ensures Charged(c, i) + Distance(c.Vector(i), c.Anchor(i + 1).value) <= Variation(c, i)
    decreases i
  {
    AdoptsIs(c, i);
    DistanceBasics(c.Vector(i), c.Vector(i));
    if i > 0 {
      ChurnPotential(c, i - 1);
      DistanceTriangle(c.Vector(i), c.Vector(i - 1), c.Anchor(i).value);
      DistanceBasics(c.Vector(i - 1), c.Anchor(i).value);
      DistanceBasics(c.Vector(i), c.Vector(i - 1));
    }
  }

  /** Threshold adoptions are paid for by movement: their limits never exceed the path's total variation. */
  lemma ChurnIsPaidFor(c: Course, i: nat)
    requires i < |c.tape|
    ensures Charged(c, i) <= Variation(c, i)
  {
    ChurnPotential(c, i);
    DistanceBasics(c.Vector(i), c.Anchor(i + 1).value);
  }

  ghost function Crossings(c: Course, i: nat): nat
    requires i < |c.tape|
  {
    (if i == 0 then 0 else Crossings(c, i - 1)) + if c.OnlyCrossed(i) then 1 else 0
  }

  lemma {:induction false} FixedCharge(c: Course, limit: real, i: nat)
    requires i < |c.tape| && c.policy == Threshold(limit) && c.switches == map[]
    ensures c.PolicyAt(i) == Threshold(limit)
    ensures Charged(c, i) == Lots(limit, Crossings(c, i))
    decreases i
  {
    OneLotMore(limit, if i == 0 then 0 else Crossings(c, i - 1));
    if i > 0 {
      FixedCharge(c, limit, i - 1);
    }
  }

  /** Under one fixed threshold: threshold times extra adoptions never exceeds total variation. */
  lemma ChurnBound(c: Course, limit: real, i: nat)
    requires i < |c.tape| && c.policy == Threshold(limit) && c.switches == map[]
    ensures limit * (Crossings(c, i) as real) <= Variation(c, i)
  {
    FixedCharge(c, limit, i);
    ChurnIsPaidFor(c, i);
    assert Lots(limit, Crossings(c, i)) == limit * (Crossings(c, i) as real);
  }

  // ---------------------------------------------------------------- sums as loops

  method SumWeights(v: Vector) returns (total: real)
    ensures total == Total(v, v.Keys)
  {
    total := 0.0;
    var left := v.Keys;
    while left != {}
      invariant left <= v.Keys && total + Total(v, left) == Total(v, v.Keys)
      decreases left
    {
      var x :| x in left;
      TotalPick(v, left, x);
      total := total + v[x];
      left := left - {x};
    }
  }

  /** The gap between two vectors, their symbols visited in any order. */
  method SumMoves(a: Vector, b: Vector) returns (gap: real)
    ensures gap == Distance(a, b)
  {
    gap := 0.0;
    var left := a.Keys + b.Keys;
    while left != {}
      invariant left <= a.Keys + b.Keys && gap + L1(a, b, left) == Distance(a, b)
      decreases left
    {
      var x :| x in left;
      L1Pick(a, b, left, x);
      gap := gap + Move(a, b, x);
      left := left - {x};
    }
  }

  method TargetWeights(ts: seq<Target>) returns (r: Option<Vector>)
    ensures r.Some? <==> ValidTargets(ts)
    ensures r.Some? ==> r.value == WithCash(Listed(ts))
  {
    var weights := Listed(ts);
    var total := SumWeights(weights);
    if |weights| != |ts| || CASH in weights || (exists s :: s in weights && weights[s] < 0.0) || total > 1.0 {
      return None;
    }
    r := Some(weights[CASH := 1.0 - total]);
  }

  // ---------------------------------------------------------------- the policy loop

  datatype Entry = Entry(
    day: int, knownThrough: int, policy: Policy, distance: Option<real>, adopted: bool,
    primary: Option<Reason>, reasons: seq<Reason>, before: Option<Vector>, latest: Vector)

  /** What the ledger must say of day `i`. */
  ghost predicate Explained(c: Course, i: nat, e: Entry)
    requires i < |c.tape|
  {
    && e.day == c.tape[i].day && e.policy == c.PolicyAt(i) && e.distance == c.Gap(i)
    && e.before == c.Anchor(i) && e.latest == c.Vector(i)
    && e.adopted == c.Adopts(i)
    && (Initial in e.reasons <==> c.Anchor(i).None?)
    && (MonthEnd in e.reasons <==> c.tape[i].day in c.monthly)
    && (EveryDay in e.reasons <==> c.PolicyAt(i).Daily?)
    && (Crossed in e.reasons <==> c.Crosses(i))
    && Ascending(e.reasons)
    && (e.primary == Some(Initial) <==> c.Anchor(i).None?)
    && (e.primary == Some(MonthEnd) <==> c.Anchor(i).Some? && c.tape[i].day in c.monthly)
    && (e.primary == Some(EveryDay) <==> c.Anchor(i).Some? && c.tape[i].day !in c.monthly && c.PolicyAt(i).Daily?)
    && (e.primary == Some(Crossed) <==> c.OnlyCrossed(i))
  }

  function Turn(reason: Reason): nat {
    match reason case Initial => 0 case MonthEnd => 1 case EveryDay => 2 case Crossed => 3
  }

  /** Reasons are listed once each, in the order in which they are asked. */
  ghost predicate Ascending(reasons: seq<Reason>) {
    forall i, j :: 0 <= i < j < |reasons| ==> Turn(reasons[i]) < Turn(reasons[j])
  }

  ghost predicate Ordered(tape: seq<TapeRow>) {
    |tape| > 0 && forall i, j :: 0 <= i < j < |tape| ==> tape[i].day < tape[j].day
  }

  /** Day `i` is accepted: signals were known the day before, a threshold is positive, targets are valid. */
  ghost predicate Accepts(c: Course, i: nat)
    requires i < |c.tape|
  {
    && c.tape[i].signalSession == c.tape[i].day && c.tape[i].knownThrough < c.tape[i].day
    && (c.PolicyAt(i).Threshold? ==> c.PolicyAt(i).limit > 0.0)
    && ValidTargets(c.tape[i].targets)
  }

  ghost function Decisions(c: Course, i: nat): seq<TapeRow>
    requires i <= |c.tape|
  {
    if i == 0 then [] else Decisions(c, i - 1) + if c.Adopts(i - 1) then [c.tape[i - 1]] else []
  }

  method CollectReasons(first: bool, monthly: bool, daily: bool, crossed: bool) returns (reasons: seq<Reason>)
    ensures Ascending(reasons)
    ensures (Initial in reasons <==> first) && (MonthEnd in reasons <==> monthly)
    ensures (EveryDay in reasons <==> daily) && (Crossed in reasons <==> crossed)
    ensures reasons == [] <==> !first && !monthly && !daily && !crossed
    ensures !first && !monthly && reasons != [] ==> reasons[0] == if daily then EveryDay else Crossed
  {
    reasons := Ask([], Initial, first);
    reasons := Ask(reasons, MonthEnd, monthly);
    reasons := Ask(reasons, EveryDay, daily);
    reasons := Ask(reasons, Crossed, crossed);
  }

  ghost predicate AskedBefore(reasons: seq<Reason>, turn: nat) {
    Ascending(reasons) && forall i :: 0 <= i < |reasons| ==> Turn(reasons[i]) < turn
  }

  method Ask(asked: seq<Reason>, reason: Reason, holds: bool) returns (reasons: seq<Reason>)
    requires AskedBefore(asked, Turn(reason))
    ensures AskedBefore(reasons, Turn(reason) + 1)
    ensures forall x :: x in reasons <==> x in asked || (holds && x == reason)
    ensures reasons != [] ==> reasons[0] == if asked != [] then asked[0] else reason
  {
    reasons := asked;
    if holds { reasons := reasons + [reason]; }
  }

  /** One day of the loop: measure, collect reasons, and log. */
  method LogDay(c: Course, i: nat, policy: Policy, anchor: Option<Vector>, latest: Vector) returns (e: Entry)
    requires i < |c.tape| && policy == c.PolicyAt(i) && anchor == c.Anchor(i) && latest == c.Vector(i)
    ensures Explained(c, i, e)
  {
    var row := c.tape[i];
    var gap: Option<real> := None;
    if anchor.Some? {
      var d := SumMoves(latest, anchor.value);
      gap := Some(d);
    }
    var crossed := gap.Some? && policy.Threshold? && gap.value > policy.limit;
    var reasons := CollectReasons(anchor.None?, row.day in c.monthly, policy.Daily?, crossed);
    var adopt := reasons != [];
    var primary := if !adopt then None else if anchor.None? then Some(Initial)
                   else if row.day in c.monthly then Some(MonthEnd) else Some(reasons[0]);
    AdoptsIs(c, i);
    e := Entry(row.day, row.knownThrough, policy, gap, adopt, primary, reasons, anchor, latest);
  }

  ghost predicate AcceptsTo(c: Course, n: nat)
    requires n <= |c.tape|
  {
    forall j :: 0 <= j < n ==> Accepts(c, j)
  }

  ghost predicate ExplainedTo(c: Course, n: nat, ledger: seq<Entry>)
    requires n <= |c.tape|
  {
    |ledger| == n && forall j :: 0 <= j < n ==> Explained(c, j, ledger[j])
  }

  lemma LedgerExtends(c: Course, n: nat, ledger: seq<Entry>, e: Entry)
    requires n < |c.tape| && ExplainedTo(c, n, ledger) && Explained(c, n, e)
    ensures ExplainedTo(c, n + 1, ledger + [e])
  {
  }

  /** The day's checks: availability, then the threshold, then the targets. */
  method ReadDay(c: Course, i: nat, policy: Policy) returns (r: Result<Vector, Error>)
    requires i < |c.tape| && policy == c.PolicyAt(i)
    ensures r.Ok? <==> Accepts(c, i)
    ensures r.Ok? ==> r.value == c.Vector(i)
    ensures var row := c.tape[i];
      var known := row.signalSession == row.day && row.knownThrough < row.day;
      && (r == Err(Unavailable) <==> !known)
      && (r == Err(NonPositiveThreshold) <==> known && policy.Threshold? && policy.limit <= 0.0)
  {
    var row := c.tape[i];
    if row.signalSession != row.day || row.knownThrough >= row.day { return Err(Unavailable); }
    if policy.Threshold? && !(policy.limit > 0.0) { return Err(NonPositiveThreshold); }
    var latest := TargetWeights(row.targets);
    r := if latest.None? then Err(InvalidTargets) else Ok(latest.value);
  }

  ghost predicate Acceptable(c: Course) {
    Ordered(c.tape) && c.switches.Keys <= c.monthly && forall i :: 0 <= i < |c.tape| ==> Accepts(c, i)
  }

  /** The loop's variables before a day. */
  datatype Standing = Standing(policy: Policy, anchor: Option<Vector>, decisions: seq<TapeRow>, ledger: seq<Entry>)

  ghost predicate Reached(c: Course, i: nat, p: Standing)
    requires i <= |c.tape|
  {
    && p.anchor == c.Anchor(i) && p.policy == (if i == 0 then c.policy else c.PolicyAt(i - 1))
    && p.decisions == Decisions(c, i) && AcceptsTo(c, i) && ExplainedTo(c, i, p.ledger)
  }

  /** One turn of the loop; it stops at the first day that is not acceptable. */
  method PlayDay(c: Course, i: nat, p: Standing) returns (r: Result<Standing, Error>)
    requires i < |c.tape| && Reached(c, i, p)
    ensures r.Ok? ==> Reached(c, i + 1, r.value)
    ensures r.Err? ==> !Accepts(c, i)
  {
    var row := c.tape[i];
    var policy := if row.day in c.switches then c.switches[row.day] else p.policy;
    var latest := ReadDay(c, i, policy);
    if latest.Err? {
      return Err(latest.error);
    }
    var e := LogDay(c, i, policy, p.anchor, latest.value);
    LedgerExtends(c, i, p.ledger, e);
    AdoptsIs(c, i);
    r := Ok(Standing(policy, if e.adopted then Some(latest.value) else p.anchor,
                     if e.adopted then p.decisions + [row] else p.decisions, p.ledger + [e]));
  }

  /** The policy loop. It refuses a run exactly when the tape, the switches or some day is unacceptable. */
  method AdoptionSchedule(c: Course) returns (r: Result<(seq<TapeRow>, seq<Entry>), Error>)
    ensures r.Ok? <==> Acceptable(c)
    ensures r.Ok? ==>
      && r.value.0 == Decisions(c, |c.tape|)
      && |r.value.1| == |c.tape|
      && forall i :: 0 <= i < |c.tape| ==> Explained(c, i, r.value.1[i])
  {
    if |c.tape| == 0 || exists i :: 0 < i < |c.tape| && c.tape[i - 1].day >= c.tape[i].day {
      return Err(BadTape);
    }
    NeighboursOrder(c.tape);
    if !(c.switches.Keys <= c.monthly) {
      return Err(SwitchNotMonthly);
    }
    var p := Standing(c.policy, None, [], []);
    var i := 0;
    while i < |c.tape|
      invariant 0 <= i <= |c.tape| && Reached(c, i, p)
    {
      var next := PlayDay(c, i, p);
      if next.Err? {
        return Err(next.error);
      }
      p := next.value;
      i := i + 1;
    }
    r := Ok((p.decisions, p.ledger));
  }

  lemma NeighboursOrder(tape: seq<TapeRow>)
    requires |tape| > 0 && forall i :: 0 < i < |tape| ==> tape[i - 1].day < tape[i].day
    ensures Ordered(tape)
  {
    forall i, j | 0 <= i < j < |tape| ensures tape[i].day < tape[j].day {
      var d := i + 1;
      while d < j
        invariant i < d <= j && tape[i].day < tape[d].day
      {
        d := d + 1;
      }
    }
  }

  // ---------------------------------------------------------------- the independent checker

  /** What the checker reads of a logged day. */
  datatype Logged = Logged(adopted: bool, distance: Option<real>)

  const TOLERANCE := 0.000000000000000000000001

  predicate GapMismatch(logged: Option<real>, gap: Option<real>) {
    || logged.Some? != gap.Some?
    || (gap.Some? && logged.Some? && AbsReal(logged.value - gap.value) > TOLERANCE)
  }

  ghost predicate Confirms(c: Course, i: nat, l: Logged)
    requires i < |c.tape|
  {
    l.adopted == c.Adopts(i) && !GapMismatch(l.distance, c.Gap(i))
  }

  /** One day recomputed by the checker from the raw row, without validation. */
  method Recompute(c: Course, i: nat, mode: Policy, anchor: Option<Vector>) returns (vector: Vector, gap: Option<real>, chosen: bool)
    requires i < |c.tape| && mode == c.PolicyAt(i) && anchor == c.Anchor(i)
    ensures vector == c.Vector(i) && gap == c.Gap(i) && chosen == c.Adopts(i)
  {
    var row := c.tape[i];
    var weights := Listed(row.targets);
    var total := SumWeights(weights);
    vector := weights[CASH := 1.0 - total];
    gap := None;
    if anchor.Some? {
      var d := SumMoves(vector, anchor.value);
      gap := Some(d);
    }
    var crossed := mode.Threshold? && gap.Some? && gap.value > mode.limit;
    chosen := anchor.None? || row.day in c.monthly || mode.Daily? || crossed;
  }

  ghost predicate SameDays(days: seq<int>, rows: seq<TapeRow>) {
    |days| == |rows| && forall j :: 0 <= j < |days| ==> days[j] == rows[j].day
  }

  ghost predicate AllConfirmed(c: Course, ledger: seq<Logged>) {
    |ledger| == |c.tape| && forall i :: 0 <= i < |c.tape| ==> Confirms(c, i, ledger[i])
  }

  /**
    The checker: its own vectors, its own anchor, no policy helpers and no validation. It returns the
    expected adoption days exactly when every logged day is confirmed.
   */
  method IndependentEvents(c: Course, ledger: seq<Logged>) returns (r: Option<seq<int>>)
    ensures r.Some? <==> AllConfirmed(c, ledger)
    ensures r.Some? ==> SameDays(r.value, Decisions(c, |c.tape|))
  {
    if |ledger| != |c.tape| { return None; }
    var mode := c.policy;
    var expected: seq<int>, anchor: Option<Vector> := [], None;
    var i := 0;
    while i < |c.tape|
      invariant 0 <= i <= |c.tape|
      invariant anchor == c.Anchor(i) && mode == if i == 0 then c.policy else c.PolicyAt(i - 1)
      invariant forall j :: 0 <= j < i ==> Confirms(c, j, ledger[j])
      invariant SameDays(expected, Decisions(c, i))
    {
      var row := c.tape[i];
      if row.day in c.switches { mode := c.switches[row.day]; }
      var vector, gap, chosen := Recompute(c, i, mode, anchor);
      AdoptsIs(c, i);
      if chosen {
        expected := expected + [row.day];
        anchor := Some(vector);
      }
      if ledger[i].adopted != chosen || GapMismatch(ledger[i].distance, gap) {
        assert !Confirms(c, i, ledger[i]);
        return None;
      }
      i := i + 1;
    }
    r := Some(expected);
  }

  predicate Near(x: real, y: real) {
    -0.000000000000000000000001 <= x - y <= 0.000000000000000000000001
  }

  /** What confirmation of a day means: the same verdict, and both or neither distance, within the tolerance. */
  lemma ConfirmationIs(c: Course, i: nat, l: Logged)
    requires i < |c.tape|
    ensures Confirms(c, i, l) <==>
      && (l.adopted <==> c.Adopts(i))
      && (i == 0 ==> l.distance.None?)
      && (i > 0 ==> l.distance.Some? && exists j: nat :: LastAdoption(c, i, j) && Near(l.distance.value, Distance(c.Vector(i), c.Vector(j))))
  {
    if i > 0 {
      var a := AnchorIsLastAdoption(c, i);
      forall j: nat | LastAdoption(c, i, j) ensures j == a { LastAdoptionIsUnique(c, i, j, a); }
    }
  }

  /** The checker can never reject what the policy wrote. */
  lemma PolicyIsConfirmed(c: Course, ledger: seq<Entry>)
    requires |ledger| == |c.tape| && forall i :: 0 <= i < |c.tape| ==> Explained(c, i, ledger[i])
    ensures AllConfirmed(c, seq(|ledger|, i requires 0 <= i < |ledger| => Logged(ledger[i].adopted, ledger[i].distance)))
  {
    forall i | 0 <= i < |c.tape| ensures Confirms(c, i, Logged(ledger[i].adopted, ledger[i].distance)) {
      assert Explained(c, i, ledger[i]);
    }
  }

  // ---------------------------------------------------------------- quick reversals

  datatype Fill = Fill(symbol: Symbol, quantity: int, session: int)

  /** Buys are up; a zero quantity counts as down, as in the report. */
  predicate Up(f: Fill) { f.quantity > 0 }

  /** Fill `i` is the latest fill of the given symbol before position `j`. */
  ghost predicate LatestOf(fills: seq<Fill>, s: Symbol, i: int, j: int)
    requires j <= |fills|
  {
    0 <= i < j && fills[i].symbol == s && forall d :: i < d < j ==> fills[d].symbol != s
  }

  predicate Opposes(a: Fill, b: Fill) {
    Up(a) != Up(b) && b.session - a.session <= 5
  }

  ghost predicate Reverses(fills: seq<Fill>, j: nat)
    requires j < |fills|
  {
    exists i :: LatestOf(fills, fills[j].symbol, i, j) && Opposes(fills[i], fills[j])
  }

  ghost function ReversalCount(fills: seq<Fill>, n: nat): nat
    requires n <= |fills|
  {
    if n == 0 then 0 else ReversalCount(fills, n - 1) + if Reverses(fills, n - 1) then 1 else 0
  }

  lemma ReversesLatest(fills: seq<Fill>, i: int, j: nat)
    requires j < |fills| && LatestOf(fills, fills[j].symbol, i, j)
    ensures Reverses(fills, j) <==> Opposes(fills[i], fills[j])
  {
    if Reverses(fills, j) {
      var d :| LatestOf(fills, fills[j].symbol, d, j) && Opposes(fills[d], fills[j]);
      assert d == i;
    }
  }

  /** The table remembers, for every symbol seen, its latest fill. */
  ghost predicate Remembers(fills: seq<Fill>, j: nat, last: map<Symbol, (int, bool)>, s: Symbol)
    requires j <= |fills|
  {
    if s in last then exists i :: LatestOf(fills, s, i, j) && last[s] == (fills[i].session, Up(fills[i]))
    else forall d :: 0 <= d < j ==> fills[d].symbol != s
  }

  lemma RemembersOneMore(fills: seq<Fill>, j: nat, last: map<Symbol, (int, bool)>, s: Symbol)
    requires j < |fills| && Remembers(fills, j, last, s)
    ensures Remembers(fills, j + 1, last[fills[j].symbol := (fills[j].session, Up(fills[j]))], s)
  {
    if s == fills[j].symbol {
      assert LatestOf(fills, s, j, j + 1);
    } else if s in last {
      var i :| LatestOf(fills, s, i, j) && last[s] == (fills[i].session, Up(fills[i]));
      assert LatestOf(fills, s, i, j + 1);
    }
  }

  ghost predicate RemembersAll(fills: seq<Fill>, j: nat, last: map<Symbol, (int, bool)>)
    requires j <= |fills|
  {
    forall s :: Remembers(fills, j, last, s)
  }

  lemma RemembersNext(fills: seq<Fill>, j: nat, last: map<Symbol, (int, bool)>)
    requires j < |fills| && RemembersAll(fills, j, last)
    ensures RemembersAll(fills, j + 1, last[fills[j].symbol := (fills[j].session, Up(fills[j]))])
  {
    var next, n := last[fills[j].symbol := (fills[j].session, Up(fills[j]))], j + 1;
    forall s ensures Remembers(fills, n, next, s) {
      RemembersOneMore(fills, j, last, s);
    }
  }

  lemma ReversalIsSeen(fills: seq<Fill>, j: nat, last: map<Symbol, (int, bool)>)
    requires j < |fills| && RemembersAll(fills, j, last)
    ensures var f := fills[j];
      Reverses(fills, j) <==> f.symbol in last && Up(f) != last[f.symbol].1 && f.session - last[f.symbol].0 <= 5
  {
    var f := fills[j];
    assert Remembers(fills, j, last, f.symbol);
    if f.symbol in last {
      var i :| LatestOf(fills, f.symbol, i, j) && last[f.symbol] == (fills[i].session, Up(fills[i]));
      ReversesLatest(fills, i, j);
    }
  }

  /** One fill: compared with the table's entry, then remembered in it. */
  method CheckFill(fills: seq<Fill>, j: nat, last: map<Symbol, (int, bool)>) returns (reverses: bool, next: map<Symbol, (int, bool)>)
    requires j < |fills| && RemembersAll(fills, j, last)
    ensures reverses == Reverses(fills, j) && RemembersAll(fills, j + 1, next)
  {
    var f := fills[j];
    ReversalIsSeen(fills, j, last);
    RemembersNext(fills, j, last);
    reverses := f.symbol in last && Up(f) != last[f.symbol].1 && f.session - last[f.symbol].0 <= 5;
    next := last[f.symbol := (f.session, Up(f))];
  }

  /** The one-pass counter with a last-fill table counts exactly the quick opposite successors. */
  method CountReversals(fills: seq<Fill>) returns (reversals: nat)
    ensures reversals == ReversalCount(fills, |fills|)
  {
    var last: map<Symbol, (int, bool)> := map[];
    reversals := 0;
    var j := 0;
    while j < |fills|
      invariant 0 <= j <= |fills| && reversals == ReversalCount(fills, j)
      invariant RemembersAll(fills, j, last)
    {
      var reverses;
      reverses, last := CheckFill(fills, j, last);
      if reverses {
        reversals := reversals + 1;
      }
      j := j + 1;
    }
  }
}
