/**
  Attribution of the gap between two arms to the decisions on which they differ. Log differences are
  kept as factors: the gap over a stretch is the quotient of the two arms' growth.
 */
module FallbackEpisodes {
  import opened Common
  import opened RealArithmetic
  import opened TargetVectors

  const TOLERANCE := 0.000000000001

  /** Two decisions differ when some symbol's weight does, beyond rounding. */
  predicate Differs(a: Vector, b: Vector) {
    exists s :: s in a.Keys + b.Keys && AbsReal(Weight(a, s) - Weight(b, s)) > TOLERANCE
  }

  /** Over all symbols, listed or not, and with the tolerance written out. */
  lemma DiffersSomewhere(a: Vector, b: Vector)
    ensures Differs(a, b) <==> exists s :: AbsReal(Weight(a, s) - Weight(b, s)) > 0.000000000001
  {
  }

  datatype Arms = Arms(days: seq<int>, left: seq<real>, right: seq<real>)
  {
    /** One calendar, sorted, and positive values. */
    ghost predicate Valid() {
      && |days| == |left| == |right| > 0
      && (forall i, j :: 0 <= i < j < |days| ==> days[i] < days[j])
      && (forall i :: 0 <= i < |days| ==> left[i] > 0.0 && right[i] > 0.0)
    }

    /** The left arm's lead at session `i`. */
    function Lead(i: nat): real
      requires i < |days| && Valid()
    {
      left[i] / right[i]
    }
  }

  /** The gap's growth over sessions `a + 1` to `b`. */
  function Gap(k: Arms, a: nat, b: nat): real
    requires k.Valid() && a < |k.days| && b < |k.days|
  {
    LeadPositive(k, a);
    k.Lead(b) / k.Lead(a)
  }

  lemma LeadPositive(k: Arms, i: nat)
    requires k.Valid() && i < |k.days|
    ensures k.Lead(i) > 0.0
  {
    QuotientPositive(k.left[i], k.right[i]);
  }

  lemma GapsChain(k: Arms, a: nat, b: nat, c: nat)
    requires k.Valid() && a < |k.days| && b < |k.days| && c < |k.days|
    ensures Gap(k, a, b) > 0.0 && Gap(k, a, a) == 1.0
    ensures Compound(Gap(k, a, b), Gap(k, b, c)) == Gap(k, a, c)
  {
    LeadPositive(k, a); LeadPositive(k, b); LeadPositive(k, c);
    var x, y, z := k.Lead(a), k.Lead(b), k.Lead(c);
    QuotientPositive(y, x);
    assert x / x == 1.0;
    assert (y / x) * x == y && (z / y) * y == z;
    assert ((y / x) * (z / y)) * x == z;
  }

  /** One session's factor: the left arm's growth over the right arm's. */
  function Daily(k: Arms, i: nat): real
    requires k.Valid() && i < |k.days|
  {
    if i == 0 then 1.0 else (k.left[i] / k.left[i - 1]) / (k.right[i] / k.right[i - 1])
  }

  lemma DailyIsGap(k: Arms, i: nat)
    requires k.Valid() && 0 < i < |k.days|
    ensures Daily(k, i) == Gap(k, i - 1, i)
  {
    var a, b, c, d := k.left[i], k.left[i - 1], k.right[i], k.right[i - 1];
    var g, h := a / b, c / d;
    QuotientPositive(c, d);
    LeadPositive(k, i - 1);
    var x, y := a / c, b / d;
    assert g * b == a && h * d == c && x * c == a && y * d == b;
    // (g / h) * y == x, since g * b == a, b == y * d and c == h * d
    var q := g / h;
    assert q * h == g;
    assert (q * y) * c == x * c by {
      assert (q * y) * c == (q * y) * (h * d);
      assert (q * y) * (h * d) == (q * h) * (y * d);
    }
    Cancel(q * y, x, c);
    Cancel(x, q * y, c);
  }

  /** The factors of sessions `a` to `b`, as the report multiplies them. */
  function Piece(k: Arms, a: nat, b: nat): real
    requires k.Valid() && a <= b <= |k.days|
    decreases b
  {
    if a == b then 1.0 else Compound(Piece(k, a, b - 1), Daily(k, b - 1))
  }

  lemma {:induction false} PieceIsGap(k: Arms, a: nat, b: nat)
    requires k.Valid() && 0 < a <= b <= |k.days|
    ensures Piece(k, a, b) == Gap(k, a - 1, b - 1)
    decreases b
  {
    GapsChain(k, a - 1, a - 1, a - 1);
    if a < b {
      PieceIsGap(k, a, b - 1);
      DailyIsGap(k, b - 1);
      GapsChain(k, a - 1, b - 2, b - 1);
    }
  }

  // ---------------------------------------------------------------- the differing decisions

  method FindDay(days: seq<int>, day: int) returns (p: Option<nat>)
    ensures p.Some? ==> p.value < |days| && days[p.value] == day
    ensures p.None? <==> day !in days
  {
    for i := 0 to |days|
      invariant day !in days[..i]
    {
      if days[i] == day { return Some(i); }
    }
    p := None;
  }

  /** The decision day is held by both arms and their targets differ on it. */
  predicate DiffersOn(left: map<int, Vector>, right: map<int, Vector>, day: int) {
    day in left && day in right && Differs(left[day], right[day])
  }

  /** Every listed position is a differing decision among the first `i` common days. */
  ghost predicate Sound(k: Arms, left: map<int, Vector>, right: map<int, Vector>, common: seq<int>, i: nat, at: seq<nat>) {
    && Positions(k, at)
    && forall j :: 0 <= j < |at| ==> Owed(left, right, common, i, k.days[at[j]])
  }

  ghost predicate Owed(left: map<int, Vector>, right: map<int, Vector>, common: seq<int>, i: nat, day: int) {
    DiffersOn(left, right, day) && exists j :: 0 <= j < i && j < |common| && common[j] == day
  }

  /** Every differing decision among the first `i` common days is listed. */
  ghost predicate Complete(k: Arms, left: map<int, Vector>, right: map<int, Vector>, common: seq<int>, i: nat, at: seq<nat>) {
    forall j :: 0 <= j < i && j < |common| && DiffersOn(left, right, common[j]) ==> Listed(k, at, common[j])
  }

  ghost predicate Listed(k: Arms, at: seq<nat>, day: int) {
    exists q :: 0 <= q < |at| && at[q] < |k.days| && k.days[at[q]] == day
  }

  lemma AppendPosition(k: Arms, left: map<int, Vector>, right: map<int, Vector>, common: seq<int>, i: nat, at: seq<nat>, p: nat)
    requires k.Valid() && i < |common| && Sound(k, left, right, common, i, at)
    requires forall i, j :: 0 <= i < j < |common| ==> common[i] < common[j]
    requires p < |k.days| && k.days[p] == common[i] && DiffersOn(left, right, common[i])
    ensures Sound(k, left, right, common, i + 1, at + [p])
  {
    forall j | 0 <= j < |at| ensures at[j] < p && Owed(left, right, common, i + 1, k.days[at[j]]) {
      var c :| 0 <= c < i && common[c] == k.days[at[j]];
      assert common[c] < common[i];
    }
    assert Owed(left, right, common, i + 1, k.days[p]);
  }

  lemma SkipDecision(k: Arms, left: map<int, Vector>, right: map<int, Vector>, common: seq<int>, i: nat, at: seq<nat>)
    requires k.Valid() && i < |common| && Sound(k, left, right, common, i, at)
    ensures Sound(k, left, right, common, i + 1, at)
  {
    forall j | 0 <= j < |at| ensures Owed(left, right, common, i + 1, k.days[at[j]]) {
      var c :| 0 <= c < i && c < |common| && common[c] == k.days[at[j]];
    }
  }

  lemma CompleteExtends(k: Arms, left: map<int, Vector>, right: map<int, Vector>, common: seq<int>, i: nat, at: seq<nat>, more: seq<nat>)
    requires i < |common| && Complete(k, left, right, common, i, at) && at <= more
    requires DiffersOn(left, right, common[i]) ==> Listed(k, more, common[i])
    ensures Complete(k, left, right, common, i + 1, more)
  {
    forall j | 0 <= j < i + 1 && DiffersOn(left, right, common[j]) ensures Listed(k, more, common[j]) {
      if j < i {
        var q :| 0 <= q < |at| && at[q] < |k.days| && k.days[at[q]] == common[j];
        assert more[q] == at[q];
      }
    }
  }

  /** On distinct days, a complete and sound list holds exactly the differing decisions. */
  lemma ListIsExact(k: Arms, left: map<int, Vector>, right: map<int, Vector>, common: seq<int>, at: seq<nat>, day: int)
    requires k.Valid() && Sound(k, left, right, common, |common|, at) && Complete(k, left, right, common, |common|, at)
    requires forall d :: d in common <==> d in left && d in right
    ensures DiffersOn(left, right, day) ==> day in k.days
    ensures forall p :: 0 <= p < |k.days| && k.days[p] == day ==> (p in at <==> DiffersOn(left, right, day))
  {
    if DiffersOn(left, right, day) {
      assert day in common;
      assert Listed(k, at, day);
    }
    forall p | 0 <= p < |k.days| && k.days[p] == day ensures p in at <==> DiffersOn(left, right, day) {
      if p in at {
        var j :| 0 <= j < |at| && at[j] == p;
        assert Owed(left, right, common, |common|, k.days[at[j]]);
      }
    }
  }

  /**
    Calendar positions of the differing decisions, from the sorted common decision days. It fails exactly
    when a differing decision is not a valuation day.
   */
  method DifferingPositions(k: Arms, left: map<int, Vector>, right: map<int, Vector>, common: seq<int>) returns (r: Option<seq<nat>>)
    requires k.Valid()
    requires forall i, j :: 0 <= i < j < |common| ==> common[i] < common[j]
    requires forall d :: d in common <==> d in left && d in right
    ensures r.None? <==> exists d :: DiffersOn(left, right, d) && d !in k.days
    ensures r.Some? ==> Positions(k, r.value)
    ensures r.Some? ==> forall p :: 0 <= p < |k.days| ==> (p in r.value <==> DiffersOn(left, right, k.days[p]))
  {
    var at: seq<nat> := [];
    for i := 0 to |common|
      invariant Sound(k, left, right, common, i, at)
      invariant Complete(k, left, right, common, i, at)
    {
      var day := common[i];
      assert day in common;
      ghost var before := at;
      if Differs(left[day], right[day]) {
        var p := FindDay(k.days, day);
        if p.None? {
          assert DiffersOn(left, right, day);
          return None;
        }
        AppendPosition(k, left, right, common, i, at, p.value);
        at := at + [p.value];
        assert at[|before|] == p.value;
      } else {
        SkipDecision(k, left, right, common, i, at);
      }
      CompleteExtends(k, left, right, common, i, before, at);
    }
    r := Some(at);
    forall d: int ensures DiffersOn(left, right, d) ==> d in k.days {
      ListIsExact(k, left, right, common, at, d);
    }
    forall p | 0 <= p < |k.days| ensures p in at <==> DiffersOn(left, right, k.days[p]) {
      ListIsExact(k, left, right, common, at, k.days[p]);
    }
  }

  // ---------------------------------------------------------------- the report

  /** Sessions `start` to `end`, owned by the decision at position `decision`. */
  datatype Episode = Episode(decision: nat, start: nat, end: nat, piece: real, inside: bool)

  datatype Report = Report(episodes: seq<Episode>, total: real, inside: real, outside: real, whole: real)

  /** Where a decision's window ends: at the next differing decision, or with the calendar. */
  function WindowEnd(at: seq<nat>, n: nat, i: nat): nat
    requires i < |at|
  {
    if i + 1 < |at| then at[i + 1] + 1 else n
  }

  /** Positions of the differing decisions, increasing. */
  ghost predicate Positions(k: Arms, at: seq<nat>) {
    && (forall i :: 0 <= i < |at| ==> at[i] < |k.days|)
    && (forall i, j :: 0 <= i < j < |at| ==> at[i] < at[j])
  }

  /** The windows of the first `m` decisions: nonempty, consecutive, each with its own piece. */
  ghost predicate Tiles(k: Arms, at: seq<nat>, m: nat, es: seq<Episode>, evaluation: int)
    requires k.Valid() && Positions(k, at) && m <= |at|
  {
    && (forall e :: 0 <= e < |es| ==> TileOf(k, at, m, es[e], evaluation))
    && (forall e :: 0 <= e < |es| - 1 ==> Adjacent(es, e))
    && (if es == [] then m == 0 || (m == 1 && at[0] + 1 == |k.days|)
        else es[0].start == at[0] + 1 && es[|es| - 1].end == WindowEnd(at, |k.days|, m - 1))
  }

  ghost predicate Adjacent(es: seq<Episode>, e: nat)
    requires e + 1 < |es|
  {
    es[e].end == es[e + 1].start
  }

  ghost predicate TileOf(k: Arms, at: seq<nat>, m: nat, e: Episode, evaluation: int)
    requires k.Valid() && Positions(k, at) && m <= |at|
  {
    && e.decision < m && e.start == at[e.decision] + 1 && e.start < e.end <= |k.days|
    && e.end == WindowEnd(at, |k.days|, e.decision)
    && e.piece == Piece(k, e.start, e.end)
    && e.inside == (k.days[at[e.decision]] >= evaluation)
  }

  ghost function ProductOf(es: seq<Episode>, keep: bool -> bool): real {
    if es == [] then 1.0
    else Compound(ProductOf(es[..|es| - 1], keep), if keep(es[|es| - 1].inside) then es[|es| - 1].piece else 1.0)
  }

  ghost function All(): bool -> bool { b => true }
  ghost function Inside(): bool -> bool { b => b }
  ghost function Outside(): bool -> bool { b => !b }

  /** The loop's variables after the first `m` decisions. */
  datatype Tally = Tally(episodes: seq<Episode>, total: real, inside: real, outside: real)

  ghost predicate Tallied(k: Arms, at: seq<nat>, m: nat, evaluation: int, y: Tally) {
    && k.Valid() && Positions(k, at) && m <= |at|
    && Tiles(k, at, m, y.episodes, evaluation) && TotalsOf(y)
  }

  ghost predicate TotalsOf(y: Tally) {
    && y.total == ProductOf(y.episodes, All())
    && y.inside == ProductOf(y.episodes, Inside()) && y.outside == ProductOf(y.episodes, Outside())
  }

  function With(y: Tally, e: Episode): Tally {
    Tally(y.episodes + [e], Compound(y.total, e.piece),
          Compound(y.inside, if e.inside then e.piece else 1.0), Compound(y.outside, if e.inside then 1.0 else e.piece))
  }

  lemma TotalsExtend(y: Tally, e: Episode)
    requires TotalsOf(y)
    ensures TotalsOf(With(y, e))
  {
    assert (y.episodes + [e])[..|y.episodes|] == y.episodes;
  }

  /** One decision's window: skipped when empty, else an episode added to the totals. */
  method AddEpisode(k: Arms, at: seq<nat>, i: nat, evaluation: int, y0: Tally) returns (y: Tally)
    requires i < |at| && Tallied(k, at, i, evaluation, y0)
    ensures Tallied(k, at, i + 1, evaluation, y)
  {
    var start, end := at[i] + 1, WindowEnd(at, |k.days|, i);
    if start >= end {
      TilesSkip(k, at, i, y0.episodes, evaluation);
      return y0;
    }
    var piece := MultiplyDaily(k, start, end);
    var e := Episode(i, start, end, piece, k.days[at[i]] >= evaluation);
    TilesExtend(k, at, i, y0.episodes, e, evaluation);
    TotalsExtend(y0, e);
    y := With(y0, e);
  }

  /**
    The episode loop, with its running totals. There is no report exactly when the arms end with the lead
    they started with: the tiled share would divide by nothing.
   */
  method Analyse(k: Arms, at: seq<nat>, evaluation: int) returns (r: Option<Report>)
    requires k.Valid() && Positions(k, at)
    ensures r.None? <==> Gap(k, 0, |k.days| - 1) == 1.0
    ensures r.Some? ==> Tallied(k, at, |at|, evaluation, Tally(r.value.episodes, r.value.total, r.value.inside, r.value.outside))
    ensures r.Some? ==> r.value.whole == Gap(k, 0, |k.days| - 1)
  {
    var y := Tally([], 1.0, 1.0, 1.0);
    for i := 0 to |at|
      invariant Tallied(k, at, i, evaluation, y)
    {
      y := AddEpisode(k, at, i, evaluation, y);
    }
    var whole := Gap(k, 0, |k.days| - 1);
    r := if whole == 1.0 then None else Some(Report(y.episodes, y.total, y.inside, y.outside, whole));
  }

  method MultiplyDaily(k: Arms, a: nat, b: nat) returns (p: real)
    requires k.Valid() && a <= b <= |k.days|
    ensures p == Piece(k, a, b)
  {
    p := 1.0;
    for i := a to b
      invariant p == Piece(k, a, i)
    {
      p := Compound(p, Daily(k, i));
    }
  }

  lemma TilesExtend(k: Arms, at: seq<nat>, i: nat, es: seq<Episode>, e: Episode, evaluation: int)
    requires k.Valid() && Positions(k, at) && i < |at| && Tiles(k, at, i, es, evaluation)
    requires e == Episode(i, at[i] + 1, WindowEnd(at, |k.days|, i), e.piece, k.days[at[i]] >= evaluation)
    requires e.start < e.end && e.piece == Piece(k, e.start, e.end)
    ensures Tiles(k, at, i + 1, es + [e], evaluation)
  {
    var more := es + [e];
    forall d | 0 <= d < |more| ensures TileOf(k, at, i + 1, more[d], evaluation) {
      if d < |es| { assert TileOf(k, at, i, es[d], evaluation); }
    }
    forall d | 0 <= d < |more| - 1 ensures Adjacent(more, d) {
      if d < |es| - 1 { assert Adjacent(es, d); }
    }
  }

  /** Only the last decision can own no session: the calendar may end with it. */
  lemma TilesSkip(k: Arms, at: seq<nat>, i: nat, es: seq<Episode>, evaluation: int)
    requires k.Valid() && Positions(k, at) && i < |at| && Tiles(k, at, i, es, evaluation)
    requires at[i] + 1 >= WindowEnd(at, |k.days|, i)
    ensures Tiles(k, at, i + 1, es, evaluation)
  {
    forall d | 0 <= d < |es| ensures TileOf(k, at, i + 1, es[d], evaluation) {
      assert TileOf(k, at, i, es[d], evaluation);
    }
  }

  // ---------------------------------------------------------------- what the tiles add up to

  /** Windows `0` to `|es| - 1`, each the stretch it owns and adjacent to the next. */
  ghost predicate Chain(k: Arms, es: seq<Episode>) {
    && k.Valid() && es != []
    && (forall e :: 0 <= e < |es| ==> Stretches(k, es[e]))
    && (forall e :: 0 <= e < |es| - 1 ==> Adjacent(es, e))
  }

  ghost predicate Stretches(k: Arms, e: Episode) {
    k.Valid() && 0 < e.start < e.end <= |k.days| && e.piece == Piece(k, e.start, e.end)
  }

  lemma TilesChain(k: Arms, at: seq<nat>, m: nat, es: seq<Episode>, evaluation: int)
    requires k.Valid() && Positions(k, at) && m <= |at| && es != [] && Tiles(k, at, m, es, evaluation)
    ensures Chain(k, es)
  {
    forall e | 0 <= e < |es| ensures Stretches(k, es[e]) {
      assert TileOf(k, at, m, es[e], evaluation);
    }
  }

  lemma ChainRest(k: Arms, es: seq<Episode>)
    requires Chain(k, es) && |es| > 1
    ensures Chain(k, es[..|es| - 1]) && es[|es| - 2].end == es[|es| - 1].start
  {
    var rest := es[..|es| - 1];
    forall e | 0 <= e < |rest| - 1 ensures Adjacent(rest, e) {
      assert Adjacent(es, e);
    }
    assert Adjacent(es, |es| - 2);
  }

  lemma {:induction false} ChainTelescopes(k: Arms, es: seq<Episode>)
    requires Chain(k, es)
    ensures 0 < es[0].start <= |k.days| && 0 < es[|es| - 1].end <= |k.days|
    ensures ProductOf(es, All()) == Gap(k, es[0].start - 1, es[|es| - 1].end - 1)
  {
    var last := es[|es| - 1];
    assert Stretches(k, last) && Stretches(k, es[0]);
    PieceIsGap(k, last.start, last.end);
    if |es| == 1 {
      assert es[..0] == [];
      CompoundUnits(last.piece);
    } else {
      ChainRest(k, es);
      ChainTelescopes(k, es[..|es| - 1]);
      GapsChain(k, es[0].start - 1, last.start - 1, last.end - 1);
    }
  }

  lemma FourWay(a: real, b: real, x: real, y: real)
    ensures Compound(Compound(a, x), Compound(b, y)) == Compound(Compound(a, b), Compound(x, y))
  {
  }

  /** Evaluation-window episodes and earlier ones multiply to the tiled total. */
  lemma {:induction false} InsideTimesOutside(es: seq<Episode>)
    ensures Compound(ProductOf(es, Inside()), ProductOf(es, Outside())) == ProductOf(es, All())
  {
    if es == [] {
      CompoundUnits(1.0);
    } else {
      var rest, last := es[..|es| - 1], es[|es| - 1];
      InsideTimesOutside(rest);
      FourWay(ProductOf(rest, Inside()), ProductOf(rest, Outside()),
              if last.inside then last.piece else 1.0, if last.inside then 1.0 else last.piece);
      CompoundUnits(last.piece);
    }
  }

  lemma SameLeads(k: Arms, a: nat, b: nat, n: nat)
    requires k.Valid() && a < |k.days| && b < |k.days| && n < |k.days|
    ensures Gap(k, a, n) == Gap(k, b, n) <==> k.Lead(a) == k.Lead(b)
  {
    LeadPositive(k, a); LeadPositive(k, b); LeadPositive(k, n);
    var x, y, z := k.Lead(a), k.Lead(b), k.Lead(n);
    if z / x == z / y {
      var q := z / x;
      assert q * x == z == q * y;
      QuotientPositive(z, x);
      assert x * q <= y * q && y * q <= x * q;
      Cancel(x, y, q);
      Cancel(y, x, q);
    }
  }

  /**
    The tiled total is the whole gap after the first differing decision. It equals the whole gap of the
    calendar exactly when the two arms kept the same lead up to that decision.
   */
  lemma TotalIsGapAfterFirst(k: Arms, at: seq<nat>, es: seq<Episode>, evaluation: int)
    requires k.Valid() && Positions(k, at) && at != [] && Tiles(k, at, |at|, es, evaluation)
    ensures ProductOf(es, All()) == Gap(k, at[0], |k.days| - 1)
    ensures ProductOf(es, All()) == Gap(k, 0, |k.days| - 1) <==> k.Lead(at[0]) == k.Lead(0)
  {
    var n := |k.days|;
    if es == [] {
      GapsChain(k, at[0], at[0], at[0]);
    } else {
      TilesChain(k, at, |at|, es, evaluation);
      ChainTelescopes(k, es);
      LastTileEnds(k, at, es, evaluation);
    }
    SameLeads(k, at[0], 0, n - 1);
  }

  lemma LastTileEnds(k: Arms, at: seq<nat>, es: seq<Episode>, evaluation: int)
    requires k.Valid() && Positions(k, at) && at != [] && Tiles(k, at, |at|, es, evaluation) && es != []
    ensures es[|es| - 1].end == |k.days|
  {
  }
}
