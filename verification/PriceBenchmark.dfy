/**
  The buy-and-hold benchmark in whole cents: as many units as the stake covers at the opening price with
  its fee, prices and fee rounded half to even. Values before rounding are exact.
 */
module PriceBenchmark {
  import opened Common

  const STAKE := 1_000_000_00

  /** Nearest integer, ties to even. */
  function RoundHalfEven(x: real): (r: int)
    ensures -0.5 <= r as real - x <= 0.5
    ensures (r as real - x == 0.5 || r as real - x == -0.5) ==> r % 2 == 0
  {
    var low := x.Floor;
    var rest := x - low as real;
    if rest < 0.5 || (rest == 0.5 && low % 2 == 0) then low else low + 1
  }

  /** Any nearest integer that is even on ties is the rounding. */
  lemma RoundingIsUnique(x: real, r: int)
    requires -0.5 <= r as real - x <= 0.5
    requires (r as real - x == 0.5 || r as real - x == -0.5) ==> r % 2 == 0
    ensures r == RoundHalfEven(x)
  {
    var q := RoundHalfEven(x);
    assert -1.0 <= r as real - q as real <= 1.0;
    assert -1 <= r - q <= 1;
  }

  // ---------------------------------------------------------------- the order

  /** Units bought with the stake at `opening` cents and a fee of five basis points. */
  function Quantity(opening: int): int
    requires opening != 0
  {
    (STAKE as real / (opening as real * 1.0005)).Floor
  }

  /** The rounded fee on `notional` cents. */
  function Fee(notional: int): int { RoundHalfEven(notional as real * 0.0005) }

  /** What `notional` cents of units cost with the rounded fee. */
  function Cost(notional: int): int { notional + Fee(notional) }

  lemma QuantityBounds(opening: int)
    requires opening > 0
    ensures var q := Quantity(opening);
            q >= 0 && 2001 * (q * opening) <= 2000 * STAKE < 2001 * ((q + 1) * opening)
  {
    var unit := opening as real * 1.0005;
    FloorOfQuotient(STAKE as real, unit, Quantity(opening));
    Units(Quantity(opening), opening);
    Units(Quantity(opening) + 1, opening);
  }

  lemma FloorOfQuotient(stake: real, unit: real, q: int)
    requires stake > 0.0 && unit > 0.0 && q == (stake / unit).Floor
    ensures q >= 0 && q as real * unit <= stake < (q + 1) as real * unit
  {
    var ratio := stake / unit;
    Quotient(stake, unit, ratio);
    FloorScales(ratio, unit, stake, q as real, (q + 1) as real);
  }

  lemma Quotient(stake: real, unit: real, ratio: real)
    requires stake > 0.0 && unit > 0.0 && ratio == stake / unit
    ensures ratio * unit == stake && ratio > 0.0
  {
  }

  lemma FloorScales(ratio: real, unit: real, stake: real, low: real, high: real)
    requires ratio * unit == stake && unit > 0.0 && low <= ratio < high
    ensures low * unit <= stake < high * unit
  {
    Scale(low, ratio, unit);
    ScaleStrict(ratio, high, unit);
  }

  lemma Scale(a: real, b: real, c: real)
    requires a <= b && c > 0.0
    ensures a * c <= b * c
  {
  }

  lemma ScaleStrict(a: real, b: real, c: real)
    requires a < b && c > 0.0
    ensures a * c < b * c
  {
  }

  lemma Units(k: int, opening: int)
    ensures (k as real * (opening as real * 1.0005)) * 2000.0 == (2001 * (k * opening)) as real
  {
    assert (k * opening) as real == k as real * opening as real;
  }

  /** With the rounded fee the stake pays for a notional exactly up to this many cents. */
  const MOST := 999_500_25

  lemma AffordableNotional(notional: int)
    requires notional >= 0
    ensures Cost(notional) <= STAKE <==> notional <= MOST
    ensures 2001 * notional <= 2000 * STAKE <==> notional < MOST
  {
    var exact := notional as real * 0.0005;
    if notional == MOST {
      RoundingIsUnique(exact, 49_975);
    }
  }

  /** The money is never short: the purchase and its rounded fee stay within the stake. */
  lemma CashNeverShort(opening: int)
    requires opening > 0
    ensures Cost(Quantity(opening) * opening) <= STAKE
    ensures 2.0 * (STAKE - Cost(Quantity(opening) * opening)) as real < 2.001 * opening as real + 1.0
  {
    QuantityBounds(opening);
    var q := Quantity(opening);
    var notional := q * opening;
    assert notional >= 0;
    AffordableNotional(notional);
    assert (q + 1) * opening == notional + opening;
  }

  /** At the exact fee one more unit would exceed the stake. */
  lemma OneMoreExceeds(opening: int)
    requires opening > 0
    ensures ((Quantity(opening) + 1) * opening) as real * 1.0005 > STAKE as real
  {
    QuantityBounds(opening);
  }

  /**
    The order is the largest that the stake could pay for with the fee as charged, unless the opening price
    divides 999 500.25 exactly: then rounding the fee down leaves room for one more unit.
   */
  lemma LargestUnlessRoundingHelps(opening: int)
    requires opening > 0
    ensures (forall k :: k > Quantity(opening) ==> Cost(k * opening) > STAKE) <==> MOST % opening != 0
  {
    QuantityBounds(opening);
    var q := Quantity(opening);
    if MOST % opening == 0 {
      var k := MOST / opening;
      assert k * opening == MOST;
      AffordableNotional(MOST);
      assert q * opening < MOST by {
        assert q * opening >= 0;
        AffordableNotional(q * opening);
      }
      assert k > q by { if k <= q { Multiply(k, q, opening); } }
      assert Cost(k * opening) <= STAKE;
    } else {
      forall k | k > q ensures Cost(k * opening) > STAKE {
        Multiply(q + 1, k, opening);
        assert k * opening >= 0;
        AffordableNotional(k * opening);
        if k * opening == MOST { Divides(k, opening); }
      }
    }
  }

  lemma Multiply(a: int, b: int, c: int)
    requires a <= b && c > 0
    ensures a * c <= b * c
  {
  }

  lemma Divides(k: int, d: int)
    requires d > 0
    ensures (k * d) % d == 0
  {
    var p := k * d;
    var r, c := p % d, p / d;
    assert p == c * d + r && 0 <= r < d;
    assert (k - c) * d == r;
    if k - c >= 1 { Multiply(1, k - c, d); } else if k - c <= -1 { Multiply(k - c, -1, d); }
  }

  // ---------------------------------------------------------------- the benchmark

  datatype Bar = Bar(day: int, open: real, close: real)

  datatype Point = Point(day: int, nav: int)

  datatype Benchmark = Benchmark(nav: seq<Point>, cash: int, quantity: int, price: int, fee: int)

  datatype Failure = NoDays | NoPriorRate | ZeroOpening | MissingRate

  /** The bar that a table keyed by day keeps: the last one of the day. */
  function LastBar(rows: seq<Bar>, day: int): Option<Bar> {
    if rows == [] then None
    else if rows[|rows| - 1].day == day then Some(rows[|rows| - 1])
    else LastBar(rows[..|rows| - 1], day)
  }

  /** No later row has the day of a kept bar, and a day without a bar has no row. */
  lemma {:induction false} LastBarIsLast(rows: seq<Bar>, day: int)
    ensures match LastBar(rows, day)
      case None => forall i :: 0 <= i < |rows| ==> rows[i].day != day
      case Some(bar) => exists i :: 0 <= i < |rows| && rows[i] == bar && bar.day == day && forall j :: i < j < |rows| ==> rows[j].day != day
  {
    if rows != [] && rows[|rows| - 1].day != day {
      var rest := rows[..|rows| - 1];
      LastBarIsLast(rest, day);
      if LastBar(rest, day).Some? {
        var i :| 0 <= i < |rest| && rest[i] == LastBar(rest, day).value && rest[i].day == day && forall j :: i < j < |rest| ==> rest[j].day != day;
        assert rows[i] == rest[i];
        assert forall j :: i < j < |rest| ==> rows[j] == rest[j];
      }
    }
  }

  ghost predicate HasBars(rows: seq<Bar>, days: seq<int>) {
    forall d :: d in days ==> LastBar(rows, d).Some?
  }

  ghost predicate HasPrior(fx: map<int, real>, first: int) {
    exists d :: d in fx && d < first
  }

  ghost predicate IsPrior(fx: map<int, real>, first: int, prior: int) {
    prior in fx && prior < first && forall d :: d in fx && d < first ==> d <= prior
  }

  /** A converted price in whole cents: the nearest, even on ties. */
  function Cents(price: real, rate: real): (c: int)
    ensures -0.5 <= c as real - price * rate * 100.0 <= 0.5
    ensures (c as real - price * rate * 100.0 == 0.5 || c as real - price * rate * 100.0 == -0.5) ==> c % 2 == 0
  {
    RoundHalfEven(price * rate * 100.0)
  }

  ghost predicate OpensAtZero(rows: seq<Bar>, fx: map<int, real>, first: int) {
    var bar := LastBar(rows, first);
    bar.Some? && exists p :: IsPrior(fx, first, p) && Cents(bar.value.open, fx[p]) == 0
  }

  /** The benchmark's figures, given the rate date used for the opening. */
  ghost predicate Bought(rows: seq<Bar>, fx: map<int, real>, days: seq<int>, prior: int, b: Benchmark)
    requires days != [] && HasBars(rows, days) && prior in fx
  {
    && b.price == Cents(LastBar(rows, days[0]).value.open, fx[prior]) != 0
    && b.quantity == Quantity(b.price)
    && b.fee == Fee(b.quantity * b.price)
    && b.cash + Cost(b.quantity * b.price) == STAKE
    && |b.nav| == |days|
    && forall i :: 0 <= i < |days| ==> days[i] in fx && Marked(rows, fx, b, days[i], b.nav[i])
  }

  /** One day's value: the cash left and the units at the day's rounded close. */
  predicate Marked(rows: seq<Bar>, fx: map<int, real>, b: Benchmark, day: int, p: Point)
    requires day in fx
  {
    var bar := LastBar(rows, day);
    bar.Some? && p == Point(day, b.cash + b.quantity * Cents(bar.value.close, fx[day]))
  }

  method IndexBars(rows: seq<Bar>) returns (byDay: map<int, Bar>)
    ensures forall d :: if d in byDay then LastBar(rows, d) == Some(byDay[d]) else LastBar(rows, d) == None
  {
    byDay := map[];
    for i := 0 to |rows|
      invariant forall d :: if d in byDay then LastBar(rows[..i], d) == Some(byDay[d]) else LastBar(rows[..i], d) == None
    {
      assert rows[..i + 1][..i] == rows[..i];
      byDay := byDay[rows[i].day := rows[i]];
    }
    assert rows[..|rows|] == rows;
  }

  /** `prior` is the latest earlier rate date among those no longer in `dates`. */
  ghost predicate LatestSeen(fx: map<int, real>, first: int, dates: set<int>, prior: Option<int>) {
    && (prior.Some? ==> prior.value in fx && prior.value < first)
    && forall d :: d in fx && d < first && d !in dates ==> prior.Some? && d <= prior.value
  }

  lemma NonEmpty(s: set<int>)
    ensures s == {} || exists d :: d in s
  {
    if !exists d :: d in s {
      assert forall d :: d in s <==> d in {};
    }
  }

  method LatestBefore(fx: map<int, real>, first: int) returns (prior: Option<int>)
    ensures prior.None? <==> !HasPrior(fx, first)
    ensures prior.Some? ==> IsPrior(fx, first, prior.value)
  {
    var dates: set<int> := fx.Keys;
    prior := None;
    while dates != {}
      invariant dates <= fx.Keys
      invariant LatestSeen(fx, first, dates, prior)
      decreases |dates|
    {
      NonEmpty(dates);
      var d :| d in dates;
      dates := dates - {d};
      if d < first && (prior.None? || d > prior.value) { prior := Some(d); }
    }
  }

  method MarkDays(rows: seq<Bar>, byDay: map<int, Bar>, fx: map<int, real>, days: seq<int>, cash: int, quantity: int)
    returns (nav: Option<seq<Point>>)
    requires forall d :: if d in byDay then LastBar(rows, d) == Some(byDay[d]) else LastBar(rows, d) == None
    requires HasBars(rows, days)
    ensures nav.None? <==> exists d :: d in days && d !in fx
    ensures nav.Some? ==> |nav.value| == |days|
    ensures nav.Some? ==> forall i :: 0 <= i < |days| ==>
              days[i] in fx && nav.value[i] == Point(days[i], cash + quantity * Cents(LastBar(rows, days[i]).value.close, fx[days[i]]))
  {
    var points: seq<Point> := [];
    for i := 0 to |days|
      invariant |points| == i && forall j :: 0 <= j < i ==> days[j] in fx
      invariant forall j :: 0 <= j < i ==>
                  points[j] == Point(days[j], cash + quantity * Cents(LastBar(rows, days[j]).value.close, fx[days[j]]))
    {
      var day := days[i];
      if day !in fx { return None; }
      assert day in byDay;
      points := points + [Point(day, cash + quantity * Cents(byDay[day].close, fx[day]))];
    }
    nav := Some(points);
  }

  /**
    No benchmark when a day has no bar; otherwise the first failure met, or the order and every day's value.
   */
  method BuyAndHold(rows: seq<Bar>, fx: map<int, real>, days: seq<int>) returns (r: Result<Option<Benchmark>, Failure>)
    ensures r == Ok(None) <==> !HasBars(rows, days)
    ensures r == Err(NoDays) <==> days == []
    ensures r == Err(NoPriorRate) <==> days != [] && HasBars(rows, days) && !HasPrior(fx, days[0])
    ensures r == Err(ZeroOpening) <==> days != [] && HasBars(rows, days) && OpensAtZero(rows, fx, days[0])
    ensures r == Err(MissingRate) <==>
              && days != [] && HasBars(rows, days) && HasPrior(fx, days[0]) && !OpensAtZero(rows, fx, days[0])
              && exists d :: d in days && d !in fx
    ensures r.Ok? && r.value.Some? ==> days != [] && HasBars(rows, days) && exists p ::
              IsPrior(fx, days[0], p) && Bought(rows, fx, days, p, r.value.value)
  {
    var byDay := IndexBars(rows);
    for i := 0 to |days|
      invariant forall j :: 0 <= j < i ==> days[j] in byDay
    {
      if days[i] !in byDay {
        assert LastBar(rows, days[i]).None?;
        return Ok(None);
      }
    }
    if days == [] { return Err(NoDays); }
    var first := days[0];
    var prior := LatestBefore(fx, first);
    if prior.None? { return Err(NoPriorRate); }
    assert LastBar(rows, first) == Some(byDay[first]);
    var opening := Cents(byDay[first].open, fx[prior.value]);
    if opening == 0 { return Err(ZeroOpening); }
    var quantity := Quantity(opening);
    var fee := Fee(quantity * opening);
    var cash := STAKE - quantity * opening - fee;
    var nav := MarkDays(rows, byDay, fx, days, cash, quantity);
    if nav.None? { return Err(MissingRate); }
    var b := Benchmark(nav.value, cash, quantity, opening, fee);
    assert Bought(rows, fx, days, prior.value, b);
    r := Ok(Some(b));
  }

  /**
    On a positive opening the benchmark never borrows, and its first value is the stake less the fee plus
    the units' move from open to close.
   */
  lemma FirstDayValue(rows: seq<Bar>, fx: map<int, real>, days: seq<int>, prior: int, b: Benchmark)
    requires days != [] && HasBars(rows, days) && prior in fx && Bought(rows, fx, days, prior, b)
    requires b.price > 0
    ensures b.cash >= 0
    ensures days[0] in fx
    ensures var close := Cents(LastBar(rows, days[0]).value.close, fx[days[0]]);
            b.nav[0] == Point(days[0], STAKE - b.fee + b.quantity * (close - b.price))
  {
    CashNeverShort(b.price);
    assert Marked(rows, fx, b, days[0], b.nav[0]);
    FirstMark(b.quantity, b.price, b.fee, Cents(LastBar(rows, days[0]).value.close, fx[days[0]]));
  }

  lemma FirstMark(quantity: int, price: int, fee: int, close: int)
    ensures STAKE - quantity * price - fee + quantity * close == STAKE - fee + quantity * (close - price)
  {
  }
}
