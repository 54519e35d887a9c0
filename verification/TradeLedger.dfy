/**
  Two independent checks of a finished run: the event ledger, which replays only fills,
  and the interval accounting, which splits growth into captured, missed and fee factors.
  Log returns are kept as factors: sums of logs become products.
 */
module TradeLedger {
  import opened Common
  import opened RealArithmetic
  import opened BreakoutEngine
  import opened OrderBook
  import opened RunHistory

  // ---------------------------------------------------------------- the event ledger

  datatype Account = Account(cash: real, units: real)
  {
    function Value(close: real): real { cash + units * close }
  }

  function Settle(a: Account, bar: Bar, side: Option<Side>, fee: real): Account
    requires bar.open > 0.0 && fee >= 0.0
  {
    match side
    case None => a
    case Some(Buy) => Account(0.0, a.cash / (bar.open * (1.0 + fee)))
    case Some(Sell) => Account(a.units * bar.open * (1.0 - fee), 0.0)
  }

  /** The ledger before session `t`, given only the fills. */
  function Balance(k: Setup, sides: map<nat, Side>, t: nat): Account
    requires k.Valid() && k.First() <= t <= k.Last()
  {
    if t == k.First() then Account(1.0, 0.0)
    else Settle(Balance(k, sides, t - 1), k.bars[t - 1], Lookup(sides, t - 1), k.fee)
  }

  /** The ledger's value at the close of session `t`. */
  function LedgerValue(k: Setup, sides: map<nat, Side>, t: nat): real
    requires k.Valid() && k.First() <= t < k.Last()
  {
    Balance(k, sides, t + 1).Value(k.bars[t].close)
  }

  method SettleFill(bar: Bar, side: Option<Side>, fee: real, cash0: real, units0: real) returns (cash: real, units: real)
    requires bar.open > 0.0 && fee >= 0.0
    ensures Account(cash, units) == Settle(Account(cash0, units0), bar, side, fee)
  {
    cash, units := cash0, units0;
    if side == Some(Buy) {
      units := cash / (bar.open * (1.0 + fee));
      cash := 0.0;
    } else if side == Some(Sell) {
      cash := units * bar.open * (1.0 - fee);
      units := 0.0;
    }
  }

  /** The replay loop, with no lifecycle state. */
  method Replay(k: Setup, events: seq<Order>) returns (checked: seq<real>)
    requires k.Valid()
    ensures |checked| == k.Last() - k.First()
    ensures forall i :: 0 <= i < |checked| ==> checked[i] == LedgerValue(k, ByFill(events), k.First() + i)
  {
    var byFill := ByFill(events);
    var cash, units := 1.0, 0.0;
    checked := [];
    var t := k.First();
    while t < k.Last()
      invariant k.First() <= t <= k.Last() && |checked| == t - k.First()
      invariant Balance(k, byFill, t) == Account(cash, units)
      invariant forall i :: 0 <= i < |checked| ==> checked[i] == LedgerValue(k, byFill, k.First() + i)
    {
      cash, units := SettleFill(k.bars[t], Lookup(byFill, t), k.fee, cash, units);
      assert Balance(k, byFill, t + 1) == Account(cash, units);
      var value := cash + units * k.bars[t].close;
      assert value == LedgerValue(k, byFill, t);
      checked := checked + [value];
      t := t + 1;
    }
  }

  /** A whole-account purchase leaves the same cash and units whichever way it is computed. */
  lemma PurchaseAgrees(k: Setup, cash: real, open: real)
    requires k.Valid() && k.target == 1.0 && cash > 0.0 && open > 0.0
    ensures cash - Notional(k, cash) * (1.0 + k.fee) == 0.0
    ensures Notional(k, cash) / open == cash / (open * (1.0 + k.fee))
  {
    NotionalIsFunded(k, cash);
    var x := Notional(k, cash) / open;
    calc {
      x * (open * (1.0 + k.fee));
      (x * open) * (1.0 + k.fee);
      cash;
    }
    ProductPositive(open, 1.0 + k.fee);
  }

  lemma SettleFollowsFill(k: Setup, s: State, t: nat, f: State, kind: FillKind)
    requires k.Valid() && k.target == 1.0 && t < |k.bars| && Fills(k, s, t, f, kind) && Funded(k, s)
    requires s.pending.BuyOrder? ==> s.units == 0.0
    requires s.pending.SellOrder? ==> s.units > 0.0
    ensures Settle(Account(s.cash, s.units), k.bars[t], DueSide(s.pending, t), k.fee) == Account(f.cash, f.units)
  {
    if kind == Bought {
      PurchaseAgrees(k, s.cash, k.bars[t].open);
    }
  }

  lemma LedgerStep(k: Setup, h: seq<State>, t: nat)
    requires Story(k, h) && k.target == 1.0 && k.First() <= t < |h| - 1
    ensures Settle(Account(h[t].cash, h[t].units), k.bars[t], DueSide(h[t].pending, t), k.fee) == Account(h[t + 1].cash, h[t + 1].units)
    ensures h[t + 1].mark == Account(h[t + 1].cash, h[t + 1].units).Value(k.bars[t].close)
  {
    var f, kind, d, choice := Step(k, h, t);
    SettleFollowsFill(k, h[t], t, f, kind);
  }

  lemma {:induction false} LedgerFollows(k: Setup, h: seq<State>, t: nat, u: nat)
    requires Story(k, h) && k.target == 1.0 && k.First() <= t <= u < |h|
    ensures Balance(k, ByFill(h[u].events), t) == Account(h[t].cash, h[t].units)
    decreases t
  {
    if t > k.First() {
      LedgerFollows(k, h, t - 1, u);
      DueIsListed(k, h, t - 1, u);
      LedgerStep(k, h, t - 1);
    }
  }

  /**
    The check that compares the replay with the engine's account can never fail: on every run
    the ledger value at every session is the engine's own.
   */
  lemma LedgerEqualsEngine(k: Setup, run: Run, t: nat)
    requires k.target == 1.0 && Produces(k, run) && k.First() <= t < k.Last()
    ensures t < |run.nav| && run.nav[t] == Some(LedgerValue(k, ByFill(run.events), t))
  {
    var h := StoryOf(k, run);
    assert Shows(k, h, run, t);
    LedgerFollows(k, h, t + 1, k.Last());
    LedgerStep(k, h, t);
  }

  // ---------------------------------------------------------------- interval accounting

  function Held(move: real, held: bool): real { if held then move else 1.0 }

  /** What the position earned in one session, overnight then daytime. */
  function Captured(previous: real, bar: Bar, before: bool, after: bool): real
    requires previous > 0.0 && bar.open > 0.0
  {
    Held(bar.open / previous, before) * Held(bar.close / bar.open, after)
  }

  /** What the market earned while the account was out. */
  function Missed(previous: real, bar: Bar, before: bool, after: bool): real
    requires previous > 0.0 && bar.open > 0.0
  {
    Captured(previous, bar, !before, !after)
  }

  function FeeFactor(side: Option<Side>, fee: real): real
    requires 0.0 <= fee < 1.0
  {
    match side
    case None => 1.0
    case Some(Buy) => 1.0 + fee
    case Some(Sell) => 1.0 / (1.0 - fee)
  }

  /** Account growth from `n1` to `n2` is what was captured over what was paid. */
  predicate Tallies(n1: real, n2: real, previous: real, bar: Bar, before: bool, after: bool, side: Option<Side>, fee: real)
    requires previous > 0.0 && bar.open > 0.0 && 0.0 <= fee < 1.0
  {
    n2 * FeeFactor(side, fee) == n1 * Captured(previous, bar, before, after)
  }

  /** The per-session check; a missing or nonpositive account value fails it, as its logarithm would. */
  predicate Reconciles(bars: seq<Bar>, run: Run, fee: real, t: nat)
    requires 1 <= t < |bars| && |run.nav| == |run.held| == |bars| && 0.0 <= fee < 1.0
    requires bars[t - 1].close > 0.0 && bars[t].open > 0.0
  {
    && run.nav[t - 1].Some? && run.nav[t - 1].value > 0.0 && run.nav[t].Some? && run.nav[t].value > 0.0
    && Tallies(run.nav[t - 1].value, run.nav[t].value, bars[t - 1].close, bars[t], run.held[t - 1], run.held[t],
               Lookup(ByFill(run.events), t), fee)
  }

  /** Growth factors of an interval. */
  datatype Interval = Interval(net: real, captured: real, uninvested: real, fees: real)

  lemma CapturedTimesMissed(previous: real, bar: Bar, before: bool, after: bool)
    requires previous > 0.0 && bar.open > 0.0 && bar.close > 0.0
    ensures Captured(previous, bar, before, after) > 0.0 && Missed(previous, bar, before, after) > 0.0
    ensures Captured(previous, bar, before, after) * Missed(previous, bar, before, after) * previous == bar.close
  {
    var a, b := bar.open / previous, bar.close / bar.open;
    QuotientPositive(bar.open, previous);
    QuotientPositive(bar.close, bar.open);
    ProductPositive(a, b);
    calc {
      a * b * previous;
      (a * previous) * b;
      bar.close;
    }
  }

  lemma FeeFactorAtLeastOne(side: Option<Side>, fee: real)
    requires 0.0 <= fee < 1.0
    ensures FeeFactor(side, fee) >= 1.0
  {
    if side == Some(Sell) {
      var x := FeeFactor(side, fee);
      var y := 1.0 - fee;
      assert x * y == 1.0;
      Cancel(1.0, x, y);
    }
  }

  /** Factor products over one more session. */
  lemma ChainStep(i: Interval, growth: real, gross: real, missing: real, paid: real,
                  n0: real, n1: real, n2: real, c0: real, c1: real, c2: real)
    requires i.net * n0 == n1 && growth * n1 == n2
    requires i.net * i.fees == i.captured && growth * paid == gross
    requires i.captured * i.uninvested * c0 == c1 && gross * missing * c1 == c2
    ensures (i.net * growth) * n0 == n2
    ensures (i.net * growth) * (i.fees * paid) == i.captured * gross
    ensures (i.captured * gross) * (i.uninvested * missing) * c0 == c2
  {
    assert (i.net * growth) * n0 == (i.net * n0) * growth;
    assert (i.net * growth) * (i.fees * paid) == (i.net * i.fees) * (growth * paid);
    assert (i.captured * gross) * (i.uninvested * missing) * c0 == (gross * missing) * (i.captured * i.uninvested * c0);
  }

  lemma GrowthFactor(n1: real, n2: real, gross: real, paid: real)
    requires n1 > 0.0 && n2 > 0.0 && n2 * paid == n1 * gross
    ensures n2 / n1 > 0.0 && (n2 / n1) * n1 == n2 && (n2 / n1) * paid == gross
  {
    QuotientPositive(n2, n1);
    var g := n2 / n1;
    assert g * n1 == n2;
    assert (g * paid) * n1 == gross * n1;
    Cancel(g * paid, gross, n1);
    Cancel(gross, g * paid, n1);
  }

  lemma FeesOnlyCost(net: real, fees: real, captured: real)
    requires net * fees == captured && net > 0.0 && fees >= 1.0
    ensures captured >= net
  {
    ProductMonotone(1.0, fees, net);
  }

  /** The four running factors over sessions `lo` to `t`. */
  ghost predicate Splits(bars: seq<Bar>, run: Run, lo: nat, t: nat, i: Interval)
    requires 1 <= lo < t <= |bars| && |run.nav| == |bars|
  {
    && run.nav[lo - 1].Some? && run.nav[lo - 1].value > 0.0 && run.nav[t - 1].Some? && run.nav[t - 1].value > 0.0
    && SplitValues(i, run.nav[lo - 1].value, run.nav[t - 1].value, bars[lo - 1].close, bars[t - 1].close)
  }

  /** Factors that carry the account from `n0` to `n1` while the market goes from `c0` to `c1`. */
  ghost predicate SplitValues(i: Interval, n0: real, n1: real, c0: real, c1: real) {
    && i.net * n0 == n1
    && i.net > 0.0 && i.fees >= 1.0
    && i.net * i.fees == i.captured
    && i.captured * i.uninvested * c0 == c1
  }

  /** One session's factors, as the loop computes them. */
  function Factors(bars: seq<Bar>, run: Run, fee: real, t: nat): Interval
    requires 1 <= t < |bars| && |run.nav| == |run.held| == |bars| && 0.0 <= fee < 1.0
    requires bars[t - 1].close > 0.0 && bars[t].open > 0.0 && Reconciles(bars, run, fee, t)
  {
    Interval(run.nav[t].value / run.nav[t - 1].value,
             Captured(bars[t - 1].close, bars[t], run.held[t - 1], run.held[t]),
             Missed(bars[t - 1].close, bars[t], run.held[t - 1], run.held[t]),
             FeeFactor(Lookup(ByFill(run.events), t), fee))
  }

  function Times(i: Interval, j: Interval): Interval {
    Interval(i.net * j.net, i.captured * j.captured, i.uninvested * j.uninvested, i.fees * j.fees)
  }

  lemma SessionSplits(n1: real, n2: real, previous: real, bar: Bar, before: bool, after: bool, side: Option<Side>, fee: real)
    requires previous > 0.0 && bar.open > 0.0 && bar.close > 0.0 && 0.0 <= fee < 1.0 && n1 > 0.0 && n2 > 0.0
    requires Tallies(n1, n2, previous, bar, before, after, side, fee)
    ensures SplitValues(Interval(n2 / n1, Captured(previous, bar, before, after), Missed(previous, bar, before, after), FeeFactor(side, fee)),
                        n1, n2, previous, bar.close)
  {
    CapturedTimesMissed(previous, bar, before, after);
    FeeFactorAtLeastOne(side, fee);
    Splitting(Captured(previous, bar, before, after), Missed(previous, bar, before, after), FeeFactor(side, fee),
              n1, n2, previous, bar.close);
  }

  lemma Splitting(captured: real, missed: real, fees: real, n1: real, n2: real, c1: real, c2: real)
    requires n1 > 0.0 && n2 > 0.0 && n2 * fees == n1 * captured && captured * missed * c1 == c2 && fees >= 1.0
    ensures SplitValues(Interval(n2 / n1, captured, missed, fees), n1, n2, c1, c2)
  {
    GrowthFactor(n1, n2, captured, fees);
  }

  lemma FactorsSplit(bars: seq<Bar>, run: Run, fee: real, t: nat)
    requires 1 <= t < |bars| && |run.nav| == |run.held| == |bars| && 0.0 <= fee < 1.0
    requires bars[t - 1].close > 0.0 && bars[t].open > 0.0 && bars[t].close > 0.0 && Reconciles(bars, run, fee, t)
    ensures Splits(bars, run, t, t + 1, Factors(bars, run, fee, t))
  {
    SessionSplits(run.nav[t - 1].value, run.nav[t].value, bars[t - 1].close, bars[t], run.held[t - 1], run.held[t],
                  Lookup(ByFill(run.events), t), fee);
  }

  lemma SplitsExtend(bars: seq<Bar>, run: Run, lo: nat, t: nat, i: Interval, j: Interval)
    requires 1 <= lo < t < |bars| && |run.nav| == |bars|
    requires Splits(bars, run, lo, t, i) && Splits(bars, run, t, t + 1, j)
    ensures Splits(bars, run, lo, t + 1, Times(i, j))
  {
    SplitsChain(i, j, run.nav[lo - 1].value, run.nav[t - 1].value, run.nav[t].value,
                bars[lo - 1].close, bars[t - 1].close, bars[t].close);
  }

  lemma SplitsChain(i: Interval, j: Interval, n0: real, n1: real, n2: real, c0: real, c1: real, c2: real)
    requires SplitValues(i, n0, n1, c0, c1) && SplitValues(j, n1, n2, c1, c2)
    ensures SplitValues(Times(i, j), n0, n2, c0, c2)
  {
    ChainStep(i, j.net, j.captured, j.uninvested, j.fees, n0, n1, n2, c0, c1, c2);
    ProductPositive(i.net, j.net);
    ProductMonotone(1.0, j.fees, i.fees);
  }

  /**
    The decomposition of sessions `lo` to `hi`. It is rejected exactly when some session's account
    growth is not its captured move less its fee; an accepted one telescopes to the two end points.
   */
  method IntervalAccounting(bars: seq<Bar>, run: Run, lo: nat, hi: nat, fee: real) returns (r: Option<Interval>)
    requires 1 <= lo < hi <= |bars| && |run.nav| == |run.held| == |bars| && 0.0 <= fee < 1.0
    requires forall t :: 0 <= t < |bars| ==> bars[t].open > 0.0 && bars[t].close > 0.0
    ensures r.Some? <==> forall t :: lo <= t < hi ==> Reconciles(bars, run, fee, t)
    ensures r.Some? ==>
      && run.nav[lo - 1].Some? && run.nav[hi - 1].Some? && run.nav[lo - 1].value > 0.0
      && r.value.net * run.nav[lo - 1].value == run.nav[hi - 1].value
      && r.value.net * r.value.fees == r.value.captured
      && r.value.captured * r.value.uninvested * bars[lo - 1].close == bars[hi - 1].close
      && r.value.captured >= r.value.net > 0.0
  {
    var total := Interval(1.0, 1.0, 1.0, 1.0);
    var t := lo;
    while t < hi
      invariant lo <= t <= hi
      invariant forall d :: lo <= d < t ==> Reconciles(bars, run, fee, d)
      invariant t == lo ==> total == Interval(1.0, 1.0, 1.0, 1.0)
      invariant t > lo ==> Splits(bars, run, lo, t, total)
    {
      if !Reconciles(bars, run, fee, t) {
        return None;
      }
      var factors := Factors(bars, run, fee, t);
      FactorsSplit(bars, run, fee, t);
      if t > lo {
        SplitsExtend(bars, run, lo, t, total, factors);
      } else {
        TimesOne(factors);
      }
      total := Times(total, factors);
      t := t + 1;
    }
    FeesOnlyCost(total.net, total.fees, total.captured);
    r := Some(total);
  }

  lemma TimesOne(j: Interval)
    ensures Times(Interval(1.0, 1.0, 1.0, 1.0), j) == j
  {
  }

  // ---------------------------------------------------------------- every run reconciles

  lemma HoldGrowth(units: real, previous: real, open: real, close: real, a: real, b: real)
    requires a * previous == open && b * open == close
    ensures (units * previous) * (a * b) == units * close
  {
    assert (units * previous) * (a * b) == units * ((a * previous) * b);
  }

  lemma BuyGrowth(cash: real, units: real, open: real, close: real, fee: real, b: real)
    requires units * (open * (1.0 + fee)) == cash && b * open == close
    ensures cash * b == (units * close) * (1.0 + fee)
  {
    assert cash * b == (units * (b * open)) * (1.0 + fee);
  }

  lemma SellGrowth(units: real, previous: real, open: real, keep: real, a: real, paid: real)
    requires a * previous == open && paid * keep == 1.0
    ensures (units * previous) * a == (units * open * keep) * paid
  {
    assert (units * open * keep) * paid == (units * open) * (paid * keep);
    assert (units * previous) * a == units * (a * previous);
  }

  lemma GrowthHeld(a: Account, previous: real, bar: Bar, fee: real)
    requires previous > 0.0 && bar.open > 0.0 && bar.close > 0.0 && 0.0 <= fee < 1.0
    requires (a.cash == 0.0 && a.units > 0.0) || (a.cash > 0.0 && a.units == 0.0)
    ensures Tallies(a.Value(previous), a.Value(bar.close), previous, bar, a.units > 0.0, a.units > 0.0, None, fee)
  {
    var x, y := bar.open / previous, bar.close / bar.open;
    assert x * previous == bar.open && y * bar.open == bar.close;
    HoldGrowth(a.units, previous, bar.open, bar.close, x, y);
  }

  lemma GrowthBought(a: Account, previous: real, bar: Bar, fee: real)
    requires previous > 0.0 && bar.open > 0.0 && bar.close > 0.0 && 0.0 <= fee < 1.0
    requires a.cash > 0.0 && a.units == 0.0
    ensures var b := Settle(a, bar, Some(Buy), fee);
      Tallies(a.Value(previous), b.Value(bar.close), previous, bar, false, b.units > 0.0, Some(Buy), fee)
  {
    var y := bar.close / bar.open;
    assert y * bar.open == bar.close;
    var p := bar.open * (1.0 + fee);
    ProductPositive(bar.open, 1.0 + fee);
    QuotientPositive(a.cash, p);
    var u := a.cash / p;
    assert u * p == a.cash;
    BuyGrowth(a.cash, u, bar.open, bar.close, fee, y);
  }

  lemma GrowthSold(a: Account, previous: real, bar: Bar, fee: real)
    requires previous > 0.0 && bar.open > 0.0 && bar.close > 0.0 && 0.0 <= fee < 1.0
    requires a.cash == 0.0 && a.units > 0.0
    ensures var b := Settle(a, bar, Some(Sell), fee);
      Tallies(a.Value(previous), b.Value(bar.close), previous, bar, true, b.units > 0.0, Some(Sell), fee)
  {
    var x, paid := bar.open / previous, 1.0 / (1.0 - fee);
    assert x * previous == bar.open && paid * (1.0 - fee) == 1.0;
    SellGrowth(a.units, previous, bar.open, 1.0 - fee, x, paid);
  }

  /** With all money in one place, a session's growth is its captured move less its fee. */
  lemma GrowthOfSession(a: Account, previous: real, bar: Bar, side: Option<Side>, fee: real)
    requires previous > 0.0 && bar.open > 0.0 && bar.close > 0.0 && 0.0 <= fee < 1.0
    requires (a.cash == 0.0 && a.units > 0.0) || (a.cash > 0.0 && a.units == 0.0)
    requires side == Some(Buy) ==> a.units == 0.0
    requires side == Some(Sell) ==> a.units > 0.0
    ensures var b := Settle(a, bar, side, fee);
      Tallies(a.Value(previous), b.Value(bar.close), previous, bar, a.units > 0.0, b.units > 0.0, side, fee)
  {
    match side
    case None => GrowthHeld(a, previous, bar, fee);
    case Some(Buy) => GrowthBought(a, previous, bar, fee);
    case Some(Sell) => GrowthSold(a, previous, bar, fee);
  }

  lemma MoneyInOnePlace(k: Setup, h: seq<State>, t: nat)
    requires Story(k, h) && k.target == 1.0 && k.First() <= t < |h|
    ensures (h[t].cash == 0.0 && h[t].units > 0.0) || (h[t].cash > 0.0 && h[t].units == 0.0)
    ensures h[t].pending.BuyOrder? ==> h[t].units == 0.0
    ensures h[t].pending.SellOrder? ==> h[t].units > 0.0
  {
    assert Sound(k, h, t);
  }

  lemma SessionReconciles(k: Setup, h: seq<State>, t: nat)
    requires Story(k, h) && k.target == 1.0 && k.First() < t < |h| - 1
    ensures h[t].mark > 0.0 && h[t + 1].mark > 0.0
    ensures Tallies(h[t].mark, h[t + 1].mark, k.bars[t - 1].close, k.bars[t], h[t].Held(), h[t + 1].Held(),
                    DueSide(h[t].pending, t), k.fee)
  {
    LedgerStep(k, h, t - 1);
    LedgerStep(k, h, t);
    MoneyInOnePlace(k, h, t);
    MoneyInOnePlace(k, h, t + 1);
    MarkPositive(h[t].cash, h[t].units, k.bars[t - 1].close);
    MarkPositive(h[t + 1].cash, h[t + 1].units, k.bars[t].close);
    GrowthOfSession(Account(h[t].cash, h[t].units), k.bars[t - 1].close, k.bars[t], DueSide(h[t].pending, t), k.fee);
  }

  lemma MarkPositive(cash: real, units: real, close: real)
    requires (cash == 0.0 && units > 0.0) || (cash > 0.0 && units == 0.0)
    requires close > 0.0
    ensures cash + units * close > 0.0
  {
    if units > 0.0 {
      ProductPositive(units, close);
    }
  }

  lemma StoryReconciles(k: Setup, h: seq<State>, run: Run, t: nat)
    requires Tells(k, h, run) && k.target == 1.0 && k.First() < t < k.Last()
    requires |run.nav| == |run.held| == |k.bars|
    ensures Reconciles(k.bars, run, k.fee, t)
  {
    assert Shows(k, h, run, t - 1) && Shows(k, h, run, t);
    SessionReconciles(k, h, t);
    DueIsListed(k, h, t, k.Last());
  }

  /** No session of any run is ever rejected by the interval accounting at the run's own fee. */
  lemma EveryRunReconciles(k: Setup, run: Run, t: nat)
    requires k.target == 1.0 && Produces(k, run) && k.First() < t < k.Last()
    ensures Reconciles(k.bars, run, k.fee, t)
  {
    var h := StoryOf(k, run);
    StoryReconciles(k, h, run, t);
  }
}
