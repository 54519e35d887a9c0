/**
  Attribution of an evaluation window to trades: each trade gets the account growth of its own
  clipped window, and the windows together account for the whole growth.
 */
module EpisodeTiling {
  import opened Common
  import opened RealArithmetic
  import opened BreakoutEngine
  import opened RunHistory
  import opened RunTheorems
  import opened SignalRecords
  import opened TradeHistory
  import opened TradeLedger

  function Values(nav: seq<Option<real>>): (v: seq<real>)
    ensures |v| == |nav| && forall t :: 0 <= t < |nav| && nav[t].Some? ==> v[t] == nav[t].value
  {
    seq(|nav|, t requires 0 <= t < |nav| => if nav[t].Some? then nav[t].value else 0.0)
  }

  /** Trades the report skips: not yet entered, or already out before the window. */
  predicate Touches(e: Episode, lo: nat, hi: nat) {
    !(e.entryIndex >= hi || (e.exit.Some? && e.exit.value.index < lo))
  }

  predicate ClosedBy(e: Episode, hi: nat) {
    e.exit.Some? && e.exit.value.index < hi
  }

  ghost predicate Positive(nav: seq<real>, a: int, b: int) {
    forall t :: 0 <= t < |nav| && a <= t < b ==> nav[t] > 0.0
  }

  ghost predicate Lasting(es: seq<Episode>) {
    forall i :: 0 <= i < |es| ==> es[i].exit.Some? ==> es[i].entryIndex < es[i].exit.value.index
  }

  /** Account growth over one trade's part of the window. */
  function Contribution(nav: seq<real>, e: Episode, lo: nat, hi: nat): real
    requires 1 <= lo <= hi <= |nav|
    requires e.exit.Some? ==> e.entryIndex < e.exit.value.index
    requires Positive(nav, lo - 1, hi)
  {
    if !Touches(e, lo, hi) then 1.0 else
      var start := MaxInt(lo, e.entryIndex);
      var end := MinInt(hi, if ClosedBy(e, hi) then e.exit.value.index + 1 else hi);
      nav[end - 1] / nav[start - 1]
  }

  ghost predicate Proper(es: seq<Episode>) {
    && Separate(es)
    && Lasting(es)
  }

  function Product(nav: seq<real>, es: seq<Episode>, lo: nat, hi: nat): real
    requires 1 <= lo <= hi <= |nav|
    requires Lasting(es)
    requires Positive(nav, lo - 1, hi)
  {
    if es == [] then 1.0
    else Compound(Product(nav, es[..|es| - 1], lo, hi), Contribution(nav, es[|es| - 1], lo, hi))
  }

  /** Sessions whose account move belongs to the trade, its exit session included. */
  predicate Covers(e: Episode, t: nat) {
    e.entryIndex <= t && (e.exit.Some? ==> t <= e.exit.value.index)
  }

  lemma RatioChain(a: real, b: real, c: real)
    requires a > 0.0 && b > 0.0
    ensures c / a == (b / a) * (c / b)
  {
    var x, y := b / a, c / b;
    assert x * a == b && y * b == c;
    assert (x * y) * a == c;
  }

  function Growth(nav: seq<real>, covered: bool, t: nat): real
    requires 1 <= t < |nav| && nav[t - 1] > 0.0
  {
    if covered then nav[t] / nav[t - 1] else 1.0
  }

  ghost predicate AnyCovers(es: seq<Episode>, t: nat) {
    exists i :: 0 <= i < |es| && Covers(es[i], t)
  }

  lemma ContributionGrows(nav: seq<real>, e: Episode, lo: nat, hi: nat)
    requires 1 <= lo <= hi < |nav|
    requires e.exit.Some? ==> e.entryIndex < e.exit.value.index
    requires Positive(nav, lo - 1, hi + 1)
    ensures Contribution(nav, e, lo, hi + 1) == Compound(Contribution(nav, e, lo, hi), Growth(nav, Covers(e, hi), hi))
  {
    if Covers(e, hi) && e.entryIndex < hi {
      RatioChain(nav[MaxInt(lo, e.entryIndex) - 1], nav[hi - 1], nav[hi]);
    }
  }

  lemma AtMostOneCovers(es: seq<Episode>, t: nat)
    requires Proper(es) && es != []
    ensures AnyCovers(es, t) <==> AnyCovers(es[..|es| - 1], t) || Covers(es[|es| - 1], t)
    ensures !(AnyCovers(es[..|es| - 1], t) && Covers(es[|es| - 1], t))
  {
    var rest := es[..|es| - 1];
    if AnyCovers(es, t) {
      var i :| 0 <= i < |es| && Covers(es[i], t);
      assert i < |rest| ==> rest[i] == es[i];
    }
    if AnyCovers(rest, t) {
      var i :| 0 <= i < |rest| && Covers(rest[i], t);
      assert es[i] == rest[i];
    }
  }

  lemma GrowthsCombine(nav: seq<real>, x: bool, y: bool, t: nat, p: real, c: real)
    requires 1 <= t < |nav| && nav[t - 1] > 0.0 && !(x && y)
    ensures Compound(Compound(p, Growth(nav, x, t)), Compound(c, Growth(nav, y, t))) == Compound(Compound(p, c), Growth(nav, x || y, t))
  {
  }

  lemma {:induction false} ProductGrows(nav: seq<real>, es: seq<Episode>, lo: nat, hi: nat)
    requires 1 <= lo <= hi < |nav| && Proper(es)
    requires Positive(nav, lo - 1, hi + 1)
    ensures Product(nav, es, lo, hi + 1) == Compound(Product(nav, es, lo, hi), Growth(nav, AnyCovers(es, hi), hi))
  {
    if es != [] {
      var rest, last := es[..|es| - 1], es[|es| - 1];
      ProductGrows(nav, rest, lo, hi);
      ContributionGrows(nav, last, lo, hi);
      AtMostOneCovers(es, hi);
      GrowthsCombine(nav, AnyCovers(rest, hi), Covers(last, hi), hi, Product(nav, rest, lo, hi), Contribution(nav, last, lo, hi));
    }
  }

  lemma ContributionStarts(nav: seq<real>, e: Episode, lo: nat)
    requires 1 <= lo <= |nav| && nav[lo - 1] > 0.0
    requires e.exit.Some? ==> e.entryIndex < e.exit.value.index
    ensures Contribution(nav, e, lo, lo) == 1.0
  {
    if Touches(e, lo, lo) {
      assert MaxInt(lo, e.entryIndex) == lo;
      assert nav[lo - 1] / nav[lo - 1] == 1.0;
    }
  }

  lemma {:induction false} ProductStarts(nav: seq<real>, es: seq<Episode>, lo: nat)
    requires 1 <= lo <= |nav| && nav[lo - 1] > 0.0
    requires Lasting(es)
    ensures Product(nav, es, lo, lo) == 1.0
  {
    if es != [] {
      ProductStarts(nav, es[..|es| - 1], lo);
      ContributionStarts(nav, es[|es| - 1], lo);
    }
  }

  lemma TileOnce(first: real, p: real, n1: real, n2: real, g: real)
    requires Compound(first, p) == n1 && Compound(g, n1) == n2
    ensures Compound(first, Compound(p, g)) == n2
  {
    assert first * (p * g) == (first * p) * g;
  }

  lemma GrowthCarries(nav: seq<real>, covered: bool, t: nat)
    requires 1 <= t < |nav| && nav[t - 1] > 0.0 && (!covered ==> nav[t] == nav[t - 1])
    ensures Compound(Growth(nav, covered, t), nav[t - 1]) == nav[t]
  {
    CompoundUnits(nav[t - 1]);
  }

  ghost predicate Idle(nav: seq<real>, es: seq<Episode>, t: nat)
    requires 1 <= t < |nav|
  {
    !AnyCovers(es, t) ==> nav[t] == nav[t - 1]
  }

  /** Where no trade covers a session the account does not move; then the windows tile everything. */
  lemma {:induction false} WindowsTile(nav: seq<real>, es: seq<Episode>, lo: nat, hi: nat)
    requires 1 <= lo <= hi <= |nav| && Proper(es)
    requires Positive(nav, lo - 1, hi)
    requires forall t :: lo <= t < hi ==> Idle(nav, es, t)
    ensures Compound(nav[lo - 1], Product(nav, es, lo, hi)) == nav[hi - 1]
    decreases hi
  {
    if hi == lo {
      ProductStarts(nav, es, lo);
    } else {
      WindowsTile(nav, es, lo, hi - 1);
      ProductGrows(nav, es, lo, hi - 1);
      assert Idle(nav, es, hi - 1);
      var g := Growth(nav, AnyCovers(es, hi - 1), hi - 1);
      GrowthCarries(nav, AnyCovers(es, hi - 1), hi - 1);
      TileOnce(nav[lo - 1], Product(nav, es, lo, hi - 1), nav[hi - 2], nav[hi - 1], g);
    }
  }

  // ---------------------------------------------------------------- on every run of the engine

  lemma RunTradesProper(k: Setup, h: seq<State>, u: nat)
    requires Story(k, h) && k.First() <= u < |h|
    ensures Proper(h[u].Trades())
  {
    TradesAreBooked(k, h, u);
    var s := h[u];
    forall i | 0 <= i < |s.Trades()| ensures s.Trades()[i].exit.Some? ==> s.Trades()[i].entryIndex < s.Trades()[i].exit.value.index {
      if i < |s.closed| { assert Completed(k, s.closed[i]); }
    }
    assert Separate(s.Trades()) by {
      assert forall i :: 0 <= i < |s.closed| ==> Completed(k, s.closed[i]) && s.Trades()[i] == s.closed[i];
    }
  }

  /** Flat at both closes, the account sat still. */
  lemma FlatSessionIsIdle(k: Setup, h: seq<State>, t: nat)
    requires Story(k, h) && k.First() < t < |h| - 1
    requires !h[t].Held() && !h[t + 1].Held()
    ensures h[t + 1].mark == h[t].mark
  {
    FlatMarkIsCash(k, h, t - 1);
    FlatMarkIsCash(k, h, t);
    FlatFillIsNone(k, h, t);
  }

  lemma FlatMarkIsCash(k: Setup, h: seq<State>, t: nat)
    requires Story(k, h) && k.First() <= t < |h| - 1 && !h[t + 1].Held()
    ensures h[t + 1].mark == h[t + 1].cash
  {
    var f, kind, d, choice := Step(k, h, t);
    assert d.units == 0.0 && d.units * k.bars[t].close == 0.0;
  }

  /** A purchase would leave the account long and a sale needs it long, so nothing fills. */
  lemma FlatFillIsNone(k: Setup, h: seq<State>, t: nat)
    requires Story(k, h) && k.First() <= t < |h| - 1 && !h[t].Held() && !h[t + 1].Held()
    ensures h[t + 1].cash == h[t].cash
  {
    var f, kind, d, choice := Step(k, h, t);
  }

  lemma HeldIsCovered(k: Setup, h: seq<State>, t: nat)
    requires Story(k, h) && k.First() < t < |h| - 1 && (h[t].Held() || h[t + 1].Held())
    ensures AnyCovers(h[|h| - 1].Trades(), t)
  {
    var es := h[|h| - 1].Trades();
    if h[t + 1].Held() {
      HeldInsideTrades(k, h, t, |h| - 1);
      assert Covers(es[|h[t + 1].closed|], t);
    } else {
      HeldInsideTrades(k, h, t - 1, |h| - 1);
      assert Covers(es[|h[t].closed|], t);
    }
  }

  lemma UncoveredIsIdle(k: Setup, h: seq<State>, t: nat)
    requires Story(k, h) && k.First() < t < |h| - 1
    requires !AnyCovers(h[|h| - 1].Trades(), t)
    ensures h[t + 1].mark == h[t].mark
  {
    if h[t].Held() || h[t + 1].Held() {
      HeldIsCovered(k, h, t);
    } else {
      FlatSessionIsIdle(k, h, t);
    }
  }

  lemma StoryTiles(k: Setup, h: seq<State>, run: Run, lo: nat, hi: nat)
    requires Tells(k, h, run) && k.First() < lo <= hi <= k.Last() && |run.nav| == |k.bars|
    ensures Proper(run.episodes) && Positive(Values(run.nav), lo - 1, hi)
    ensures Compound(Values(run.nav)[lo - 1], Product(Values(run.nav), run.episodes, lo, hi)) == Values(run.nav)[hi - 1]
  {
    var v, es := Values(run.nav), run.episodes;
    RunTradesProper(k, h, k.Last());
    forall t | 0 <= t < |v| && lo - 1 <= t < hi ensures v[t] > 0.0 {
      assert Shows(k, h, run, t);
      StoryPositive(k, h, t);
    }
    forall t | lo <= t < hi ensures Idle(v, es, t) {
      if !AnyCovers(es, t) {
        assert Shows(k, h, run, t - 1) && Shows(k, h, run, t);
        UncoveredIsIdle(k, h, t);
      }
    }
    WindowsTile(v, es, lo, hi);
  }

  /** At a zero target the one listed trade holds nothing and the account rests everywhere. */
  lemma CashTiles(k: Setup, run: Run, lo: nat, hi: nat)
    requires Produces(k, run) && k.target == 0.0 && k.First() < lo <= hi <= k.Last()
    ensures Proper(run.episodes) && Positive(Values(run.nav), lo - 1, hi)
    ensures Compound(Values(run.nav)[lo - 1], Product(Values(run.nav), run.episodes, lo, hi)) == Values(run.nav)[hi - 1]
  {
    var v, es := Values(run.nav), run.episodes;
    FlatRuns(k, k.Last(), At(k, k.Last()));
    forall t | lo - 1 <= t < hi ensures v[t] == 1.0 {
      ZeroTargetStaysInCash(k, run, t);
    }
    WindowsTile(v, es, lo, hi);
  }

  /**
    The report's last check can never fail: on every run and every window the growth attributed
    to the listed trades multiplies up to the growth of the account.
   */
  lemma EveryWindowTiles(k: Setup, run: Run, lo: nat, hi: nat)
    requires Produces(k, run) && k.First() < lo <= hi <= k.Last()
    ensures Proper(run.episodes) && Positive(Values(run.nav), lo - 1, hi)
    ensures Values(run.nav)[lo - 1] * Product(Values(run.nav), run.episodes, lo, hi) == Values(run.nav)[hi - 1]
  {
    if k.target > 0.0 {
      var h := StoryOf(k, run);
      StoryTiles(k, h, run, lo, hi);
    } else {
      CashTiles(k, run, lo, hi);
    }
    assert Compound(Values(run.nav)[lo - 1], Product(Values(run.nav), run.episodes, lo, hi)) == Values(run.nav)[hi - 1];
  }

  // ---------------------------------------------------------------- one trade's own return

  /** Exit price of a trade closed inside the window, else the last close. */
  function ExitOrMark(k: Setup, e: Episode, hi: nat): real
    requires 1 <= hi <= |k.bars|
  {
    if ClosedBy(e, hi) then e.exit.value.price else k.bars[hi - 1].close
  }

  /** One plus the reported trade return: price move, sale fee if sold, purchase fee. */
  function TradeGrowth(entry: real, price: real, closed: bool, fee: real): real
    requires entry > 0.0 && 0.0 <= fee < 1.0
  {
    price / entry * (if closed then 1.0 - fee else 1.0) / (1.0 + fee)
  }

  lemma OnlyOneTradeAtATime(k: Setup, h: seq<State>, i: nat, d: nat)
    requires Story(k, h) && i < |h[|h| - 1].Trades()|
    requires k.First() <= d < |h| - 1
    ensures var e := h[|h| - 1].Trades()[i];
      && (Spans(e, d) ==> h[d + 1].Held())
      && (d + 1 == e.entryIndex || (e.exit.Some? && d == e.exit.value.index) ==> !h[d + 1].Held())
  {
    var es := h[|h| - 1].Trades();
    RunTradesProper(k, h, |h| - 1);
    HeldInsideTrades(k, h, d, |h| - 1);
    if h[d + 1].Held() {
      SpanExcludes(es, i, |h[d + 1].closed|, d);
    }
  }

  lemma SpanExcludes(es: seq<Episode>, i: nat, j: nat, d: nat)
    requires Proper(es) && i < |es| && j < |es| && Spans(es[j], d)
    ensures d + 1 != es[i].entryIndex && (es[i].exit.Some? ==> d != es[i].exit.value.index)
  {
    if j < i { assert es[j].exit.value.index < es[i].entryIndex; }
    if i < j { assert es[i].exit.value.index < es[j].entryIndex; }
  }

  lemma SideOfSession(k: Setup, h: seq<State>, t: nat)
    requires Story(k, h) && k.target == 1.0 && k.First() <= t < |h| - 1
    ensures DueSide(h[t].pending, t) == if h[t].Held() == h[t + 1].Held() then None else if h[t].Held() then Some(Sell) else Some(Buy)
  {
    LedgerStep(k, h, t);
    MoneyInOnePlace(k, h, t);
    MoneyInOnePlace(k, h, t + 1);
  }

  lemma TradeIsOpened(k: Setup, h: seq<State>, i: nat)
    requires Story(k, h) && i < |h[|h| - 1].Trades()|
    ensures Opened(k, h[|h| - 1].Trades()[i])
  {
    TradesAreBooked(k, h, |h| - 1);
    if i < |h[|h| - 1].closed| { assert Completed(k, h[|h| - 1].closed[i]); }
  }

  /** Before a trade's entry the account is all cash. */
  lemma BeforeEntry(k: Setup, h: seq<State>, i: nat)
    requires Story(k, h) && k.target == 1.0 && i < |h[|h| - 1].Trades()|
    requires k.First() < h[|h| - 1].Trades()[i].entryIndex < |h|
    ensures var e := h[|h| - 1].Trades()[i];
      && e.entryIndex < |k.bars| && e.entry == k.bars[e.entryIndex].open
      && h[e.entryIndex].units == 0.0 && h[e.entryIndex].cash > 0.0 && h[e.entryIndex].mark == h[e.entryIndex].cash
  {
    var x := h[|h| - 1].Trades()[i].entryIndex;
    TradeIsOpened(k, h, i);
    OnlyOneTradeAtATime(k, h, i, x - 1);
    MoneyInOnePlace(k, h, x);
    FlatMarkIsCash(k, h, x - 1);
  }

  /** The entry session spends all the cash. */
  lemma EntrySession(k: Setup, h: seq<State>, i: nat)
    requires Story(k, h) && k.target == 1.0 && i < |h[|h| - 1].Trades()|
    requires var e := h[|h| - 1].Trades()[i];
      k.First() < e.entryIndex < |h| - 1 && e.entryIndex < |k.bars| && Spans(e, e.entryIndex) && h[e.entryIndex].units == 0.0
    ensures var x := h[|h| - 1].Trades()[i].entryIndex;
      Account(h[x + 1].cash, h[x + 1].units) == Settle(Account(h[x].cash, 0.0), k.bars[x], Some(Buy), k.fee)
  {
    var x := h[|h| - 1].Trades()[i].entryIndex;
    OnlyOneTradeAtATime(k, h, i, x);
    SideOfSession(k, h, x);
    LedgerStep(k, h, x);
  }

  /** A session with the trade open at both closes moves no money. */
  lemma HoldingSession(k: Setup, h: seq<State>, i: nat, d: nat)
    requires Story(k, h) && k.target == 1.0 && i < |h[|h| - 1].Trades()| && k.First() < d < |h| - 1
    requires var e := h[|h| - 1].Trades()[i]; Spans(e, d - 1) && Spans(e, d)
    ensures Account(h[d + 1].cash, h[d + 1].units) == Account(h[d].cash, h[d].units)
  {
    OnlyOneTradeAtATime(k, h, i, d - 1);
    OnlyOneTradeAtATime(k, h, i, d);
    SideOfSession(k, h, d);
    LedgerStep(k, h, d);
  }

  /** From its entry to its exit a trade holds the same units, bought with all the cash. */
  lemma {:induction false} UnitsInside(k: Setup, h: seq<State>, i: nat, d: nat)
    requires Story(k, h) && k.target == 1.0 && i < |h[|h| - 1].Trades()|
    requires var e := h[|h| - 1].Trades()[i]; k.First() < e.entryIndex <= d < |h| - 1 && Spans(e, d)
    ensures var e := h[|h| - 1].Trades()[i];
      && e.entryIndex < |k.bars| && e.entry == k.bars[e.entryIndex].open
      && h[e.entryIndex].units == 0.0 && h[e.entryIndex].cash > 0.0
      && h[e.entryIndex].mark == h[e.entryIndex].cash
      && Account(h[d + 1].cash, h[d + 1].units) == Settle(Account(h[e.entryIndex].cash, 0.0), k.bars[e.entryIndex], Some(Buy), k.fee)
    decreases d
  {
    var x := h[|h| - 1].Trades()[i].entryIndex;
    if d == x {
      BeforeEntry(k, h, i);
      EntrySession(k, h, i);
    } else {
      UnitsInside(k, h, i, d - 1);
      HoldingSession(k, h, i, d);
    }
  }

  /** The account a trade's units come to. */
  function Proceeds(cash: real, entry: real, price: real, closed: bool, fee: real): real
    requires entry > 0.0 && 0.0 <= fee < 1.0
  {
    cash / (entry * (1.0 + fee)) * price * (if closed then 1.0 - fee else 1.0)
  }

  lemma GrowthOfTrade(cash: real, entry: real, price: real, closed: bool, fee: real)
    requires cash > 0.0 && entry > 0.0 && 0.0 <= fee < 1.0
    ensures Proceeds(cash, entry, price, closed, fee) / cash == TradeGrowth(entry, price, closed, fee)
  {
    var p, keep := 1.0 + fee, if closed then 1.0 - fee else 1.0;
    ProductPositive(entry, p);
    var units := cash / (entry * p);
    assert units * (entry * p) == cash;
    var q := price / entry;
    assert q * entry == price;
    var z := q * keep / p;
    assert z * p == q * keep;
    calc {
      z * cash;
      (z * p) * entry * units;
      (q * keep) * entry * units;
      (q * entry) * keep * units;
      units * price * keep;
    }
  }

  /** While the trade is open all money is in the units its entry cash bought. */
  lemma UnitsBought(k: Setup, h: seq<State>, i: nat, d: nat)
    requires Story(k, h) && k.target == 1.0 && i < |h[|h| - 1].Trades()|
    requires var e := h[|h| - 1].Trades()[i]; k.First() < e.entryIndex <= d < |h| - 1 && Spans(e, d)
    ensures var e := h[|h| - 1].Trades()[i];
      && e.entry > 0.0 && h[e.entryIndex].cash > 0.0 && h[e.entryIndex].mark == h[e.entryIndex].cash
      && h[d + 1].cash == 0.0 && Holds(h[e.entryIndex].cash, e.entry, k.fee, h[d + 1].units)
  {
    UnitsInside(k, h, i, d);
  }

  ghost predicate Holds(cash: real, entry: real, fee: real, units: real) {
    entry > 0.0 && 0.0 <= fee < 1.0 && units == cash / (entry * (1.0 + fee))
  }

  lemma HoldingIsWorth(cash: real, entry: real, fee: real, units: real, price: real)
    requires Holds(cash, entry, fee, units)
    ensures 0.0 + units * price == Proceeds(cash, entry, price, false, fee)
    ensures units * price * (1.0 - fee) == Proceeds(cash, entry, price, true, fee)
  {
  }

  /** The account at the end of a trade's window, from the cash that bought it. */
  lemma MarkOfTrade(k: Setup, h: seq<State>, i: nat, hi: nat, last: nat)
    requires Story(k, h) && |h| == k.Last() + 1 && k.target == 1.0 && hi <= k.Last() && i < |h[k.Last()].Trades()|
    requires var e := h[k.Last()].Trades()[i];
      && k.First() < e.entryIndex < hi && last == (if ClosedBy(e, hi) then e.exit.value.index else hi - 1)
      && (e.exit.Some? ==> e.entryIndex < e.exit.value.index)
    ensures var e := h[k.Last()].Trades()[i];
      && e.entry > 0.0 && h[e.entryIndex].cash > 0.0 && h[e.entryIndex].mark == h[e.entryIndex].cash
      && h[last + 1].mark == Proceeds(h[e.entryIndex].cash, e.entry, ExitOrMark(k, e, hi), ClosedBy(e, hi), k.fee)
  {
    if ClosedBy(h[k.Last()].Trades()[i], hi) {
      MarkOfClosed(k, h, i, last);
    } else {
      MarkOfOpen(k, h, i, last);
    }
  }

  lemma MarkOfOpen(k: Setup, h: seq<State>, i: nat, d: nat)
    requires Story(k, h) && k.target == 1.0 && i < |h[|h| - 1].Trades()|
    requires var e := h[|h| - 1].Trades()[i]; k.First() < e.entryIndex <= d < |h| - 1 && Spans(e, d)
    ensures var e := h[|h| - 1].Trades()[i];
      && e.entry > 0.0 && h[e.entryIndex].cash > 0.0 && h[e.entryIndex].mark == h[e.entryIndex].cash
      && h[d + 1].mark == Proceeds(h[e.entryIndex].cash, e.entry, k.bars[d].close, false, k.fee)
  {
    var e := h[|h| - 1].Trades()[i];
    UnitsBought(k, h, i, d);
    LedgerStep(k, h, d);
    HoldingIsWorth(h[e.entryIndex].cash, e.entry, k.fee, h[d + 1].units, k.bars[d].close);
  }

  lemma MarkOfClosed(k: Setup, h: seq<State>, i: nat, x: nat)
    requires Story(k, h) && k.target == 1.0 && i < |h[|h| - 1].Trades()|
    requires var e := h[|h| - 1].Trades()[i]; e.exit.Some? && e.exit.value.index == x && k.First() < e.entryIndex < x < |h| - 1
    ensures var e := h[|h| - 1].Trades()[i];
      && e.entry > 0.0 && h[e.entryIndex].cash > 0.0 && h[e.entryIndex].mark == h[e.entryIndex].cash
      && h[x + 1].mark == Proceeds(h[e.entryIndex].cash, e.entry, e.exit.value.price, true, k.fee)
  {
    var e := h[|h| - 1].Trades()[i];
    UnitsBought(k, h, i, x - 1);
    ExitSession(k, h, i, x);
    HoldingIsWorth(h[e.entryIndex].cash, e.entry, k.fee, h[x].units, e.exit.value.price);
  }

  /** The exit session sells everything at its open. */
  lemma ExitSession(k: Setup, h: seq<State>, i: nat, x: nat)
    requires Story(k, h) && k.target == 1.0 && i < |h[|h| - 1].Trades()|
    requires var e := h[|h| - 1].Trades()[i]; e.exit.Some? && e.exit.value.index == x && k.First() < e.entryIndex < x < |h| - 1
    requires h[x].cash == 0.0
    ensures h[x + 1].mark == h[x].units * h[|h| - 1].Trades()[i].exit.value.price * (1.0 - k.fee)
  {
    ExitPrice(k, h, i);
    ExitSide(k, h, i, x);
    LedgerStep(k, h, x);
  }

  lemma ExitPrice(k: Setup, h: seq<State>, i: nat)
    requires Story(k, h) && i < |h[|h| - 1].Trades()| && h[|h| - 1].Trades()[i].exit.Some?
    ensures var x := h[|h| - 1].Trades()[i].exit.value; x.index < |k.bars| && x.price == k.bars[x.index].open
  {
    TradesAreBooked(k, h, |h| - 1);
    assert h[|h| - 1].Trades()[i] == h[|h| - 1].closed[i];
    assert Completed(k, h[|h| - 1].closed[i]);
  }

  lemma ExitSide(k: Setup, h: seq<State>, i: nat, x: nat)
    requires Story(k, h) && k.target == 1.0 && i < |h[|h| - 1].Trades()|
    requires var e := h[|h| - 1].Trades()[i]; e.exit.Some? && e.exit.value.index == x && k.First() < e.entryIndex < x < |h| - 1
    ensures DueSide(h[x].pending, x) == Some(Sell)
  {
    OnlyOneTradeAtATime(k, h, i, x - 1);
    OnlyOneTradeAtATime(k, h, i, x);
    SideOfSession(k, h, x);
  }

  lemma StoryTradeReturn(k: Setup, h: seq<State>, run: Run, i: nat, lo: nat, hi: nat)
    requires Tells(k, h, run) && k.target == 1.0 && k.First() < lo <= hi <= k.Last() && |run.nav| == |k.bars|
    requires i < |run.episodes| && lo <= run.episodes[i].entryIndex < hi
    requires Proper(run.episodes) && Positive(Values(run.nav), lo - 1, hi)
    ensures var e := run.episodes[i];
      && e.entry > 0.0
      && Contribution(Values(run.nav), e, lo, hi) == TradeGrowth(e.entry, ExitOrMark(k, e, hi), ClosedBy(e, hi), k.fee)
  {
    var e := run.episodes[i];
    var x := e.entryIndex;
    var last := if ClosedBy(e, hi) then e.exit.value.index else hi - 1;
    MarkOfTrade(k, h, i, hi, last);
    assert Shows(k, h, run, x - 1) && Shows(k, h, run, last);
    GrowthOfTrade(h[x].cash, e.entry, ExitOrMark(k, e, hi), ClosedBy(e, hi), k.fee);
    assert Contribution(Values(run.nav), e, lo, hi) == h[last + 1].mark / h[x].mark;
  }

  /** For a trade entered inside the window, the return from its prices is the account growth it is credited with. */
  lemma TradeReturnIsContribution(k: Setup, run: Run, i: nat, lo: nat, hi: nat)
    requires k.target == 1.0 && Produces(k, run) && k.First() < lo <= hi <= k.Last()
    requires i < |run.episodes| && lo <= run.episodes[i].entryIndex < hi
    ensures var e := run.episodes[i];
      && Proper(run.episodes) && Positive(Values(run.nav), lo - 1, hi) && e.entry > 0.0
      && Contribution(Values(run.nav), e, lo, hi) == TradeGrowth(e.entry, ExitOrMark(k, e, hi), ClosedBy(e, hi), k.fee)
  {
    var h := StoryOf(k, run);
    StoryTiles(k, h, run, lo, hi);
    StoryTradeReturn(k, h, run, i, lo, hi);
  }

  // ---------------------------------------------------------------- a trade carried into the window

  /** One plus the return of a trade already open at the close `base`: no purchase fee falls in the window. */
  function CarriedGrowth(base: real, price: real, closed: bool, fee: real): real
    requires base > 0.0
  {
    price / base * (if closed then 1.0 - fee else 1.0)
  }

  lemma GrowthOfCarried(cash: real, entry: real, base: real, price: real, closed: bool, fee: real)
    requires cash > 0.0 && entry > 0.0 && base > 0.0 && 0.0 <= fee < 1.0
    ensures Proceeds(cash, entry, base, false, fee) > 0.0
    ensures Proceeds(cash, entry, price, closed, fee) / Proceeds(cash, entry, base, false, fee) == CarriedGrowth(base, price, closed, fee)
  {
    var keep := if closed then 1.0 - fee else 1.0;
    ProductPositive(entry, 1.0 + fee);
    var units := cash / (entry * (1.0 + fee));
    QuotientPositive(cash, entry * (1.0 + fee));
    CarriedQuotient(units, base, price, keep);
  }

  lemma CarriedQuotient(units: real, base: real, price: real, keep: real)
    requires units > 0.0 && base > 0.0
    ensures units * base * 1.0 > 0.0
    ensures units * price * keep / (units * base * 1.0) == price / base * keep
  {
    ProductPositive(units, base);
    var q := price / base;
    assert q * base == price;
    assert (q * keep) * (units * base) == units * price * keep;
  }

  lemma StoryCarriedReturn(k: Setup, h: seq<State>, run: Run, i: nat, lo: nat, hi: nat)
    requires Tells(k, h, run) && k.target == 1.0 && k.First() < lo <= hi <= k.Last() && |run.nav| == |k.bars|
    requires i < |run.episodes| && k.First() < run.episodes[i].entryIndex < lo && Touches(run.episodes[i], lo, hi)
    requires Proper(run.episodes) && Positive(Values(run.nav), lo - 1, hi)
    ensures var e := run.episodes[i];
      Contribution(Values(run.nav), e, lo, hi) == CarriedGrowth(k.bars[lo - 1].close, ExitOrMark(k, e, hi), ClosedBy(e, hi), k.fee)
  {
    var e := run.episodes[i];
    var x := e.entryIndex;
    var last := if ClosedBy(e, hi) then e.exit.value.index else hi - 1;
    MarkOfTrade(k, h, i, hi, last);
    MarkOfTrade(k, h, i, lo, lo - 1);
    assert Shows(k, h, run, lo - 1) && Shows(k, h, run, last);
    GrowthOfCarried(h[x].cash, e.entry, k.bars[lo - 1].close, ExitOrMark(k, e, hi), ClosedBy(e, hi), k.fee);
    assert Contribution(Values(run.nav), e, lo, hi) == h[last + 1].mark / h[lo].mark;
  }

  /**
    For a trade carried into the window, the growth it is credited with is its exit or mark over the last
    close before the window, less the sale fee if it is sold.
   */
  lemma CarriedReturnIsContribution(k: Setup, run: Run, i: nat, lo: nat, hi: nat)
    requires k.target == 1.0 && Produces(k, run) && k.First() < lo <= hi <= k.Last()
    requires i < |run.episodes| && run.episodes[i].entryIndex < lo && Touches(run.episodes[i], lo, hi)
    ensures var e := run.episodes[i];
      && Proper(run.episodes) && Positive(Values(run.nav), lo - 1, hi)
      && Contribution(Values(run.nav), e, lo, hi) == CarriedGrowth(k.bars[lo - 1].close, ExitOrMark(k, e, hi), ClosedBy(e, hi), k.fee)
  {
    var h := StoryOf(k, run);
    StoryTiles(k, h, run, lo, hi);
    SignalsAreGrounded(k, run, i);
    TradeIsOpened(k, h, i);
    StoryCarriedReturn(k, h, run, i, lo, hi);
  }
}
