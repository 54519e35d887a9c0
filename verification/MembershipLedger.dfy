/**
  The membership attribution: replay a portfolio's fills, split traded value into establishment,
  entries and exits, and adjustments, and count why target membership changed.
 */
module MembershipLedger {
  import opened Common
  import opened RealArithmetic
  import opened TargetVectors
  import opened TargetAdoption

  datatype Trade = Trade(symbol: Symbol, quantity: int, price: real, fee: real)

  datatype Observation = Observation(fallback: bool, eligible: set<Symbol>)

  datatype Choice = Choice(targets: seq<Target>, topN: Option<string>, observation: Option<Observation>)

  datatype Day = Day(fills: seq<Trade>, opens: map<Symbol, real>, cash: real, decision: Option<Choice>)

  datatype Failure = LedgerMismatch | NoOpeningValue

  const INITIAL_CASH := 1000000.0

  // ---------------------------------------------------------------- sums over one day's fills

  function Traded(f: Trade): real {
    Compound(AbsReal(f.quantity as real), f.price)
  }

  function Cost(f: Trade): real {
    Compound(f.quantity as real, f.price) + f.fee
  }

  function QuantityOf(fs: seq<Trade>, s: Symbol): int {
    if fs == [] then 0 else QuantityOf(fs[..|fs| - 1], s) + if fs[|fs| - 1].symbol == s then fs[|fs| - 1].quantity else 0
  }

  function CostOf(fs: seq<Trade>): real {
    if fs == [] then 0.0 else CostOf(fs[..|fs| - 1]) + Cost(fs[|fs| - 1])
  }

  /** Traded value of the fills whose symbol satisfies `p`. */
  function TradedWhere(fs: seq<Trade>, p: Symbol -> bool): real {
    if fs == [] then 0.0
    else TradedWhere(fs[..|fs| - 1], p) + if p(fs[|fs| - 1].symbol) then Traded(fs[|fs| - 1]) else 0.0
  }

  // ---------------------------------------------------------------- the portfolio before each day

  datatype Book = Book(quotes: set<Symbol>, days: seq<Day>)
  {
    ghost predicate Valid() {
      forall i :: 0 <= i < |days| ==> QuotesDay(i)
    }

    ghost predicate QuotesDay(i: nat)
      requires i < |days|
    {
      quotes <= days[i].opens.Keys && forall j :: 0 <= j < |days[i].fills| ==> days[i].fills[j].symbol in quotes
    }

    function Holding(i: nat, s: Symbol): int
      requires i <= |days|
    {
      if i == 0 then 0 else Holding(i - 1, s) + QuantityOf(days[i - 1].fills, s)
    }

    function Cash(i: nat): real
      requires i <= |days|
    {
      if i == 0 then INITIAL_CASH else Cash(i - 1) - CostOf(days[i - 1].fills)
    }

    /** Market value of each holding at the open of day `i`. */
    function Values(i: nat): Vector
      requires i < |days| && quotes <= days[i].opens.Keys
    {
      map s | s in quotes :: Compound(Holding(i, s) as real, days[i].opens[s])
    }

    ghost function Opening(i: nat): real
      requires i < |days| && quotes <= days[i].opens.Keys
    {
      Cash(i) + Total(Values(i), quotes)
    }

    /** The day's fills take the symbol from nothing, or to nothing. */
    predicate Crosses(i: nat, s: Symbol)
      requires i < |days|
    {
      Holding(i, s) == 0 || Holding(i + 1, s) == 0
    }

    function Crossing(i: nat): Symbol -> bool
      requires i < |days|
    {
      s => i < |days| && Crosses(i, s)
    }

    function Staying(i: nat): Symbol -> bool
      requires i < |days|
    {
      s => i < |days| && !Crosses(i, s)
    }

    function LastChoice(i: nat): Option<Choice>
      requires i <= |days|
    {
      if i == 0 then None else if days[i - 1].decision.Some? then days[i - 1].decision else LastChoice(i - 1)
    }
  }

  function Every(): Symbol -> bool { s => true }

  /** Value traded as a multiple of the opening value. */
  function Share(traded: real, opening: real): (share: real)
    requires opening != 0.0
    ensures share * opening == traded
  {
    traded / opening
  }

  /** Sums over days `1` to `n` of the value traded by crossing fills, by staying fills and by all. */
  function CrossedUsd(b: Book, n: nat): real
    requires n <= |b.days|
  {
    if n <= 1 then 0.0 else CrossedUsd(b, n - 1) + TradedWhere(b.days[n - 1].fills, b.Crossing(n - 1))
  }

  function StayedUsd(b: Book, n: nat): real
    requires n <= |b.days|
  {
    if n <= 1 then 0.0 else StayedUsd(b, n - 1) + TradedWhere(b.days[n - 1].fills, b.Staying(n - 1))
  }

  function GrossUsd(b: Book, n: nat): real
    requires n <= |b.days|
  {
    if n <= 1 then 0.0 else GrossUsd(b, n - 1) + TradedWhere(b.days[n - 1].fills, Every())
  }

  lemma {:induction false} TradedSplits(fs: seq<Trade>, p: Symbol -> bool, q: Symbol -> bool)
    requires forall s :: p(s) != q(s)
    ensures TradedWhere(fs, p) + TradedWhere(fs, q) == TradedWhere(fs, Every())
  {
    if fs != [] {
      TradedSplits(fs[..|fs| - 1], p, q);
    }
  }

  /** Every fill after the first day is counted once: as an entry or exit, or as an adjustment. */
  lemma {:induction false} UsdIsConserved(b: Book, n: nat)
    requires n <= |b.days|
    ensures CrossedUsd(b, n) + StayedUsd(b, n) == GrossUsd(b, n)
    decreases n
  {
    if n > 1 {
      UsdIsConserved(b, n - 1);
      TradedSplits(b.days[n - 1].fills, b.Crossing(n - 1), b.Staying(n - 1));
    }
  }

  /** All fills of the first `n` days, in order. */
  function FillsThrough(b: Book, n: nat): seq<Trade>
    requires n <= |b.days|
  {
    if n == 0 then [] else FillsThrough(b, n - 1) + b.days[n - 1].fills
  }

  /** The value of all purchases, or of all sales. */
  function SideUsd(fs: seq<Trade>, buys: bool): real {
    if fs == [] then 0.0
    else SideUsd(fs[..|fs| - 1], buys) + if (fs[|fs| - 1].quantity > 0) == buys then Traded(fs[|fs| - 1]) else 0.0
  }

  function FeesOf(fs: seq<Trade>): real {
    if fs == [] then 0.0 else FeesOf(fs[..|fs| - 1]) + fs[|fs| - 1].fee
  }

  /** What all money and all units of an account come to after a list of fills. */
  function CashAfter(fs: seq<Trade>): real { 1000000.0 - SideUsd(fs, true) + SideUsd(fs, false) - FeesOf(fs) }

  lemma SignedCost(f: Trade)
    ensures Cost(f) == (if f.quantity > 0 then Traded(f) else -Traded(f)) + f.fee
  {
    assert AbsReal(f.quantity as real) == if f.quantity > 0 then f.quantity as real else -(f.quantity as real);
  }

  lemma {:induction false} CostIsSidesAndFees(fs: seq<Trade>)
    ensures CostOf(fs) == SideUsd(fs, true) - SideUsd(fs, false) + FeesOf(fs)
    ensures SideUsd(fs, true) + SideUsd(fs, false) == TradedWhere(fs, Every())
  {
    if fs != [] {
      CostIsSidesAndFees(fs[..|fs| - 1]);
      SignedCost(fs[|fs| - 1]);
    }
  }

  lemma {:induction false} BookIsItsFills(b: Book, n: nat, s: Symbol)
    requires n <= |b.days|
    ensures b.Cash(n) == INITIAL_CASH - CostOf(FillsThrough(b, n))
    ensures b.Holding(n, s) == QuantityOf(FillsThrough(b, n), s)
    decreases n
  {
    if n > 0 {
      BookIsItsFills(b, n - 1, s);
      SumsConcat(FillsThrough(b, n - 1), b.days[n - 1].fills, s, Every());
    }
  }

  /**
    The replayed cash is the initial cash less all purchases, plus all sales, less all fees; purchases and
    sales together are the gross traded value; each position is the net quantity of its fills.
   */
  lemma CashIsConserved(b: Book, n: nat, s: Symbol)
    requires n <= |b.days|
    ensures var fs := FillsThrough(b, n);
      && b.Cash(n) == CashAfter(fs)
      && SideUsd(fs, true) + SideUsd(fs, false) == TradedWhere(fs, Every())
      && b.Holding(n, s) == QuantityOf(fs, s)
  {
    BookIsItsFills(b, n, s);
    CostIsSidesAndFees(FillsThrough(b, n));
  }

  /** Fills of a day are entries or exits when all fills before it, or all through it, net to nothing in their symbol. */
  lemma CrossingIsNetNothing(b: Book, i: nat, s: Symbol)
    requires i < |b.days|
    ensures b.Crossing(i)(s) <==> QuantityOf(FillsThrough(b, i), s) == 0 || QuantityOf(FillsThrough(b, i + 1), s) == 0
    ensures b.Staying(i)(s) <==> QuantityOf(FillsThrough(b, i), s) != 0 && QuantityOf(FillsThrough(b, i + 1), s) != 0
  {
    BookIsItsFills(b, i, s);
    BookIsItsFills(b, i + 1, s);
  }

  // ---------------------------------------------------------------- order within a day does not matter

  /** Splitting a list at any position splits its sums. */
  lemma {:induction false} SumsConcat(a: seq<Trade>, c: seq<Trade>, s: Symbol, p: Symbol -> bool)
    ensures QuantityOf(a + c, s) == QuantityOf(a, s) + QuantityOf(c, s)
    ensures CostOf(a + c) == CostOf(a) + CostOf(c)
    ensures TradedWhere(a + c, p) == TradedWhere(a, p) + TradedWhere(c, p)
    decreases |c|
  {
    if c == [] {
      assert a + c == a;
    } else {
      assert (a + c)[..|a + c| - 1] == a + c[..|c| - 1];
      SumsConcat(a, c[..|c| - 1], s, p);
    }
  }

  /** Taking one fill out of a list takes its share out of every sum. */
  lemma SumsWithout(l: seq<Trade>, f: Trade, r: seq<Trade>, s: Symbol, p: Symbol -> bool)
    ensures QuantityOf(l + [f] + r, s) == QuantityOf(l + r, s) + QuantityOf([f], s)
    ensures CostOf(l + [f] + r) == CostOf(l + r) + CostOf([f])
    ensures TradedWhere(l + [f] + r, p) == TradedWhere(l + r, p) + TradedWhere([f], p)
  {
    SumsConcat(l, r, s, p);
    SumsConcat(l, [f], s, p);
    SumsConcat(l + [f], r, s, p);
  }

  lemma BagWithout<T>(c: seq<T>, i: nat)
    requires i < |c|
    ensures multiset(c[..i] + c[i + 1..]) == multiset(c) - multiset{c[i]}
  {
    assert c == c[..i] + ([c[i]] + c[i + 1..]);
    assert multiset(c) == multiset(c[..i]) + (multiset{c[i]} + multiset(c[i + 1..]));
  }

  lemma FindInBag<T>(a: seq<T>, c: seq<T>) returns (l: seq<T>, r: seq<T>)
    requires a != [] && multiset(a) == multiset(c)
    ensures c == l + [a[|a| - 1]] + r && multiset(a[..|a| - 1]) == multiset(l + r)
  {
    var m := |a| - 1;
    assert a[m] in multiset(c);
    var i :| 0 <= i < |c| && c[i] == a[m];
    l, r := c[..i], c[i + 1..];
    BagWithout(c, i);
    BagWithout(a, m);
    assert a[..m] + a[m + 1..] == a[..m];
  }

  /** A day's cash, positions and traded values depend on its fills as a bag. */
  lemma {:induction false} SumsPermute(a: seq<Trade>, c: seq<Trade>, s: Symbol, p: Symbol -> bool)
    requires multiset(a) == multiset(c)
    ensures QuantityOf(a, s) == QuantityOf(c, s) && CostOf(a) == CostOf(c) && TradedWhere(a, p) == TradedWhere(c, p)
    decreases |a|
  {
    if a == [] {
      assert |multiset(c)| == 0;
    } else {
      var l, r := FindInBag(a, c);
      var f, rest := a[|a| - 1], a[..|a| - 1];
      SumsPermute(rest, l + r, s, p);
      SumsWithout(l, f, r, s, p);
      assert a == rest + [f];
      SumsConcat(rest, [f], s, p);
    }
  }

  // ---------------------------------------------------------------- why membership changed

  datatype Cause = RankCutoff | Eligibility | Fallback | WidthSwitch | Unclassified

  function Members(ts: seq<Target>): set<Symbol> {
    set t | t in ts && t.weight > 0.0 :: t.symbol
  }

  function Changed(a: set<Symbol>, b: set<Symbol>): set<Symbol> {
    (a - b) + (b - a)
  }

  /** A symbol changes membership when exactly one of the two lists holds it with a positive weight. */
  lemma ChangedAre(a: seq<Target>, b: seq<Target>, s: Symbol)
    ensures s in Changed(Members(a), Members(b)) <==>
      (exists i :: 0 <= i < |a| && a[i].symbol == s && a[i].weight > 0.0) != (exists i :: 0 <= i < |b| && b[i].symbol == s && b[i].weight > 0.0)
  {
    MemberIs(a, s);
    MemberIs(b, s);
  }

  lemma MemberIs(a: seq<Target>, s: Symbol)
    ensures s in Members(a) <==> exists i :: 0 <= i < |a| && a[i].symbol == s && a[i].weight > 0.0
  {
    if s in Members(a) {
      var t :| t in a && t.weight > 0.0 && t.symbol == s;
      var i :| 0 <= i < |a| && a[i] == t;
    }
    if exists i :: 0 <= i < |a| && a[i].symbol == s && a[i].weight > 0.0 {
      var i :| 0 <= i < |a| && a[i].symbol == s && a[i].weight > 0.0;
      assert a[i] in a;
    }
  }

  function CauseOf(last: Choice, current: Choice, s: Symbol): Cause {
    if last.topN != current.topN then WidthSwitch
    else if last.observation.None? || current.observation.None? then Unclassified
    else if last.observation.value.fallback || current.observation.value.fallback then Fallback
    else if s in last.observation.value.eligible && s in current.observation.value.eligible then RankCutoff
    else Eligibility
  }

  /** The changed members put down to one cause. */
  function CausedBy(s: set<Symbol>, last: Choice, current: Choice, c: Cause): set<Symbol> {
    set x | x in s && CauseOf(last, current, x) == c
  }

  datatype Tally = Tally(rank: nat, eligibility: nat, fallback: nat, width: nat, unclassified: nat)
  {
    function Of(c: Cause): nat {
      match c
      case RankCutoff => rank
      case Eligibility => eligibility
      case Fallback => fallback
      case WidthSwitch => width
      case Unclassified => unclassified
    }

    function Add(c: Cause): Tally {
      match c
      case RankCutoff => this.(rank := rank + 1)
      case Eligibility => this.(eligibility := eligibility + 1)
      case Fallback => this.(fallback := fallback + 1)
      case WidthSwitch => this.(width := width + 1)
      case Unclassified => this.(unclassified := unclassified + 1)
    }

    function Sum(): nat { rank + eligibility + fallback + width + unclassified }
  }

  lemma AddIsOneMore(t: Tally, cause: Cause, c: Cause)
    ensures t.Add(cause).Of(c) == t.Of(c) + if c == cause then 1 else 0
    ensures t.Add(cause).Sum() == t.Sum() + 1
  {
  }

  lemma CausedByOneMore(done: set<Symbol>, x: Symbol, last: Choice, current: Choice, c: Cause)
    requires x !in done
    ensures |CausedBy(done + {x}, last, current, c)| == |CausedBy(done, last, current, c)| + if c == CauseOf(last, current, x) then 1 else 0
  {
    assert CausedBy(done + {x}, last, current, c) == CausedBy(done, last, current, c) + if c == CauseOf(last, current, x) then {x} else {};
  }

  ghost predicate Tallies(t0: Tally, t: Tally, s: set<Symbol>, last: Choice, current: Choice, c: Cause) {
    t.Of(c) == t0.Of(c) + |CausedBy(s, last, current, c)|
  }

  /** The whole effect of one decision on the counts, in terms of the two decisions. */
  ghost predicate Attributes(t0: Tally, t: Tally, last: Choice, current: Choice, changed: set<Symbol>) {
    if last.topN != current.topN then t == t0.(width := t0.width + |changed|)
    else if last.observation.None? || current.observation.None? then t == t0.(unclassified := t0.unclassified + |changed|)
    else if last.observation.value.fallback || current.observation.value.fallback then t == t0.(fallback := t0.fallback + |changed|)
    else
      var both := set s | s in changed && s in last.observation.value.eligible && s in current.observation.value.eligible;
      t == t0.(rank := t0.rank + |both|, eligibility := t0.eligibility + |changed - both|)
  }

  lemma CausesAreAttributed(t0: Tally, t: Tally, last: Choice, current: Choice, changed: set<Symbol>)
    requires forall c :: Tallies(t0, t, changed, last, current, c)
    ensures Attributes(t0, t, last, current, changed)
  {
    TallyFields(t0, t, changed, last, current);
    if last.topN != current.topN {
      OneCause(changed, last, current, WidthSwitch);
    } else if last.observation.None? || current.observation.None? {
      OneCause(changed, last, current, Unclassified);
    } else if last.observation.value.fallback || current.observation.value.fallback {
      OneCause(changed, last, current, Fallback);
    } else {
      TwoCauses(changed, last, current);
    }
  }

  lemma TallyFields(t0: Tally, t: Tally, changed: set<Symbol>, last: Choice, current: Choice)
    requires forall c :: Tallies(t0, t, changed, last, current, c)
    ensures t.rank == t0.rank + |CausedBy(changed, last, current, RankCutoff)|
    ensures t.eligibility == t0.eligibility + |CausedBy(changed, last, current, Eligibility)|
    ensures t.fallback == t0.fallback + |CausedBy(changed, last, current, Fallback)|
    ensures t.width == t0.width + |CausedBy(changed, last, current, WidthSwitch)|
    ensures t.unclassified == t0.unclassified + |CausedBy(changed, last, current, Unclassified)|
  {
    assert Tallies(t0, t, changed, last, current, RankCutoff) && Tallies(t0, t, changed, last, current, Eligibility);
    assert Tallies(t0, t, changed, last, current, Fallback) && Tallies(t0, t, changed, last, current, WidthSwitch);
    assert Tallies(t0, t, changed, last, current, Unclassified);
  }

  lemma OneCause(changed: set<Symbol>, last: Choice, current: Choice, cause: Cause)
    requires forall s :: s in changed ==> CauseOf(last, current, s) == cause
    ensures forall c :: |CausedBy(changed, last, current, c)| == if c == cause then |changed| else 0
  {
    forall c ensures |CausedBy(changed, last, current, c)| == if c == cause then |changed| else 0 {
      assert CausedBy(changed, last, current, c) == if c == cause then changed else {};
    }
  }

  lemma TwoCauses(changed: set<Symbol>, last: Choice, current: Choice)
    requires last.topN == current.topN && last.observation.Some? && current.observation.Some?
    requires !last.observation.value.fallback && !current.observation.value.fallback
    ensures var both := set s | s in changed && s in last.observation.value.eligible && s in current.observation.value.eligible;
      && |CausedBy(changed, last, current, RankCutoff)| == |both|
      && |CausedBy(changed, last, current, Eligibility)| == |changed - both|
      && |CausedBy(changed, last, current, Fallback)| == 0
      && |CausedBy(changed, last, current, WidthSwitch)| == 0
      && |CausedBy(changed, last, current, Unclassified)| == 0
  {
    var both := set s | s in changed && s in last.observation.value.eligible && s in current.observation.value.eligible;
    assert CausedBy(changed, last, current, RankCutoff) == both;
    assert CausedBy(changed, last, current, Eligibility) == changed - both;
    assert CausedBy(changed, last, current, Fallback) == {};
    assert CausedBy(changed, last, current, WidthSwitch) == {};
    assert CausedBy(changed, last, current, Unclassified) == {};
  }

  method TallyChanges(tally0: Tally, last: Choice, current: Choice) returns (tally: Tally)
    ensures Attributes(tally0, tally, last, current, Changed(Members(last.targets), Members(current.targets)))
    ensures forall c :: Tallies(tally0, tally, Changed(Members(last.targets), Members(current.targets)), last, current, c)
    ensures tally.Sum() == tally0.Sum() + |Changed(Members(last.targets), Members(current.targets))|
  {
    tally := tally0;
    var all := Changed(Members(last.targets), Members(current.targets));
    var left := all;
    ghost var done: set<Symbol> := {};
    while left != {}
      invariant done + left == all && done !! left
      invariant forall c :: Tallies(tally0, tally, done, last, current, c)
      invariant tally.Sum() == tally0.Sum() + |done|
      decreases left
    {
      var x :| x in left;
      var cause := Eligibility;
      if last.topN != current.topN {
        cause := WidthSwitch;
      } else if last.observation.None? || current.observation.None? {
        cause := Unclassified;
      } else if last.observation.value.fallback || current.observation.value.fallback {
        cause := Fallback;
      } else if x in last.observation.value.eligible && x in current.observation.value.eligible {
        cause := RankCutoff;
      }
      var next := tally.Add(cause);
      ghost var more := done + {x};
      forall c ensures Tallies(tally0, next, more, last, current, c) {
        assert Tallies(tally0, tally, done, last, current, c);
        AddIsOneMore(tally, cause, c);
        CausedByOneMore(done, x, last, current, c);
      }
      AddIsOneMore(tally, cause, cause);
      tally, done, left := next, more, left - {x};
    }
    assert done == all;
    CausesAreAttributed(tally0, tally, last, current, all);
  }

  function ChangeStep(last: Option<Choice>, now: Option<Choice>): nat {
    if last.Some? && now.Some? then |Changed(Members(last.value.targets), Members(now.value.targets))| else 0
  }

  function CauseStep(last: Option<Choice>, now: Option<Choice>, c: Cause): nat {
    if last.Some? && now.Some?
    then |CausedBy(Changed(Members(last.value.targets), Members(now.value.targets)), last.value, now.value, c)| else 0
  }

  /** Membership changes over consecutive decisions before day `n`. */
  function Changes(b: Book, n: nat): nat
    requires n <= |b.days|
  {
    if n == 0 then 0 else Changes(b, n - 1) + ChangeStep(b.LastChoice(n - 1), b.days[n - 1].decision)
  }

  function ChangesBy(b: Book, n: nat, c: Cause): nat
    requires n <= |b.days|
  {
    if n == 0 then 0 else ChangesBy(b, n - 1, c) + CauseStep(b.LastChoice(n - 1), b.days[n - 1].decision, c)
  }

  // ---------------------------------------------------------------- the report

  datatype Money = Money(establishment: real, entryExit: real, retained: real, entryExitUsd: real, retainedUsd: real)

  /** The report; `share` is the entry and exit part of the turnover after the first day. */
  datatype Attribution = Attribution(money: Money, changes: Tally, share: real)

  /** Turnover is value traded over that day's opening value. */
  ghost function Turnover(b: Book, i: nat, p: Symbol -> bool): real
    requires i < |b.days| && b.quotes <= b.days[i].opens.Keys && b.Opening(i) != 0.0
  {
    Share(TradedWhere(b.days[i].fills, p), b.Opening(i))
  }

  ghost predicate Openable(b: Book, n: nat)
    requires n <= |b.days|
  {
    forall i :: 0 <= i < n ==> b.QuotesDay(i) && (b.days[i].fills != [] ==> b.Opening(i) != 0.0)
  }

  /** Turnover of one kind of fill over days 1 to `n`. */
  ghost function TurnoverWhere(b: Book, n: nat, crossing: bool): real
    requires n <= |b.days| && Openable(b, n)
  {
    if n <= 1 then 0.0 else TurnoverWhere(b, n - 1, crossing) + DayTurnover(b, n - 1, crossing)
  }

  ghost function DayTurnover(b: Book, i: nat, crossing: bool): real
    requires i < |b.days| && b.QuotesDay(i) && (b.days[i].fills != [] ==> b.Opening(i) != 0.0)
  {
    if b.days[i].fills == [] then 0.0 else Turnover(b, i, if crossing then b.Crossing(i) else b.Staying(i))
  }

  method OpeningValue(b: Book, i: nat, cash: real, positions: map<Symbol, int>) returns (opening: real)
    requires i < |b.days| && b.Valid() && cash == b.Cash(i)
    requires positions.Keys == b.quotes && forall s :: s in positions ==> positions[s] == b.Holding(i, s)
    ensures b.QuotesDay(i)
    ensures opening == b.Opening(i)
  {
    assert b.QuotesDay(i);
    opening := cash;
    var left := b.quotes;
    while left != {}
      invariant left <= b.quotes && opening + Total(b.Values(i), left) == b.Opening(i)
      decreases left
    {
      var s :| s in left;
      TotalPick(b.Values(i), left, s);
      opening := opening + Compound(positions[s] as real, b.days[i].opens[s]);
      left := left - {s};
    }
  }

  /** First pass over a day: all quantities, before any fill is classified. */
  method ApplyQuantities(b: Book, i: nat, before: map<Symbol, int>) returns (positions: map<Symbol, int>)
    requires i < |b.days| && b.Valid()
    requires before.Keys == b.quotes && forall s :: s in before ==> before[s] == b.Holding(i, s)
    ensures positions.Keys == b.quotes && forall s :: s in positions ==> positions[s] == b.Holding(i + 1, s)
  {
    assert b.QuotesDay(i);
    var fs := b.days[i].fills;
    positions := before;
    for j := 0 to |fs|
      invariant positions.Keys == b.quotes
      invariant forall s :: s in positions ==> positions[s] == b.Holding(i, s) + QuantityOf(fs[..j], s)
    {
      assert fs[..j + 1][..j] == fs[..j];
      positions := positions[fs[j].symbol := positions[fs[j].symbol] + fs[j].quantity];
    }
    assert fs[..|fs|] == fs;
  }

  lemma SharesAdd(a: real, x: real, opening: real)
    requires opening != 0.0
    ensures Share(a + x, opening) == Share(a, opening) + Share(x, opening) && Share(0.0, opening) == 0.0
  {
  }

  /** What the second pass has added up so far. */
  datatype DaySums = DaySums(all: real, crossing: real, staying: real, crossingUsd: real, stayingUsd: real, cost: real)

  function SumsOf(b: Book, i: nat, fs: seq<Trade>, opening: real): DaySums
    requires i < |b.days| && opening != 0.0
  {
    DaySums(Share(TradedWhere(fs, Every()), opening),
            Share(TradedWhere(fs, b.Crossing(i)), opening), Share(TradedWhere(fs, b.Staying(i)), opening),
            TradedWhere(fs, b.Crossing(i)), TradedWhere(fs, b.Staying(i)), CostOf(fs))
  }

  lemma SumsStep(b: Book, i: nat, fs: seq<Trade>, j: nat, opening: real)
    requires i < |b.days| && j < |fs| && opening != 0.0
    ensures var d, e, x := SumsOf(b, i, fs[..j], opening), SumsOf(b, i, fs[..j + 1], opening), Share(Traded(fs[j]), opening);
      e == if b.Crosses(i, fs[j].symbol)
           then DaySums(d.all + x, d.crossing + x, d.staying, d.crossingUsd + Traded(fs[j]), d.stayingUsd, d.cost + Cost(fs[j]))
           else DaySums(d.all + x, d.crossing, d.staying + x, d.crossingUsd, d.stayingUsd + Traded(fs[j]), d.cost + Cost(fs[j]))
  {
    assert fs[..j + 1][..j] == fs[..j];
    SharesAdd(TradedWhere(fs[..j], Every()), Traded(fs[j]), opening);
    SharesAdd(TradedWhere(fs[..j], b.Crossing(i)), Traded(fs[j]), opening);
    SharesAdd(TradedWhere(fs[..j], b.Staying(i)), Traded(fs[j]), opening);
  }

  /** Second pass over a day: classify each fill against the positions before and after the whole day. */
  method Classify(b: Book, i: nat, opening: real, before: map<Symbol, int>, positions: map<Symbol, int>) returns (d: DaySums)
    requires i < |b.days| && b.Valid() && opening != 0.0
    requires before.Keys == b.quotes && forall s :: s in before ==> before[s] == b.Holding(i, s)
    requires positions.Keys == b.quotes && forall s :: s in positions ==> positions[s] == b.Holding(i + 1, s)
    ensures d == SumsOf(b, i, b.days[i].fills, opening)
  {
    assert b.QuotesDay(i);
    var fs := b.days[i].fills;
    d := DaySums(0.0, 0.0, 0.0, 0.0, 0.0, 0.0);
    SharesAdd(0.0, 0.0, opening);
    for j := 0 to |fs|
      invariant d == SumsOf(b, i, fs[..j], opening)
    {
      var f := fs[j];
      var traded := Traded(f);
      var share := Share(traded, opening);
      SumsStep(b, i, fs, j, opening);
      if before[f.symbol] == 0 || positions[f.symbol] == 0 {
        d := DaySums(d.all + share, d.crossing + share, d.staying, d.crossingUsd + traded, d.stayingUsd, d.cost + Cost(f));
      } else {
        d := DaySums(d.all + share, d.crossing, d.staying + share, d.crossingUsd, d.stayingUsd + traded, d.cost + Cost(f));
      }
    }
    assert fs[..|fs|] == fs;
  }

  ghost predicate CashMatches(b: Book, n: nat)
    requires n <= |b.days|
  {
    forall i :: 0 <= i < n ==> AbsReal(b.Cash(i + 1) - b.days[i].cash) <= 0.02
  }

  /** The traded-value half of the report over the first `n` days. */
  ghost predicate MoneyIs(b: Book, n: nat, a: Money)
    requires n <= |b.days| && Openable(b, n)
  {
    && a.establishment == (if n == 0 || b.days[0].fills == [] then 0.0 else Turnover(b, 0, Every()))
    && a.entryExit == TurnoverWhere(b, n, true) && a.retained == TurnoverWhere(b, n, false)
    && a.entryExitUsd == CrossedUsd(b, n) && a.retainedUsd == StayedUsd(b, n)
  }

  /** The membership half. */
  ghost predicate TallyIs(b: Book, n: nat, t: Tally)
    requires n <= |b.days|
  {
    t.Sum() == Changes(b, n) && forall c: Cause :: t.Of(c) == ChangesBy(b, n, c)
  }

  lemma NoFillsNoMoney(b: Book, i: nat, a: Money)
    requires i < |b.days| && Openable(b, i + 1) && Openable(b, i) && b.days[i].fills == [] && MoneyIs(b, i, a)
    ensures MoneyIs(b, i + 1, a)
  {
  }

  /** One day's fills, and the report and cash after them. */
  method PlayFills(b: Book, i: nat, a0: Money, cash0: real, before: map<Symbol, int>)
    returns (ok: bool, a: Money, cash: real, positions: map<Symbol, int>)
    requires i < |b.days| && b.Valid() && cash0 == b.Cash(i) && Openable(b, i) && MoneyIs(b, i, a0)
    requires before.Keys == b.quotes && forall s :: s in before ==> before[s] == b.Holding(i, s)
    ensures ok <==> Openable(b, i + 1)
    ensures ok ==> MoneyIs(b, i + 1, a) && cash == b.Cash(i + 1)
    ensures positions.Keys == b.quotes && forall s :: s in positions ==> positions[s] == b.Holding(i + 1, s)
  {
    a, cash := a0, cash0;
    var opening := OpeningValue(b, i, cash, before);
    positions := ApplyQuantities(b, i, before);
    if b.days[i].fills == [] {
      ok := true;
      NoFillsNoMoney(b, i, a);
      return;
    }
    ok := opening != 0.0;
    if !ok { return; }
    assert Openable(b, i + 1);
    var d := Classify(b, i, opening, before, positions);
    if i == 0 {
      a := a.(establishment := a.establishment + d.all);
    } else {
      a := a.(entryExit := a.entryExit + d.crossing, entryExitUsd := a.entryExitUsd + d.crossingUsd,
              retained := a.retained + d.staying, retainedUsd := a.retainedUsd + d.stayingUsd);
    }
    cash := cash - d.cost;
  }

  /** One day's decision, if it has one. */
  method PlayDecision(b: Book, i: nat, tally0: Tally, last0: Option<Choice>) returns (tally: Tally, last: Option<Choice>)
    requires i < |b.days| && last0 == b.LastChoice(i) && TallyIs(b, i, tally0)
    ensures last == b.LastChoice(i + 1) && TallyIs(b, i + 1, tally)
  {
    tally, last := tally0, last0;
    if b.days[i].decision.Some? {
      var current := b.days[i].decision.value;
      if last.Some? {
        tally := TallyChanges(tally0, last.value, current);
        forall c: Cause ensures tally.Of(c) == ChangesBy(b, i + 1, c) {
          assert Tallies(tally0, tally, Changed(Members(last.value.targets), Members(current.targets)), last.value, current, c);
        }
      }
      last := b.days[i].decision;
    }
  }

  /** The loop's variables. */
  datatype Progress = Progress(day: nat, positions: map<Symbol, int>, cash: real, last: Option<Choice>, money: Money, changes: Tally)

  ghost predicate Passes(b: Book, n: nat)
    requires n <= |b.days|
  {
    Openable(b, n) && CashMatches(b, n)
  }

  ghost predicate MoneyReached(b: Book, i: nat, positions: map<Symbol, int>, cash: real, money: Money) {
    && i <= |b.days|
    && positions.Keys == b.quotes && (forall s :: s in positions ==> positions[s] == b.Holding(i, s))
    && cash == b.Cash(i) && Passes(b, i) && MoneyIs(b, i, money)
  }

  ghost predicate Reached(b: Book, g: Progress) {
    MoneyReached(b, g.day, g.positions, g.cash, g.money) && g.last == b.LastChoice(g.day) && TallyIs(b, g.day, g.changes)
  }

  lemma FailureStays(b: Book, i: nat)
    requires i <= |b.days|
    ensures Passes(b, |b.days|) ==> Passes(b, i)
  {
  }

  /** The day's fills, then the comparison with the recorded cash. */
  method PlayMoney(b: Book, g: Progress) returns (r: Result<Progress, Failure>)
    requires g.day < |b.days| && b.Valid() && MoneyReached(b, g.day, g.positions, g.cash, g.money)
    ensures r.Ok? <==> Passes(b, g.day + 1)
    ensures r.Ok? ==> MoneyReached(b, g.day + 1, r.value.positions, r.value.cash, r.value.money)
    ensures r.Ok? ==> r.value == g.(positions := r.value.positions, cash := r.value.cash, money := r.value.money)
  {
    var ok, money, cash, positions := PlayFills(b, g.day, g.money, g.cash, g.positions);
    if !ok {
      return Err(NoOpeningValue);
    }
    if AbsReal(cash - b.days[g.day].cash) > 0.02 {
      return Err(LedgerMismatch);
    }
    r := Ok(g.(positions := positions, cash := cash, money := money));
  }

  method PlayDay(b: Book, g: Progress) returns (r: Result<Progress, Failure>)
    requires g.day < |b.days| && b.Valid() && Reached(b, g)
    ensures r.Ok? <==> Passes(b, g.day + 1)
    ensures r.Ok? ==> Reached(b, r.value) && r.value.day == g.day + 1
  {
    r := PlayMoney(b, g);
    if r.Ok? {
      var changes, last := PlayDecision(b, g.day, g.changes, g.last);
      r := Ok(r.value.(day := g.day + 1, changes := changes, last := last));
    }
  }

  /** The next day; its failure is the failure of the report. */
  method PlayNext(b: Book, g: Progress) returns (r: Result<Progress, Failure>)
    requires g.day < |b.days| && b.Valid() && Reached(b, g)
    ensures r.Ok? ==> Reached(b, r.value) && r.value.day == g.day + 1
    ensures r.Err? ==> !Passes(b, |b.days|)
  {
    r := PlayDay(b, g);
    FailureStays(b, g.day + 1);
  }

  method Start(b: Book) returns (g: Progress)
    ensures Reached(b, g) && g.day == 0
  {
    g := Progress(0, map s | s in b.quotes :: 0, INITIAL_CASH, None, Money(0.0, 0.0, 0.0, 0.0, 0.0), Tally(0, 0, 0, 0, 0));
    forall c: Cause ensures g.changes.Of(c) == ChangesBy(b, 0, c) {
    }
  }

  ghost predicate Reports(b: Book, a: Attribution) {
    && Passes(b, |b.days|) && MoneyIs(b, |b.days|, a.money) && TallyIs(b, |b.days|, a.changes)
    && IsShare(a.share, a.money.entryExit, a.money.retained)
  }

  /** The share of `part` in `part + rest`, and zero of nothing. */
  ghost predicate IsShare(share: real, part: real, rest: real) {
    if part + rest == 0.0 then share == 0.0 else Compound(share, part + rest) == part
  }

  method EntryShare(part: real, rest: real) returns (share: real)
    ensures IsShare(share, part, rest)
  {
    share := if part + rest != 0.0 then part / (part + rest) else 0.0;
  }

  method Finish(b: Book, g: Progress) returns (r: Result<Attribution, Failure>)
    requires Reached(b, g) && g.day == |b.days|
    ensures r.Ok? && Passes(b, |b.days|) && Reports(b, r.value)
  {
    var share := EntryShare(g.money.entryExit, g.money.retained);
    r := Ok(Attribution(g.money, g.changes, share));
  }

  /** The daily loop. */
  method PlayDays(b: Book) returns (r: Result<Progress, Failure>)
    requires b.Valid()
    ensures r.Ok? ==> Reached(b, r.value) && r.value.day == |b.days|
    ensures r.Err? ==> !Passes(b, |b.days|)
  {
    var g := Start(b);
    while g.day < |b.days|
      invariant Reached(b, g)
    {
      var played := PlayNext(b, g);
      if played.Err? {
        return Err(played.error);
      }
      g := played.value;
    }
    r := Ok(g);
  }

  /**
    The whole report. It fails exactly when some day's fills meet an opening value of zero or the
    replayed cash drifts more than two cents from the recorded cash.
   */
  method MembershipAttribution(b: Book) returns (r: Result<Attribution, Failure>)
    requires b.Valid()
    ensures r.Ok? <==> Passes(b, |b.days|)
    ensures r.Ok? ==> Reports(b, r.value)
  {
    var played := PlayDays(b);
    if played.Err? {
      return Err(played.error);
    }
    r := Finish(b, played.value);
  }

  /** Where the cash check passes every recorded cash figure is explained by the fills so far, to two cents. */
  lemma RecordedCashIsExplained(b: Book, i: nat)
    requires i < |b.days| && CashMatches(b, |b.days|)
    ensures AbsReal(b.days[i].cash - CashAfter(FillsThrough(b, i + 1))) <= 0.02
  {
    CashIsConserved(b, i + 1, CASH);
    RecordedNear(b, i);
  }

  lemma RecordedNear(b: Book, i: nat)
    requires i < |b.days| && CashMatches(b, |b.days|)
    ensures AbsReal(b.days[i].cash - b.Cash(i + 1)) <= 0.02
  {
    var d := b.days[i];
    assert AbsReal(b.Cash(i + 1) - d.cash) <= 0.02;
  }

  // ---------------------------------------------------------------- reordering fills within days

  /** The same book but for the order of fills inside each day. */
  ghost predicate Reordered(b: Book, c: Book) {
    && b.quotes == c.quotes && |b.days| == |c.days|
    && forall i :: 0 <= i < |b.days| ==> SameDay(b.days[i], c.days[i])
  }

  ghost predicate SameDay(x: Day, y: Day) {
    multiset(x.fills) == multiset(y.fills) && x.opens == y.opens && x.cash == y.cash && x.decision == y.decision
  }

  lemma {:induction false} TradedAgrees(fs: seq<Trade>, p: Symbol -> bool, q: Symbol -> bool)
    requires forall s :: p(s) == q(s)
    ensures TradedWhere(fs, p) == TradedWhere(fs, q)
  {
    if fs != [] { TradedAgrees(fs[..|fs| - 1], p, q); }
  }

  lemma {:induction false} SameHolding(b: Book, c: Book, n: nat, s: Symbol)
    requires Reordered(b, c) && n <= |b.days|
    ensures b.Holding(n, s) == c.Holding(n, s) && b.Cash(n) == c.Cash(n) && b.LastChoice(n) == c.LastChoice(n)
    decreases n
  {
    if n > 0 {
      SameHolding(b, c, n - 1, s);
      assert SameDay(b.days[n - 1], c.days[n - 1]);
      SumsPermute(b.days[n - 1].fills, c.days[n - 1].fills, s, Every());
    }
  }

  lemma SameTraded(b: Book, c: Book, i: nat)
    requires Reordered(b, c) && i < |b.days|
    ensures TradedWhere(b.days[i].fills, b.Crossing(i)) == TradedWhere(c.days[i].fills, c.Crossing(i))
    ensures TradedWhere(b.days[i].fills, b.Staying(i)) == TradedWhere(c.days[i].fills, c.Staying(i))
    ensures TradedWhere(b.days[i].fills, Every()) == TradedWhere(c.days[i].fills, Every())
    ensures b.days[i].fills == [] <==> c.days[i].fills == []
  {
    forall s ensures b.Crosses(i, s) == c.Crosses(i, s) {
      SameHolding(b, c, i, s);
      SameHolding(b, c, i + 1, s);
    }
    assert SameDay(b.days[i], c.days[i]);
    var s: Symbol := CASH;
    SumsPermute(b.days[i].fills, c.days[i].fills, s, b.Crossing(i));
    SumsPermute(b.days[i].fills, c.days[i].fills, s, b.Staying(i));
    SumsPermute(b.days[i].fills, c.days[i].fills, s, Every());
    TradedAgrees(c.days[i].fills, b.Crossing(i), c.Crossing(i));
    TradedAgrees(c.days[i].fills, b.Staying(i), c.Staying(i));
    assert |multiset(b.days[i].fills)| == |multiset(c.days[i].fills)|;
  }

  lemma SameOpening(b: Book, c: Book, i: nat)
    requires Reordered(b, c) && i < |b.days| && b.quotes <= b.days[i].opens.Keys
    ensures c.quotes <= c.days[i].opens.Keys && b.Opening(i) == c.Opening(i)
  {
    assert SameDay(b.days[i], c.days[i]);
    forall s ensures b.Holding(i, s) == c.Holding(i, s) {
      SameHolding(b, c, i, s);
    }
    SameHolding(b, c, i, CASH);
    assert b.Values(i) == c.Values(i);
  }

  lemma SameQuotes(b: Book, c: Book, i: nat)
    requires Reordered(b, c) && i < |b.days| && b.QuotesDay(i)
    ensures c.QuotesDay(i)
  {
    assert SameDay(b.days[i], c.days[i]);
    forall j | 0 <= j < |c.days[i].fills| ensures c.days[i].fills[j].symbol in c.quotes {
      assert c.days[i].fills[j] in multiset(b.days[i].fills);
    }
  }

  lemma SamePasses(b: Book, c: Book, n: nat)
    requires Reordered(b, c) && n <= |b.days| && Passes(b, n)
    ensures Passes(c, n)
  {
    forall i | 0 <= i < n ensures c.QuotesDay(i) && (c.days[i].fills != [] ==> c.Opening(i) != 0.0) {
      assert b.QuotesDay(i);
      SameQuotes(b, c, i);
      SameOpening(b, c, i);
      SameTraded(b, c, i);
    }
    forall i | 0 <= i < n ensures AbsReal(c.Cash(i + 1) - c.days[i].cash) <= 0.02 {
      assert SameDay(b.days[i], c.days[i]);
      SameHolding(b, c, i + 1, CASH);
    }
  }

  lemma {:induction false} SameUsd(b: Book, c: Book, n: nat)
    requires Reordered(b, c) && n <= |b.days|
    ensures CrossedUsd(b, n) == CrossedUsd(c, n) && StayedUsd(b, n) == StayedUsd(c, n)
    decreases n
  {
    if n > 1 {
      SameUsd(b, c, n - 1);
      SameTraded(b, c, n - 1);
    }
  }

  lemma SameTurnover(b: Book, c: Book, i: nat)
    requires Reordered(b, c) && i < |b.days| && b.QuotesDay(i) && c.QuotesDay(i) && b.Opening(i) != 0.0 && c.Opening(i) != 0.0
    ensures Turnover(b, i, b.Crossing(i)) == Turnover(c, i, c.Crossing(i))
    ensures Turnover(b, i, b.Staying(i)) == Turnover(c, i, c.Staying(i))
    ensures Turnover(b, i, Every()) == Turnover(c, i, Every())
  {
    SameTraded(b, c, i);
    SameOpening(b, c, i);
  }

  lemma SameDayTurnover(b: Book, c: Book, i: nat, crossing: bool)
    requires Reordered(b, c) && i < |b.days| && b.QuotesDay(i) && c.QuotesDay(i)
    requires (b.days[i].fills != [] ==> b.Opening(i) != 0.0) && (c.days[i].fills != [] ==> c.Opening(i) != 0.0)
    ensures DayTurnover(b, i, crossing) == DayTurnover(c, i, crossing)
  {
    SameTraded(b, c, i);
    if b.days[i].fills != [] { SameTurnover(b, c, i); }
  }

  lemma {:induction false} SameTurnovers(b: Book, c: Book, n: nat, crossing: bool)
    requires Reordered(b, c) && n <= |b.days| && Openable(b, n) && Openable(c, n)
    ensures TurnoverWhere(b, n, crossing) == TurnoverWhere(c, n, crossing)
    decreases n
  {
    if n > 1 {
      SameTurnovers(b, c, n - 1, crossing);
      SameDayTurnover(b, c, n - 1, crossing);
    }
  }

  lemma {:induction false} SameChanges(b: Book, c: Book, n: nat, cause: Cause)
    requires Reordered(b, c) && n <= |b.days|
    ensures Changes(b, n) == Changes(c, n) && ChangesBy(b, n, cause) == ChangesBy(c, n, cause)
    decreases n
  {
    if n > 0 {
      SameChanges(b, c, n - 1, cause);
      assert SameDay(b.days[n - 1], c.days[n - 1]);
      SameHolding(b, c, n - 1, CASH);
    }
  }

  /** The order in which a day's fills are listed changes no figure of the report. */
  lemma ReorderingChangesNothing(b: Book, c: Book, a: Attribution)
    requires Reordered(b, c) && Reports(b, a)
    ensures Reports(c, a)
  {
    SamePasses(b, c, |b.days|);
    SameMoney(b, c, |b.days|, a.money);
    forall cause: Cause ensures a.changes.Of(cause) == ChangesBy(c, |c.days|, cause) && a.changes.Sum() == Changes(c, |c.days|) {
      SameChanges(b, c, |b.days|, cause);
    }
    SameChanges(b, c, |b.days|, RankCutoff);
  }

  lemma SameMoney(b: Book, c: Book, n: nat, m: Money)
    requires Reordered(b, c) && n <= |b.days| && Openable(b, n) && Openable(c, n) && MoneyIs(b, n, m)
    ensures MoneyIs(c, n, m)
  {
    SameUsd(b, c, n);
    SameTurnovers(b, c, n, true);
    SameTurnovers(b, c, n, false);
    if n > 0 {
      SameTraded(b, c, 0);
      if b.days[0].fills != [] {
        SameTurnover(b, c, 0);
      }
    }
  }
}
