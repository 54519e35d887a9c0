/**
  What every run of the breakout engine keeps, for every market and every parameter vector:
  orders alternate, never overlap, respect delay and cooldown, and the account is long
  exactly between a buy fill and the next sell fill.
 */
module OrderBook {
  import opened Common
  import opened RealArithmetic
  import opened BreakoutEngine

  /** The order list alone: buys and sells in turn, each decided after the one before has filled. */
  ghost predicate Orderly(k: Setup, ev: seq<Order>) {
    && (forall i :: 0 <= i < |ev| ==> ev[i].side == (if i % 2 == 0 then Buy else Sell) && ev[i].fill == ev[i].day + 1 + k.delay)
    && (forall i, j :: 0 <= i < j < |ev| ==> ev[i].fill + (if ev[i].side == Sell then k.rules.cooldown else 0) <= ev[j].day)
  }

  /** The pending order is the last one listed, and the only one not yet filled. */
  ghost predicate Queued(s: State, t: nat) {
    var n := |s.events|;
    match s.pending
    case NoOrder => n > 0 ==> s.events[n - 1].fill < t
    case BuyOrder(fill, g) => t <= fill && n > 0 && s.events[n - 1].side == Buy && s.events[n - 1].fill == fill
    case SellOrder(fill) => t <= fill && n > 0 && s.events[n - 1].side == Sell && s.events[n - 1].fill == fill
  }

  /** The engine's hidden variables before session `t` agree with the end of the order list. */
  ghost predicate Linked(k: Setup, s: State, t: nat) {
    var n := |s.events|;
    && Queued(s, t)
    && (n > 0 ==> s.events[n - 1].day < t)
    && (s.episode.Some? <==> s.units > 0.0)
    && (n % 2 == 1 <==> s.pending.BuyOrder? || (s.episode.Some? && s.pending.NoOrder?))
    && (s.pending.BuyOrder? ==> s.episode.None?)
    && (s.pending.SellOrder? ==> s.episode.Some?)
    && (s.episode.Some? || s.pending.BuyOrder? ==> s.candidate.None?)
    && (s.candidate.Some? ==> t - 1 > s.cooldownUntil)
    && (s.episode.Some? ==> (s.episode.value.decision.Some? <==> s.pending.SellOrder?))
    && (s.pending.SellOrder? ==> s.episode.value.decision.value.day == s.events[n - 1].day)
    && (s.pending.NoOrder? && s.episode.None? ==>
          s.cooldownUntil == if n == 0 then -1 else s.events[n - 1].fill + k.rules.cooldown - 1)
  }

  ghost predicate Coherent(k: Setup, s: State, t: nat) {
    Orderly(k, s.events) && Linked(k, s, t)
  }

  /** The account never borrows and is never empty. */
  ghost predicate Funded(k: Setup, s: State) {
    && s.cash >= 0.0 && s.units >= 0.0
    && (s.cash > 0.0 || s.units > 0.0)
    && (k.target == 1.0 && s.units > 0.0 ==> s.cash == 0.0)
  }

  lemma NotionalIsFunded(k: Setup, cash: real)
    requires k.Valid() && k.target > 0.0 && cash > 0.0
    ensures Notional(k, cash) > 0.0
    ensures cash - Outlay(Notional(k, cash), k.fee) >= 0.0
    ensures k.target == 1.0 ==> cash - Outlay(Notional(k, cash), k.fee) == 0.0
  {
    var d := 1.0 + k.target * k.fee;
    var x := Notional(k, cash);
    QuotientPositive(k.target * cash, d);
    assert x * d == k.target * cash;
    calc {
      x * (1.0 + k.fee) * k.target;
      x * (k.target + k.target * k.fee);
    <= { ProductMonotone(k.target + k.target * k.fee, d, x); }
      x * d;
      cash * k.target;
    }
    Cancel(x * (1.0 + k.fee), cash, k.target);
  }

  /** A purchase is the target's share of what the account is worth once its fee is paid. */
  lemma PurchaseHitsTarget(k: Setup, cash: real)
    requires k.Valid()
    ensures var notional := Notional(k, cash); notional == k.target * (cash - k.fee * notional)
  {
    var d := 1.0 + k.target * k.fee;
    var x := Notional(k, cash);
    assert x * d == k.target * cash;
    assert x * d == x + k.target * (k.fee * x);
  }

  lemma FillKeepsFunded(k: Setup, s: State, t: nat)
    requires k.Valid() && k.target > 0.0 && WellFormed(s) && t < |k.bars|
    requires Funded(k, s)
    requires s.pending.BuyOrder? ==> s.units == 0.0
    requires s.pending.SellOrder? ==> s.units > 0.0
    ensures Funded(k, Fill(k, s, t))
    ensures s.pending.BuyOrder? && s.pending.fill == t ==> Fill(k, s, t).units > 0.0
  {
    if s.pending.BuyOrder? && s.pending.fill == t {
      NotionalIsFunded(k, s.cash);
      QuotientPositive(Notional(k, s.cash), k.bars[t].open);
    }
    if s.pending.SellOrder? && s.pending.fill == t {
      SaleIsPaid(s.units, k.bars[t].open, k.fee);
    }
  }

  lemma SaleIsPaid(units: real, open: real, fee: real)
    requires units > 0.0 && open > 0.0 && 0.0 <= fee < 1.0
    ensures SaleValue(units, open, fee) > 0.0
  {
    ProductPositive(units, open);
    ProductPositive(units * open, 1.0 - fee);
  }

  lemma FillKeepsCoherent(k: Setup, s: State, t: nat)
    requires k.Valid() && k.target > 0.0 && WellFormed(s) && t < |k.bars|
    requires Coherent(k, s, t) && Funded(k, s)
    ensures Coherent(k, Fill(k, s, t), t + 1) && Funded(k, Fill(k, s, t))
  {
    FillKeepsFunded(k, s, t);
  }

  lemma OrderlyExtends(k: Setup, ev: seq<Order>, o: Order)
    requires Orderly(k, ev)
    requires o.side == (if |ev| % 2 == 0 then Buy else Sell) && o.fill == o.day + 1 + k.delay
    requires |ev| > 0 ==> ev[|ev| - 1].fill + (if ev[|ev| - 1].side == Sell then k.rules.cooldown else 0) <= o.day
    ensures Orderly(k, ev + [o])
  {
  }

  ghost predicate SameTrade(a: Episode, b: Episode) {
    a.signal == b.signal && a.entryIndex == b.entryIndex && a.entry == b.entry && a.exit == b.exit
  }

  /** The three things a close can do to orders and trades: nothing, queue a sale, queue a purchase. */
  datatype Choice = Wait | QueueSale | QueueBuy

  ghost predicate Chooses(k: Setup, s: State, t: nat, r: State, choice: Choice) {
    && r.cash == s.cash && r.units == s.units && r.closed == s.closed && r.cooldownUntil == s.cooldownUntil
    && (s.episode.Some? <==> r.episode.Some?)
    && (s.episode.Some? ==> SameTrade(s.episode.value, r.episode.value))
    && (s.episode.Some? || s.pending != NoOrder || t <= s.cooldownUntil ==> r.candidate == s.candidate)
    && match choice
       case Wait =>
         && r.pending == s.pending && r.events == s.events
         && (s.episode.Some? ==> r.episode.value.decision == s.episode.value.decision)
       case QueueSale =>
         && s.pending.NoOrder? && s.episode.Some?
         && r.pending == SellOrder(t + 1 + k.delay) && r.events == s.events + [Order(t, Sell, t + 1 + k.delay)]
         && r.episode.value.decision.Some? && r.episode.value.decision.value.day == t
       case QueueBuy =>
         && s.pending.NoOrder? && s.units == 0.0 && t > s.cooldownUntil && r.candidate.None?
         && r.pending.BuyOrder? && r.pending.fill == t + 1 + k.delay
         && r.pending.signal.confirmation == t && r.pending.signal.atr > 0.0 && r.events == s.events + [Order(t, Buy, t + 1 + k.delay)]
  }

  lemma DecideChooses(k: Setup, s: State, t: nat, r: State) returns (choice: Choice)
    requires WellFormed(s) && 1 <= t < |k.bars| && Decide(k, s, t) == Ok(r)
    requires s.episode.Some? <==> s.units > 0.0
    requires s.units >= 0.0
    ensures Chooses(k, s, t, r, choice)
  {
    choice := if r.events == s.events then Wait else if r.pending.SellOrder? then QueueSale else QueueBuy;
  }

  lemma ChoiceKeepsCoherent(k: Setup, s: State, t: nat, r: State, choice: Choice)
    requires Coherent(k, s, t + 1) && Chooses(k, s, t, r, choice)
    requires s.units > 0.0 || s.units == 0.0
    ensures Coherent(k, r, t + 1)
  {
    if choice == QueueSale {
      OrderlyExtends(k, s.events, Order(t, Sell, t + 1 + k.delay));
    } else if choice == QueueBuy {
      OrderlyExtends(k, s.events, Order(t, Buy, t + 1 + k.delay));
    }
  }

  lemma DecideKeepsCoherent(k: Setup, s: State, t: nat, r: State)
    requires WellFormed(s) && 1 <= t < |k.bars| && Decide(k, s, t) == Ok(r)
    requires Coherent(k, s, t + 1) && Funded(k, s)
    ensures Coherent(k, r, t + 1) && Funded(k, r)
  {
    var choice := DecideChooses(k, s, t, r);
    ChoiceKeepsCoherent(k, s, t, r, choice);
  }

  lemma MarkKeepsCoherent(k: Setup, s: State, t: nat, mark: real)
    requires Coherent(k, s, t) && Funded(k, s)
    ensures Coherent(k, s.(mark := mark), t) && Funded(k, s.(mark := mark))
  {
  }

  lemma SessionKeepsCoherent(k: Setup, s: State, t: nat, r: State)
    requires k.Valid() && k.target > 0.0 && WellFormed(s) && 1 <= t < |k.bars|
    requires Coherent(k, s, t) && Funded(k, s) && Session(k, s, t) == Ok(r)
    ensures Coherent(k, r, t + 1) && Funded(k, r)
  {
    var f := Fill(k, s, t);
    FillKeepsCoherent(k, s, t);
    var d := Decide(k, f, t).value;
    DecideKeepsCoherent(k, f, t, d);
    MarkKeepsCoherent(k, d, t + 1, r.mark);
  }

  /** Every state of every run. */
  lemma {:induction false} RunsAreCoherent(k: Setup, t: nat, s: State)
    requires k.Valid() && k.target > 0.0 && k.First() <= t <= k.Last() && After(k, t) == Ok(s)
    ensures Coherent(k, s, t) && Funded(k, s)
    decreases t
  {
    if t > k.First() {
      var before := After(k, t - 1).value;
      RunsAreCoherent(k, t - 1, before);
      SessionKeepsCoherent(k, before, t - 1, s);
    }
  }
}
