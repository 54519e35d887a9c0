/** Window metrics of a valued account: compounded wealth, total return and running-peak drawdown. */
module WealthMetrics {
  import opened Common
  import opened RealArithmetic

  datatype Valuation = Valuation(date: int, nav: real)

  ghost predicate Valued(rows: seq<Valuation>, initial: real) {
    initial > 0.0 && forall i :: 0 <= i < |rows| ==> rows[i].nav > 0.0
  }

  ghost predicate Dated(rows: seq<Valuation>) {
    forall i, j :: 0 <= i < j < |rows| ==> rows[i].date <= rows[j].date
  }

  /** The value just before row `i`: the initial stake before the first. */
  function Before(rows: seq<Valuation>, initial: real, i: nat): real
    requires i <= |rows|
  {
    if i == 0 then initial else rows[i - 1].nav
  }

  function Return(rows: seq<Valuation>, initial: real, i: nat): real
    requires i < |rows| && Valued(rows, initial)
  {
    rows[i].nav / Before(rows, initial, i) - 1.0
  }

  predicate InWindow(row: Valuation, first: int, last: int) { first <= row.date <= last }

  /** Gains of the first `n` rows that fall in the window. */
  function Selected(rows: seq<Valuation>, initial: real, first: int, last: int, n: nat): seq<real>
    requires n <= |rows| && Valued(rows, initial)
  {
    if n == 0 then []
    else Selected(rows, initial, first, last, n - 1)
         + if InWindow(rows[n - 1], first, last) then [Return(rows, initial, n - 1)] else []
  }

  /** Wealth after `t` gains, starting from one. */
  function Wealth(gains: seq<real>, t: nat): real
    requires t <= |gains|
  {
    if t == 0 then 1.0 else Compound(Wealth(gains, t - 1), 1.0 + gains[t - 1])
  }

  function PeakWealth(gains: seq<real>, t: nat): (p: real)
    requires t <= |gains|
    ensures p >= 1.0
  {
    if t == 0 then 1.0 else MaxReal(PeakWealth(gains, t - 1), Wealth(gains, t))
  }

  function Dip(gains: seq<real>, t: nat): real
    requires t <= |gains|
  {
    Wealth(gains, t) / PeakWealth(gains, t) - 1.0
  }

  /** The deepest dip after one of the first `t` gains. */
  function MaxDrawdown(gains: seq<real>, t: nat): real
    requires 0 < t <= |gains|
  {
    if t == 1 then Dip(gains, 1)
    else if Dip(gains, t) < MaxDrawdown(gains, t - 1) then Dip(gains, t)
    else MaxDrawdown(gains, t - 1)
  }

  datatype Figures = Figures(sessions: nat, totalReturn: real, drawdown: real)

  /** No figures for a window without sessions. */
  function Metrics(rows: seq<Valuation>, initial: real, first: int, last: int): Option<Figures>
    requires Valued(rows, initial)
  {
    var gains := Selected(rows, initial, first, last, |rows|);
    if gains == [] then None
    else Some(Figures(|gains|, Wealth(gains, |gains|) - 1.0, MaxDrawdown(gains, |gains|)))
  }

  // ---------------------------------------------------------------- drawdown over ordered pairs

  ghost predicate Solvent(gains: seq<real>) {
    forall i :: 0 <= i < |gains| ==> gains[i] > -1.0
  }

  lemma {:induction false} WealthPositive(gains: seq<real>, t: nat)
    requires t <= |gains| && Solvent(gains)
    ensures Wealth(gains, t) > 0.0
  {
    if t > 0 {
      WealthPositive(gains, t - 1);
      ProductPositive(Wealth(gains, t - 1), 1.0 + gains[t - 1]);
    }
  }

  lemma {:induction false} PeakIsReached(gains: seq<real>, t: nat) returns (s: nat)
    requires t <= |gains|
    ensures s <= t && PeakWealth(gains, t) == Wealth(gains, s)
    ensures forall r :: 0 <= r <= t ==> Wealth(gains, r) <= PeakWealth(gains, t)
    decreases t
  {
    s := t;
    if t > 0 {
      var before := PeakIsReached(gains, t - 1);
      if Wealth(gains, t) <= PeakWealth(gains, t - 1) { s := before; }
    }
  }

  /** Later wealth relative to earlier, as a gain or loss. */
  function Change(gains: seq<real>, s: nat, t: nat): real
    requires s <= t <= |gains| && Solvent(gains)
  {
    WealthPositive(gains, s);
    Wealth(gains, t) / Wealth(gains, s) - 1.0
  }

  lemma LargerBase(w: real, low: real, high: real)
    requires w > 0.0 && 0.0 < low <= high
    ensures w / high <= w / low
  {
    var a, b := w / high, w / low;
    assert a * high == w && b * low == w;
    QuotientPositive(w, low);
    ProductMonotone(low, high, b);
    Cancel(a, b, high);
  }

  lemma DipBelowChange(gains: seq<real>, s: nat, t: nat)
    requires s <= t <= |gains| && Solvent(gains)
    ensures Dip(gains, t) <= Change(gains, s, t)
  {
    WealthPositive(gains, s);
    WealthPositive(gains, t);
    var peak := PeakIsReached(gains, t);
    LargerBase(Wealth(gains, t), Wealth(gains, s), PeakWealth(gains, t));
  }

  lemma {:induction false} DeepestDip(gains: seq<real>, n: nat) returns (t: nat)
    requires 0 < n <= |gains|
    ensures 0 < t <= n && MaxDrawdown(gains, n) == Dip(gains, t)
    ensures forall r :: 0 < r <= n ==> MaxDrawdown(gains, n) <= Dip(gains, r)
    decreases n
  {
    t := n;
    if n > 1 {
      var before := DeepestDip(gains, n - 1);
      if !(Dip(gains, n) < MaxDrawdown(gains, n - 1)) { t := before; }
    }
  }

  lemma DrawdownAtMost(gains: seq<real>, s: nat, t: nat)
    requires |gains| > 0 && s <= t <= |gains| && Solvent(gains)
    ensures MaxDrawdown(gains, |gains|) <= Change(gains, s, t)
  {
    var deepest := DeepestDip(gains, |gains|);
    if t > 0 {
      DipBelowChange(gains, s, t);
    } else {
      DipBelowChange(gains, 1, 1);
      NoChange(gains, 1);
      NoChange(gains, 0);
    }
  }

  lemma NoChange(gains: seq<real>, t: nat)
    requires t <= |gains| && Solvent(gains)
    ensures Change(gains, t, t) == 0.0
  {
    WealthPositive(gains, t);
  }

  lemma DipIsChange(gains: seq<real>, s: nat, t: nat)
    requires s <= t <= |gains| && Solvent(gains) && PeakWealth(gains, t) == Wealth(gains, s)
    ensures Dip(gains, t) == Change(gains, s, t)
  {
  }

  /** The running-peak drawdown is the least change over all ordered pairs, the start included. */
  lemma DrawdownIsWorstPair(gains: seq<real>) returns (low: nat, high: nat)
    requires |gains| > 0 && Solvent(gains)
    ensures high <= low <= |gains| && MaxDrawdown(gains, |gains|) == Change(gains, high, low)
    ensures forall s, t :: 0 <= s <= t <= |gains| ==> MaxDrawdown(gains, |gains|) <= Change(gains, s, t)
  {
    low := DeepestDip(gains, |gains|);
    high := PeakIsReached(gains, low);
    DipIsChange(gains, high, low);
    forall s, t | 0 <= s <= t <= |gains| ensures MaxDrawdown(gains, |gains|) <= Change(gains, s, t) {
      DrawdownAtMost(gains, s, t);
    }
  }

  // ---------------------------------------------------------------- the window in terms of values

  /** The rows of a window are a stretch `lo` to `hi`. */
  ghost predicate Stretch(rows: seq<Valuation>, first: int, last: int, lo: nat, hi: nat) {
    lo <= hi <= |rows| && forall i :: 0 <= i < |rows| ==> (first <= rows[i].date <= last <==> lo <= i < hi)
  }

  lemma Between(rows: seq<Valuation>, first: int, last: int, i: nat, j: nat, k: nat)
    requires Dated(rows) && i <= j <= k < |rows|
    requires InWindow(rows[i], first, last) && InWindow(rows[k], first, last)
    ensures InWindow(rows[j], first, last)
  {
  }

  lemma {:induction false} WindowIsStretch(rows: seq<Valuation>, first: int, last: int, n: nat) returns (lo: nat, hi: nat)
    requires n <= |rows| && Dated(rows)
    ensures Stretch(rows[..n], first, last, lo, hi)
    decreases n
  {
    if n == 0 {
      lo, hi := 0, 0;
    } else {
      lo, hi := WindowIsStretch(rows, first, last, n - 1);
      assert rows[..n - 1] == rows[..n][..n - 1];
      assert forall i :: 0 <= i < n - 1 ==> rows[..n - 1][i] == rows[..n][i];
      if InWindow(rows[n - 1], first, last) {
        if lo == hi { lo := n - 1; } else { Between(rows, first, last, hi - 1, hi, n - 1); }
        hi := n;
      }
    }
  }

  lemma {:induction false} SelectedIsStretch(rows: seq<Valuation>, initial: real, first: int, last: int, lo: nat, hi: nat, n: nat)
    requires n <= |rows| && Valued(rows, initial) && Stretch(rows, first, last, lo, hi)
    ensures var sel := Selected(rows, initial, first, last, n);
            && |sel| == (if n <= lo then 0 else MinInt(n, hi) - lo)
            && forall i :: 0 <= i < |sel| ==> sel[i] == Return(rows, initial, lo + i)
  {
    if n > 0 { SelectedIsStretch(rows, initial, first, last, lo, hi, n - 1); }
  }

  /** Two growth factors in a row: `b` over `a`, then `c` over `b`. */
  lemma GrowthChains(a: real, b: real, c: real)
    requires a > 0.0 && b > 0.0
    ensures Compound(b / a, 1.0 + (c / b - 1.0)) == c / a
  {
    assert (b / a) * a == b && (c / b) * b == c;
    assert ((b / a) * (c / b)) * a == c;
  }

  lemma {:induction false} WealthTelescopes(rows: seq<Valuation>, initial: real, gains: seq<real>, lo: nat, t: nat)
    requires Valued(rows, initial) && lo + |gains| <= |rows| && t <= |gains|
    requires forall i :: 0 <= i < |gains| ==> gains[i] == Return(rows, initial, lo + i)
    ensures Before(rows, initial, lo) > 0.0
    ensures Wealth(gains, t) == Before(rows, initial, lo + t) / Before(rows, initial, lo)
  {
    if t > 0 {
      WealthTelescopes(rows, initial, gains, lo, t - 1);
      GrowthChains(Before(rows, initial, lo), Before(rows, initial, lo + t - 1), rows[lo + t - 1].nav);
    }
  }

  lemma ReturnsSolvent(rows: seq<Valuation>, initial: real, i: nat)
    requires i < |rows| && Valued(rows, initial)
    ensures Return(rows, initial, i) > -1.0
  {
    QuotientPositive(rows[i].nav, Before(rows, initial, i));
  }

  lemma ChangeOfValues(w: real, v: real, base: real, x: real, y: real)
    requires base > 0.0 && x > 0.0 && w == x / base && v == y / base
    ensures w > 0.0 && v / w - 1.0 == y / x - 1.0
  {
    QuotientPositive(x, base);
    var q := v / w;
    assert w * base == x && v * base == y && q * w == v;
    assert q * x == (q * w) * base;
  }

  /** The figure of merit of a pair of moments: the later value over the earlier one. */
  function ValueChange(rows: seq<Valuation>, initial: real, s: nat, t: nat): real
    requires Valued(rows, initial) && s <= t <= |rows|
  {
    Before(rows, initial, t) / Before(rows, initial, s) - 1.0
  }

  lemma ChangeIsValueChange(rows: seq<Valuation>, initial: real, gains: seq<real>, lo: nat, s: nat, t: nat)
    requires Valued(rows, initial) && lo + |gains| <= |rows| && s <= t <= |gains| && Solvent(gains)
    requires forall i :: 0 <= i < |gains| ==> gains[i] == Return(rows, initial, lo + i)
    ensures Change(gains, s, t) == ValueChange(rows, initial, lo + s, lo + t)
  {
    WealthTelescopes(rows, initial, gains, lo, s);
    WealthTelescopes(rows, initial, gains, lo, t);
    ChangeOfValues(Wealth(gains, s), Wealth(gains, t), Before(rows, initial, lo),
                   Before(rows, initial, lo + s), Before(rows, initial, lo + t));
  }

  /**
    Over any date window of a dated account, the total return is the last value over the value just before
    the window, and the drawdown is the least change between any two moments of it.
   */
  lemma MetricsAreValueChanges(rows: seq<Valuation>, initial: real, first: int, last: int)
    returns (lo: nat, hi: nat, high: nat, low: nat)
    requires Valued(rows, initial) && Dated(rows)
    ensures Stretch(rows, first, last, lo, hi)
    ensures Metrics(rows, initial, first, last).None? <==> lo == hi
    ensures lo < hi ==> lo <= high <= low <= hi
    ensures lo < hi ==> var f := Metrics(rows, initial, first, last).value;
                        && f.sessions == hi - lo
                        && f.totalReturn == ValueChange(rows, initial, lo, hi)
                        && f.drawdown == ValueChange(rows, initial, high, low)
                        && forall s, t :: lo <= s <= t <= hi ==> f.drawdown <= ValueChange(rows, initial, s, t)
  {
    lo, hi := WindowIsStretch(rows, first, last, |rows|);
    assert rows[..|rows|] == rows;
    SelectedIsStretch(rows, initial, first, last, lo, hi, |rows|);
    high, low := lo, lo;
    if lo < hi {
      var gains := Selected(rows, initial, first, last, |rows|);
      high, low := WorstMoments(rows, initial, gains, lo);
      WealthTelescopes(rows, initial, gains, lo, |gains|);
    }
  }

  lemma WorstMoments(rows: seq<Valuation>, initial: real, gains: seq<real>, lo: nat) returns (high: nat, low: nat)
    requires Valued(rows, initial) && lo + |gains| <= |rows| && |gains| > 0
    requires forall i :: 0 <= i < |gains| ==> gains[i] == Return(rows, initial, lo + i)
    ensures lo <= high <= low <= lo + |gains|
    ensures MaxDrawdown(gains, |gains|) == ValueChange(rows, initial, high, low)
    ensures forall s, t :: lo <= s <= t <= lo + |gains| ==>
              MaxDrawdown(gains, |gains|) <= ValueChange(rows, initial, s, t)
  {
    forall i | 0 <= i < |gains| ensures gains[i] > -1.0 {
      ReturnsSolvent(rows, initial, lo + i);
    }
    var bottom, top := DrawdownIsWorstPair(gains);
    ChangeIsValueChange(rows, initial, gains, lo, top, bottom);
    high, low := lo + top, lo + bottom;
    forall s, t | lo <= s <= t <= lo + |gains|
      ensures MaxDrawdown(gains, |gains|) <= ValueChange(rows, initial, s, t)
    {
      ChangeIsValueChange(rows, initial, gains, lo, s - lo, t - lo);
    }
  }
}
