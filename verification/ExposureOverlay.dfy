/** The stop-loss and drawdown overlays on a simulated account, and the account rescaled by them. */
module ExposureOverlay {
  import opened Common
  import opened RealArithmetic

  /** The highest value up to and including position `i`. */
  function Peak(navs: seq<real>, i: nat): (p: real)
    requires i < |navs| && navs[0] > 0.0
    ensures p > 0.0
  {
    if i == 0 then navs[0] else MaxReal(Peak(navs, i - 1), navs[i])
  }

  function Drawdown(navs: seq<real>, i: nat): real
    requires i < |navs| && navs[0] > 0.0
  {
    navs[i] / Peak(navs, i) - 1.0
  }

  lemma {:induction false} PeakIsHighest(navs: seq<real>, i: nat, j: nat)
    requires j <= i < |navs| && navs[0] > 0.0
    ensures navs[j] <= Peak(navs, i)
    decreases i
  {
    if j < i { PeakIsHighest(navs, i - 1, j); }
  }

  lemma {:induction false} PeakIsReached(navs: seq<real>, i: nat)
    requires i < |navs| && navs[0] > 0.0
    ensures exists j :: 0 <= j <= i && navs[j] == Peak(navs, i)
    decreases i
  {
    if i > 0 { PeakIsReached(navs, i - 1); }
  }

  /** Close `i` is down to the threshold from the highest close so far. */
  ghost predicate Breaches(navs: seq<real>, threshold: real, i: nat)
    requires i < |navs| && navs[0] > 0.0
  {
    exists j :: 0 <= j <= i && (forall u :: 0 <= u <= i ==> navs[u] <= navs[j]) && navs[j] > 0.0 && navs[i] / navs[j] - 1.0 <= threshold
  }

  lemma DrawdownBreaches(navs: seq<real>, threshold: real, i: nat)
    requires i < |navs| && navs[0] > 0.0
    ensures Drawdown(navs, i) <= threshold <==> Breaches(navs, threshold, i)
  {
    PeakIsReached(navs, i);
    var j :| 0 <= j <= i && navs[j] == Peak(navs, i);
    forall u | 0 <= u <= i ensures navs[u] <= navs[j] { PeakIsHighest(navs, i, u); }
    if Breaches(navs, threshold, i) {
      var k :| 0 <= k <= i && (forall u :: 0 <= u <= i ==> navs[u] <= navs[k]) && navs[k] > 0.0 && navs[i] / navs[k] - 1.0 <= threshold;
      assert navs[k] == navs[j];
    }
  }

  // ---------------------------------------------------------------- the stop-loss overlay

  /** Cooldown sessions left after position `i`. */
  function Left(navs: seq<real>, threshold: real, days: int, i: nat): int
    requires i < |navs| && navs[0] > 0.0
    decreases i
  {
    if i == 0 then 0 else
      var before := Left(navs, threshold, days, i - 1);
      if before > 0 then before - 1
      else if Drawdown(navs, i - 1) <= threshold then days - 1
      else before
  }

  /** In the market at position `i`: not cooling down and the previous close not stopped out. */
  predicate Invested(navs: seq<real>, threshold: real, days: int, i: nat)
    requires i < |navs| && navs[0] > 0.0
  {
    i == 0 || (Left(navs, threshold, days, i - 1) <= 0 && Drawdown(navs, i - 1) > threshold)
  }

  function Exposure(invested: bool, low: real): real { if invested then 1.0 else low }

  method StopLossExposures(navs: seq<real>, threshold: real, days: int) returns (exposures: seq<real>)
    requires |navs| > 0 && navs[0] > 0.0
    ensures |exposures| == |navs|
    ensures forall i :: 0 <= i < |navs| ==> exposures[i] == Exposure(Invested(navs, threshold, days, i), 0.0)
  {
    exposures := [1.0];
    var peak, cooldown := navs[0], 0;
    for index := 1 to |navs|
      invariant |exposures| == index && peak == Peak(navs, if index == 1 then 0 else index - 2)
      invariant cooldown == Left(navs, threshold, days, index - 1)
      invariant forall i :: 0 <= i < index ==> exposures[i] == Exposure(Invested(navs, threshold, days, i), 0.0)
    {
      var previous := navs[index - 1];
      peak := MaxReal(peak, previous);
      assert peak == Peak(navs, index - 1);
      var drawdown := previous / peak - 1.0;
      if cooldown > 0 {
        exposures := exposures + [0.0];
        cooldown := cooldown - 1;
      } else if drawdown <= threshold {
        exposures := exposures + [0.0];
        cooldown := days - 1;
      } else {
        exposures := exposures + [1.0];
      }
    }
  }

  method DrawdownThrottleExposures(navs: seq<real>, threshold: real, scaled: real) returns (exposures: seq<real>)
    requires |navs| > 0 && navs[0] > 0.0
    ensures |exposures| == |navs|
    ensures forall i :: 0 <= i < |navs| ==> exposures[i] == Exposure(i == 0 || Drawdown(navs, i - 1) > threshold, scaled)
  {
    exposures := [1.0];
    var peak := navs[0];
    for index := 1 to |navs|
      invariant |exposures| == index && peak == Peak(navs, if index == 1 then 0 else index - 2)
      invariant forall i :: 0 <= i < index ==> exposures[i] == Exposure(i == 0 || Drawdown(navs, i - 1) > threshold, scaled)
    {
      peak := MaxReal(peak, navs[index - 1]);
      assert peak == Peak(navs, index - 1);
      exposures := exposures + [if navs[index - 1] / peak - 1.0 <= threshold then scaled else 1.0];
    }
  }

  // ---------------------------------------------------------------- what the overlay promises

  /** Out of the market over positions `a` to `b`, in it just before. */
  ghost predicate OutFrom(navs: seq<real>, threshold: real, days: int, a: nat, b: nat)
    requires 1 <= a <= b <= |navs| && navs[0] > 0.0
  {
    Invested(navs, threshold, days, a - 1) && forall i :: a <= i < b ==> !Invested(navs, threshold, days, i)
  }

  /** After `b - a` sessions out, those and the cooldown still to run make whole cooldowns. */
  lemma {:induction false} OutInWholeCooldowns(navs: seq<real>, threshold: real, days: int, a: nat, b: nat) returns (m: nat)
    requires 1 <= a < b <= |navs| && navs[0] > 0.0 && OutFrom(navs, threshold, days, a, b)
    ensures b - a + MaxInt(Left(navs, threshold, days, b - 1), 0) == m * MaxInt(days, 1)
    decreases b
  {
    var whole := MaxInt(days, 1);
    if b == a + 1 {
      assert !Invested(navs, threshold, days, a);
      assert Left(navs, threshold, days, a - 1) <= 0;
      m := 1;
    } else {
      m := OutInWholeCooldowns(navs, threshold, days, a, b - 1);
      assert !Invested(navs, threshold, days, b - 1);
      if Left(navs, threshold, days, b - 2) <= 0 {
        assert (m + 1) * whole == m * whole + whole;
        m := m + 1;
      }
    }
  }

  /**
    A spell out of the market that ends before the series does lasts a whole number of cooldowns, and it
    ends only after a close back above the threshold from the highest value ever seen.
   */
  lemma SpellsAreWholeCooldowns(navs: seq<real>, threshold: real, days: int, a: nat, b: nat) returns (m: nat)
    requires 1 <= a < b < |navs| && navs[0] > 0.0 && OutFrom(navs, threshold, days, a, b) && Invested(navs, threshold, days, b)
    ensures b - a == m * MaxInt(days, 1)
    ensures navs[b - 1] / Peak(navs, b - 1) - 1.0 > threshold
    ensures forall j :: 0 <= j < b ==> navs[j] <= Peak(navs, b - 1)
  {
    m := OutInWholeCooldowns(navs, threshold, days, a, b);
    forall j | 0 <= j < b ensures navs[j] <= Peak(navs, b - 1) {
      PeakIsHighest(navs, b - 1, j);
    }
  }

  lemma {:induction false} OutSinceBreach(navs: seq<real>, threshold: real, days: int, i: nat) returns (j: nat)
    requires i < |navs| && navs[0] > 0.0 && !Invested(navs, threshold, days, i)
    ensures 1 <= j <= i < j + MaxInt(days, 1) && Drawdown(navs, j - 1) <= threshold
    ensures Left(navs, threshold, days, i) == days - 1 - (i - j)
    decreases i
  {
    if Left(navs, threshold, days, i - 1) <= 0 {
      j := i;
    } else {
      assert i > 1;
      assert !Invested(navs, threshold, days, i - 1);
      j := OutSinceBreach(navs, threshold, days, i - 1);
    }
  }

  /**
    The overlay is out only for a reason: at most a cooldown ago a close was down to the threshold from the
    highest close so far. And it is out right after every such close.
   */
  lemma OutOnlyAfterBreach(navs: seq<real>, threshold: real, days: int, i: nat)
    requires i < |navs| && navs[0] > 0.0
    ensures !Invested(navs, threshold, days, i) ==> BreachWithin(navs, threshold, MaxInt(days, 1), i)
    ensures i > 0 && Breaches(navs, threshold, i - 1) ==> !Invested(navs, threshold, days, i)
  {
    if !Invested(navs, threshold, days, i) { OutWithin(navs, threshold, days, i); }
    if i > 0 { BreachGoesOut(navs, threshold, days, i); }
  }

  lemma OutWithin(navs: seq<real>, threshold: real, days: int, i: nat)
    requires i < |navs| && navs[0] > 0.0 && !Invested(navs, threshold, days, i)
    ensures BreachWithin(navs, threshold, MaxInt(days, 1), i)
  {
    var j := OutSinceBreach(navs, threshold, days, i);
    DrawdownBreaches(navs, threshold, j - 1);
  }

  lemma BreachGoesOut(navs: seq<real>, threshold: real, days: int, i: nat)
    requires 0 < i < |navs| && navs[0] > 0.0
    ensures Breaches(navs, threshold, i - 1) ==> !Invested(navs, threshold, days, i)
  {
    DrawdownBreaches(navs, threshold, i - 1);
  }

  /** One of the `n` closes before position `i` was down to the threshold. */
  ghost predicate BreachWithin(navs: seq<real>, threshold: real, n: nat, i: nat)
    requires i < |navs| && navs[0] > 0.0
  {
    exists j: nat :: j < i <= j + n && Breaches(navs, threshold, j)
  }

  // ---------------------------------------------------------------- the rescaled account

  function Move(previous: real, current: real): real {
    if previous == 0.0 then 0.0 else current / previous - 1.0
  }

  /** One session's growth at a given exposure. */
  function Grown(value: real, previous: real, current: real, exposure: real): real {
    value * (1.0 + Move(previous, current) * exposure)
  }

  /** The rescaled value at position `i`, before display rounding. */
  function Scaled(navs: seq<real>, exposures: seq<real>, i: nat): real
    requires i < |navs| && |exposures| == |navs|
  {
    if i == 0 then navs[0]
    else Grown(Scaled(navs, exposures, i - 1), navs[i - 1], navs[i], exposures[i - 1])
  }

  /** Each session's gain is the earlier exposure's share of the original gain, to the scale of the account. */
  lemma GainIsShare(navs: seq<real>, exposures: seq<real>, i: nat)
    requires 0 < i < |navs| == |exposures| && navs[i - 1] != 0.0
    ensures var before := Scaled(navs, exposures, i - 1);
      (Scaled(navs, exposures, i) - before) * navs[i - 1] == before * exposures[i - 1] * (navs[i] - navs[i - 1])
  {
    GrownShare(Scaled(navs, exposures, i - 1), navs[i - 1], navs[i], exposures[i - 1]);
  }

  lemma GrownShare(value: real, previous: real, current: real, exposure: real)
    requires previous != 0.0
    ensures (Grown(value, previous, current, exposure) - value) * previous == value * exposure * (current - previous)
  {
    var m := Move(previous, current);
    assert (m + 1.0) * previous == current;
    assert Grown(value, previous, current, exposure) - value == (value * exposure) * m;
    assert ((value * exposure) * m) * previous == (value * exposure) * (m * previous);
  }

  /** Always fully invested, the rescaled account is the account. */
  lemma {:induction false} FullExposureReproduces(navs: seq<real>, exposures: seq<real>, i: nat)
    requires i < |navs| == |exposures| && (forall j :: 0 <= j < |navs| ==> navs[j] != 0.0 && exposures[j] == 1.0)
    ensures Scaled(navs, exposures, i) == navs[i]
  {
    if i > 0 {
      FullExposureReproduces(navs, exposures, i - 1);
      GrownShare(navs[i - 1], navs[i - 1], navs[i], 1.0);
      FullGain(Grown(navs[i - 1], navs[i - 1], navs[i], 1.0), navs[i - 1], navs[i]);
    }
  }

  lemma FullGain(x: real, previous: real, current: real)
    requires previous != 0.0 && (x - previous) * previous == previous * 1.0 * (current - previous)
    ensures x == current
  {
    assert (x - current) * previous == 0.0;
  }

  /** Out of the market, or with nothing to move from, the rescaled account stands still. */
  lemma NothingGained(navs: seq<real>, exposures: seq<real>, i: nat)
    requires 0 < i < |navs| == |exposures| && (exposures[i - 1] == 0.0 || navs[i - 1] == 0.0)
    ensures Scaled(navs, exposures, i) == Scaled(navs, exposures, i - 1)
  {
  }

  datatype Row = Row(nav: real, gross: real, cash: real)

  method ScaledRows(navs: seq<real>, exposures: seq<real>) returns (rows: seq<Row>)
    requires |navs| > 0 && |exposures| == |navs|
    ensures |rows| == |navs| && rows[0] == Row(navs[0], 0.0, navs[0])
    ensures forall i :: 0 < i < |navs| ==> rows[i].nav == Scaled(navs, exposures, i) && rows[i].gross == Compound(rows[i].nav, exposures[i])
    ensures forall i :: 0 <= i < |navs| ==> rows[i].gross + rows[i].cash == rows[i].nav
  {
    var scaled := navs[0];
    rows := [Row(scaled, 0.0, scaled)];
    for i := 1 to |navs|
      invariant |rows| == i && rows[0] == Row(navs[0], 0.0, navs[0]) && scaled == Scaled(navs, exposures, i - 1)
      invariant forall j :: 0 < j < i ==> rows[j].nav == Scaled(navs, exposures, j) && rows[j].gross == Compound(rows[j].nav, exposures[j])
      invariant forall j :: 0 <= j < i ==> rows[j].gross + rows[j].cash == rows[j].nav
    {
      scaled := Grown(scaled, navs[i - 1], navs[i], exposures[i - 1]);
      var gross, cash := Compound(scaled, exposures[i]), Compound(scaled, 1.0 - exposures[i]);
      GrossAndCash(scaled, exposures[i]);
      rows := rows + [Row(scaled, gross, cash)];
    }
  }

  lemma GrossAndCash(nav: real, e: real)
    ensures Compound(nav, e) + Compound(nav, 1.0 - e) == nav
  {
  }

  lemma {:induction false} SamePeak(a: seq<real>, b: seq<real>, i: nat)
    requires i < |a| && i < |b| && a[..i + 1] == b[..i + 1] && a[0] > 0.0
    ensures b[0] == a[0] && Peak(a, i) == Peak(b, i) && a[i] == b[i]
    decreases i
  {
    assert a[0] == a[..i + 1][0] && b[0] == b[..i + 1][0] && a[i] == a[..i + 1][i] && b[i] == b[..i + 1][i];
    if i > 0 {
      assert a[..i] == a[..i + 1][..i] == b[..i];
      SamePeak(a, b, i - 1);
    }
  }

  lemma {:induction false} SameLeft(a: seq<real>, b: seq<real>, threshold: real, days: int, i: nat)
    requires i < |a| && i < |b| && a[0] > 0.0 && b[0] > 0.0 && a[..i] == b[..i]
    ensures Left(a, threshold, days, i) == Left(b, threshold, days, i)
    ensures Invested(a, threshold, days, i) == Invested(b, threshold, days, i)
    decreases i
  {
    if i > 0 {
      assert a[..i - 1] == a[..i][..i - 1] == b[..i - 1];
      SameLeft(a, b, threshold, days, i - 1);
      SamePeak(a, b, i - 1);
    }
  }

  /** The stop-loss overlay applied to an account. */
  function Overlay(navs: seq<real>, threshold: real, days: int): (e: seq<real>)
    requires |navs| > 0 && navs[0] > 0.0
    ensures |e| == |navs| && forall i :: 0 <= i < |navs| ==> e[i] == Exposure(Invested(navs, threshold, days, i), 0.0)
  {
    seq(|navs|, i requires 0 <= i < |navs| => Exposure(Invested(navs, threshold, days, i), 0.0))
  }

  /**
    No look-ahead: the exposure at a position is fixed by the values before it, and the rescaled value
    there by the values up to it.
   */
  lemma {:induction false} OverlayIsCausal(a: seq<real>, b: seq<real>, threshold: real, days: int, i: nat)
    requires i < |a| && i < |b| && a[0] > 0.0 && b[0] > 0.0 && a[..i] == b[..i]
    ensures Overlay(a, threshold, days)[i] == Overlay(b, threshold, days)[i]
    ensures a[i] == b[i] ==> Scaled(a, Overlay(a, threshold, days), i) == Scaled(b, Overlay(b, threshold, days), i)
    decreases i
  {
    SameLeft(a, b, threshold, days, i);
    if i > 0 {
      assert a[..i - 1] == a[..i][..i - 1] == b[..i - 1] && a[i - 1] == a[..i][i - 1] == b[i - 1];
      OverlayIsCausal(a, b, threshold, days, i - 1);
    }
  }
}
