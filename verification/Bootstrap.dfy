/**
  Resampled means and variances for one return column: prefix-sum circular blocks against an explicit
  wrap-around index list, and histogram moments of the stationary bootstrap against direct sums.
 */
module Bootstrap {
  import opened Common
  import opened RealArithmetic

  function Sum(x: seq<real>): real {
    if x == [] then 0.0 else Sum(x[..|x| - 1]) + x[|x| - 1]
  }

  function Mean(total: real, n: nat): real
    requires n > 0
  {
    total / (n as real)
  }

  /** The values picked by an index list. */
  function Picked(x: seq<real>, idx: seq<nat>): (r: seq<real>)
    requires forall t :: 0 <= t < |idx| ==> idx[t] < |x|
    ensures |r| == |idx| && forall t :: 0 <= t < |idx| ==> r[t] == x[idx[t]]
  {
    seq(|idx|, t requires 0 <= t < |idx| => x[idx[t]])
  }

  lemma {:induction false} SumConcat(a: seq<real>, b: seq<real>)
    ensures Sum(a + b) == Sum(a) + Sum(b)
    decreases |b|
  {
    if b == [] {
      assert a + b == a;
    } else {
      assert (a + b)[..|a + b| - 1] == a + b[..|b| - 1];
      SumConcat(a, b[..|b| - 1]);
    }
  }

  lemma SumSlice(x: seq<real>, i: nat, j: nat)
    requires i <= j <= |x|
    ensures Sum(x[i..j]) == Sum(x[..j]) - Sum(x[..i])
  {
    assert x[..j] == x[..i] + x[i..j];
    SumConcat(x[..i], x[i..j]);
  }

  // ---------------------------------------------------------------- explicit circular blocks

  function Mod(i: nat, n: nat): (r: nat)
    requires n > 0
    ensures r < n
  {
    i % n
  }

  /** One block of wrap-around indices. */
  function Block(s: nat, block: nat, n: nat): (r: seq<nat>)
    requires n > 0
    ensures |r| == block && forall d :: 0 <= d < block ==> r[d] == Mod(s + d, n) && r[d] < n
  {
    if block == 0 then [] else Block(s, block - 1, n) + [Mod(s + block - 1, n)]
  }

  function Blocks(starts: seq<nat>, block: nat, n: nat): (r: seq<nat>)
    requires n > 0
    ensures forall t :: 0 <= t < |r| ==> r[t] < n
  {
    if starts == [] then [] else Blocks(starts[..|starts| - 1], block, n) + Block(starts[|starts| - 1], block, n)
  }

  lemma {:induction false} BlocksLength(starts: seq<nat>, block: nat, n: nat)
    requires n > 0
    ensures |Blocks(starts, block, n)| == |starts| * block
  {
    if starts != [] {
      BlocksLength(starts[..|starts| - 1], block, n);
      assert (|starts| - 1) * block + block == |starts| * block;
    }
  }

  /** The resample of the range-breakout family test: whole blocks, cut at the sample length. */
  method FamilyMean(x: seq<real>, starts: seq<nat>, block: nat) returns (mean: real)
    requires |x| > 0 && block > 0 && |starts| == (|x| + block - 1) / block
    ensures |Blocks(starts, block, |x|)| >= |x|
    ensures mean == Mean(Sum(Picked(x, Blocks(starts, block, |x|)[..|x|])), |x|)
  {
    var n := |x|;
    EnoughBlocks(n, block, |starts|);
    BlocksLength(starts, block, n);
    var total := SumPicked(x, Blocks(starts, block, n)[..n]);
    mean := Mean(total, n);
  }

  /** The gathered sum of an index list. */
  method SumPicked(x: seq<real>, idx: seq<nat>) returns (total: real)
    requires forall t :: 0 <= t < |idx| ==> idx[t] < |x|
    ensures total == Sum(Picked(x, idx))
  {
    total := 0.0;
    for t := 0 to |idx|
      invariant total == Sum(Picked(x, idx[..t]))
    {
      assert Picked(x, idx[..t + 1])[..t] == Picked(x, idx[..t]);
      total := total + x[idx[t]];
    }
    assert idx[..|idx|] == idx;
  }

  lemma EnoughBlocks(n: nat, block: nat, count: nat)
    requires n > 0 && block > 0 && count == (n + block - 1) / block
    ensures count * block >= n
  {
  }

  // ---------------------------------------------------------------- prefix sums

  /** The column followed by its own first `block` values. */
  function Doubled(x: seq<real>, block: nat): seq<real> {
    x + x[..MinInt(block, |x|)]
  }

  /** Running totals, one longer than the extended column. */
  method PrefixSums(y: seq<real>) returns (prefix: array<real>)
    ensures fresh(prefix) && prefix.Length == |y| + 1
    ensures forall i :: 0 <= i <= |y| ==> prefix[i] == Sum(y[..i])
  {
    prefix := new real[|y| + 1];
    prefix[0] := 0.0;
    for i := 0 to |y|
      invariant forall j :: 0 <= j <= i ==> prefix[j] == Sum(y[..j])
    {
      assert y[..i + 1][..i] == y[..i];
      prefix[i + 1] := prefix[i] + y[i];
    }
  }

  lemma WrapsOnce(i: nat, n: nat)
    requires i < 2 * n
    ensures Mod(i, n) == if i < n then i else i - n
  {
  }

  lemma DoubledAt(x: seq<real>, block: nat, i: nat)
    requires |x| > 0 && i < |Doubled(x, block)|
    ensures Doubled(x, block)[i] == x[Mod(i, |x|)]
  {
    WrapsOnce(i, |x|);
  }

  /** A stretch of the extended column is a circular block of the column. */
  lemma StretchIsBlock(x: seq<real>, y: seq<real>, block: nat, s: nat, m: nat)
    requires |x| > 0 && y == Doubled(x, block) && s + m <= |y|
    ensures y[s..s + m] == Picked(x, Block(s, m, |x|))
  {
    var a, b := y[s..s + m], Picked(x, Block(s, m, |x|));
    forall d | 0 <= d < m ensures a[d] == b[d] {
      DoubledAt(x, block, s + d);
    }
  }

  /** A prefix difference is the sum of that circular block. */
  lemma DifferenceIsBlockSum(x: seq<real>, y: seq<real>, block: nat, s: nat, m: nat)
    requires |x| > 0 && y == Doubled(x, block) && s + m <= |y|
    ensures Sum(y[..s + m]) - Sum(y[..s]) == Sum(Picked(x, Block(s, m, |x|)))
  {
    var z := y[s..s + m];
    StretchSum(y, s, s + m, z);
    StretchIsBlock(x, y, block, s, m);
  }

  lemma StretchSum(y: seq<real>, i: nat, j: nat, z: seq<real>)
    requires i <= j <= |y| && z == y[i..j]
    ensures Sum(y[..j]) - Sum(y[..i]) == Sum(z)
  {
    SumSlice(y, i, j);
  }

  lemma PickedConcat(x: seq<real>, a: seq<nat>, b: seq<nat>)
    requires forall t :: 0 <= t < |a| ==> a[t] < |x|
    requires forall t :: 0 <= t < |b| ==> b[t] < |x|
    ensures Sum(Picked(x, a + b)) == Sum(Picked(x, a)) + Sum(Picked(x, b))
  {
    assert Picked(x, a + b) == Picked(x, a) + Picked(x, b);
    SumConcat(Picked(x, a), Picked(x, b));
  }

  /** The index list that a draw stands for: full blocks, then the first `n mod block` steps of one more. */
  function DrawIndices(starts: seq<nat>, last: nat, block: nat, n: nat): (r: seq<nat>)
    requires n > 0 && block > 0
    ensures forall t :: 0 <= t < |r| ==> r[t] < n
  {
    Blocks(starts, block, n) + Block(last, n % block, n)
  }

  /** The gathered full blocks of one draw. */
  method SumBlocks(x: seq<real>, block: nat, starts: seq<nat>, prefix: array<real>) returns (total: real)
    requires |x| > 0 && 0 < block && (starts != [] ==> block <= |x|)
    requires forall j :: 0 <= j < |starts| ==> starts[j] < |x|
    requires prefix.Length == |Doubled(x, block)| + 1 && forall i :: 0 <= i < prefix.Length ==> prefix[i] == Sum(Doubled(x, block)[..i])
    ensures total == Sum(Picked(x, Blocks(starts, block, |x|)))
  {
    total := 0.0;
    for j := 0 to |starts|
      invariant total == Sum(Picked(x, Blocks(starts[..j], block, |x|)))
    {
      var s := starts[j];
      DifferenceIsBlockSum(x, Doubled(x, block), block, s, block);
      BlocksAppend(x, starts, j, block);
      total := total + (prefix[s + block] - prefix[s]);
    }
    assert starts[..|starts|] == starts;
  }

  /** One draw of the block audit. Beyond a block of `n + 1` the gather leaves the prefix array. */
  method BlockDraw(x: seq<real>, block: nat, starts: seq<nat>, last: nat) returns (r: Option<real>)
    requires |x| > 0 && block > 0 && |starts| == |x| / block && last < |x|
    requires forall j :: 0 <= j < |starts| ==> starts[j] < |x|
    ensures r.Some? <==> block <= |x| + 1
    ensures r.Some? ==> r.value == Mean(Sum(Picked(x, DrawIndices(starts, last, block, |x|))), |x|)
  {
    var n := |x|;
    var remainder := n % block;
    var doubled := Doubled(x, block);
    if n - 1 + block > |doubled| { return None; }
    RemainderFits(n, block);
    if |starts| > 0 { BlockFits(n, block, |starts|); }
    var prefix := PrefixSums(doubled);
    var total := SumBlocks(x, block, starts, prefix);
    DifferenceIsBlockSum(x, doubled, block, last, remainder);
    PickedConcat(x, Blocks(starts, block, n), Block(last, remainder, n));
    var sum := total + (prefix[last + remainder] - prefix[last]);
    assert sum == Sum(Picked(x, DrawIndices(starts, last, block, n)));
    r := Some(Mean(sum, n));
  }

  lemma BlockFits(n: nat, block: nat, count: nat)
    requires block > 0 && count == n / block && count > 0
    ensures block <= n
  {
  }

  lemma BlocksAppend(x: seq<real>, starts: seq<nat>, j: nat, block: nat)
    requires |x| > 0 && j < |starts|
    ensures Sum(Picked(x, Blocks(starts[..j + 1], block, |x|)))
         == Sum(Picked(x, Blocks(starts[..j], block, |x|))) + Sum(Picked(x, Block(starts[j], block, |x|)))
  {
    assert starts[..j + 1][..j] == starts[..j];
    PickedConcat(x, Blocks(starts[..j], block, |x|), Block(starts[j], block, |x|));
  }

  lemma RemainderFits(n: nat, block: nat)
    requires n > 0 && block > 0
    ensures n % block <= n && n % block < block
  {
  }

  lemma BlockPrefix(s: nat, m: nat, block: nat, n: nat)
    requires n > 0 && m <= block
    ensures Block(s, block, n)[..m] == Block(s, m, n)
  {
  }

  lemma CutAppended(full: seq<nat>, tail: seq<nat>, n: nat, m: nat)
    requires |full| + m == n && m <= |tail|
    ensures (full + tail)[..n] == full + tail[..m]
  {
  }

  /** Both tests resample the same way: cutting the block list at `n` leaves full blocks and one tail. */
  lemma DrawIsCutBlockList(starts: seq<nat>, last: nat, block: nat, n: nat)
    requires n > 0 && block > 0 && |starts| == n / block
    ensures var all := Blocks(if n % block == 0 then starts else starts + [last], block, n);
      |all| >= n && DrawIndices(starts, last, block, n) == all[..n]
  {
    var full, m := Blocks(starts, block, n), n % block;
    BlocksLength(starts, block, n);
    RemainderFits(n, block);
    assert |full| + m == n;
    if m == 0 {
      assert DrawIndices(starts, last, block, n) == full + [] == full == full[..n];
    } else {
      assert (starts + [last])[..|starts|] == starts;
      assert Blocks(starts + [last], block, n) == full + Block(last, block, n);
      CutAppended(full, Block(last, block, n), n, m);
      BlockPrefix(last, m, block, n);
    }
  }

  // ---------------------------------------------------------------- the stationary bootstrap

  /** The index walk: restart at a fresh start, else step to the next session around the circle. */
  function Walk(starts: seq<nat>, restart: seq<bool>, n: nat, t: nat): (i: nat)
    requires n > 0 && |starts| == |restart| && t < |starts| && forall j :: 0 <= j < |starts| ==> starts[j] < n
    ensures i < n
  {
    if t == 0 || restart[t] then starts[t] else Mod(Walk(starts, restart, n, t - 1) + 1, n)
  }

  /** Since the last restart the walk has taken one step round the circle of `n` sessions for each session. */
  lemma {:induction false} WalkStepsRound(starts: seq<nat>, restart: seq<bool>, n: nat, s: nat, t: nat) returns (laps: nat)
    requires n > 0 && |starts| == |restart| && s <= t < |starts| && forall j :: 0 <= j < |starts| ==> starts[j] < n
    requires (s == 0 || restart[s]) && forall d :: s < d <= t ==> !restart[d]
    ensures starts[s] + (t - s) == Walk(starts, restart, n, t) + laps * n && Walk(starts, restart, n, t) < n
    decreases t
  {
    laps := 0;
    if s < t {
      laps := WalkStepsRound(starts, restart, n, s, t - 1);
      WrapsOnce(Walk(starts, restart, n, t - 1) + 1, n);
      if Walk(starts, restart, n, t - 1) + 1 == n {
        assert (laps + 1) * n == laps * n + n;
        laps := laps + 1;
      }
    }
  }

  function WalkTo(starts: seq<nat>, restart: seq<bool>, n: nat, m: nat): (r: seq<nat>)
    requires n > 0 && |starts| == |restart| && m <= |starts| && forall j :: 0 <= j < |starts| ==> starts[j] < n
    ensures |r| == m && forall t :: 0 <= t < m ==> r[t] == Walk(starts, restart, n, t) && r[t] < n
  {
    seq(m, t requires 0 <= t < m => Walk(starts, restart, n, t))
  }

  function Weighted(w: seq<real>, y: seq<real>): real
    requires |w| == |y|
  {
    if w == [] then 0.0 else Weighted(w[..|w| - 1], y[..|y| - 1]) + Compound(w[|w| - 1], y[|y| - 1])
  }

  function Squares(x: seq<real>): (r: seq<real>)
    ensures |r| == |x| && forall i :: 0 <= i < |x| ==> r[i] == Compound(x[i], x[i])
  {
    seq(|x|, i requires 0 <= i < |x| => Compound(x[i], x[i]))
  }

  function Ones(n: nat): (r: seq<real>)
    ensures |r| == n && forall i :: 0 <= i < n ==> r[i] == 1.0
  {
    seq(n, _ => 1.0)
  }

  lemma CompoundPlusOne(w: real, y: real)
    ensures Compound(w + 1.0, y) == Compound(w, y) + y
  {
  }

  /** One more visit to `j` adds its value to every weighted sum. */
  lemma {:induction false} OneMoreVisit(w: seq<real>, y: seq<real>, j: nat)
    requires |w| == |y| && j < |w|
    ensures Weighted(w[j := w[j] + 1.0], y) == Weighted(w, y) + y[j]
  {
    var v, m := w[j := w[j] + 1.0], |w| - 1;
    if j == m {
      assert v[..m] == w[..m];
      CompoundPlusOne(w[j], y[j]);
    } else {
      assert v[..m] == w[..m][j := w[j] + 1.0];
      OneMoreVisit(w[..m], y[..m], j);
    }
  }

  lemma {:induction false} NoVisits(w: seq<real>, y: seq<real>)
    requires |w| == |y| && forall i :: 0 <= i < |w| ==> w[i] == 0.0
    ensures Weighted(w, y) == 0.0
  {
    if w != [] {
      NoVisits(w[..|w| - 1], y[..|y| - 1]);
      CompoundUnits(y[|y| - 1]);
    }
  }

  /** A histogram of an index list gives the list's own sums, whatever is being summed. */
  ghost predicate Counts(w: seq<real>, idx: seq<nat>, n: nat) {
    && |w| == n
    && (forall t :: 0 <= t < |idx| ==> idx[t] < n)
    && forall y: seq<real> :: |y| == n ==> Weighted(w, y) == Sum(Picked(y, idx))
  }

  lemma CountsOneMore(w: seq<real>, idx: seq<nat>, n: nat, j: nat)
    requires Counts(w, idx, n) && j < n
    ensures Counts(w[j := w[j] + 1.0], idx + [j], n)
  {
    forall y: seq<real> | |y| == n ensures Weighted(w[j := w[j] + 1.0], y) == Sum(Picked(y, idx + [j])) {
      OneMoreVisit(w, y, j);
      assert Picked(y, idx + [j])[..|idx|] == Picked(y, idx);
    }
  }

  /** The walk, filled in place. */
  method FillWalk(starts: seq<nat>, restart: seq<bool>, n: nat) returns (idx: array<nat>)
    requires n > 0 && |starts| == |restart| == n && forall j :: 0 <= j < n ==> starts[j] < n
    ensures fresh(idx) && idx[..] == WalkTo(starts, restart, n, n)
  {
    idx := new nat[n](_ => 0);
    idx[0] := starts[0];
    for t := 1 to n
      invariant forall d :: 0 <= d < t ==> idx[d] == Walk(starts, restart, n, d)
    {
      idx[t] := if restart[t] then starts[t] else Mod(idx[t - 1] + 1, n);
    }
  }

  lemma CountsNothing(w: seq<real>, n: nat)
    requires |w| == n && forall i :: 0 <= i < n ==> w[i] == 0.0
    ensures Counts(w, [], n)
  {
    forall y: seq<real> | |y| == n ensures Weighted(w, y) == Sum(Picked(y, [])) {
      NoVisits(w, y);
    }
  }

  /** One more visit to `j`, counted in place. */
  method Visit(weights: array<real>, j: nat, ghost seen: seq<nat>)
    requires j < weights.Length && Counts(weights[..], seen, weights.Length)
    modifies weights
    ensures Counts(weights[..], seen + [j], weights.Length)
    ensures weights[..] == old(weights[..])[j := old(weights[j]) + 1.0]
  {
    CountsOneMore(weights[..], seen, weights.Length, j);
    ghost var before := weights[..];
    weights[j] := weights[j] + 1.0;
    assert weights[..] == before[j := before[j] + 1.0];
  }

  /** The walk's histogram, accumulated in place. */
  method Histogram(starts: seq<nat>, restart: seq<bool>, n: nat) returns (weights: array<real>)
    requires n > 0 && |starts| == |restart| == n && forall j :: 0 <= j < n ==> starts[j] < n
    ensures fresh(weights) && Counts(weights[..], WalkTo(starts, restart, n, n), n)
  {
    var idx := FillWalk(starts, restart, n);
    ghost var walk := idx[..];
    weights := new real[n](_ => 0.0);
    CountsNothing(weights[..], n);
    for t := 0 to n
      invariant idx[..] == walk && |walk| == n && weights.Length == n
      invariant Counts(weights[..], walk[..t], n)
    {
      Visit(weights, idx[t], walk[..t]);
      assert walk[..t + 1] == walk[..t] + [walk[t]];
    }
    assert walk[..n] == walk;
  }

  // ---------------------------------------------------------------- two-pass moments

  function Deviations(z: seq<real>, c: real): real {
    if z == [] then 0.0 else Deviations(z[..|z| - 1], c) + Compound(z[|z| - 1] - c, z[|z| - 1] - c)
  }

  lemma SquareOf(a: real, c: real)
    ensures Compound(a - c, a - c) == Compound(a, a) - 2.0 * Compound(c, a) + Compound(c, c)
    ensures Compound(a - c, a - c) >= 0.0
  {
    assert (a - c) * (a - c) == a * a - 2.0 * (c * a) + c * c;
  }

  lemma LinearStep(c: real, s: real, a: real, m: nat)
    ensures Compound(c, s + a) == Compound(c, s) + Compound(c, a)
    ensures Lots(Compound(c, c), m + 1) == Lots(Compound(c, c), m) + Compound(c, c)
  {
    OneLotMore(Compound(c, c), m);
  }

  lemma {:induction false} DeviationsExpand(z: seq<real>, c: real)
    ensures Deviations(z, c) == Sum(Squares(z)) - 2.0 * Compound(c, Sum(z)) + Lots(Compound(c, c), |z|)
    ensures Deviations(z, c) >= 0.0
  {
    if z == [] {
      assert Compound(c, 0.0) == 0.0 && Lots(Compound(c, c), 0) == 0.0;
    } else {
      var rest, a := z[..|z| - 1], z[|z| - 1];
      DeviationsExpand(rest, c);
      assert Squares(z)[..|z| - 1] == Squares(rest);
      SquareOf(a, c);
      LinearStep(c, Sum(rest), a, |rest|);
    }
  }

  /** The one-pass variance: second moment less the squared mean, over one less than the count. */
  function Spread(second: real, mean: real, n: nat): real
    requires n > 1
  {
    (second - (n as real) * mean * mean) / ((n - 1) as real)
  }

  /** The two-pass sample variance around a centre. */
  function SampleVariance(z: seq<real>, c: real): real
    requires |z| > 1
  {
    Deviations(z, c) / ((|z| - 1) as real)
  }

  lemma MeanCancels(s: real, n: nat, mean: real)
    requires n > 0 && mean == s / (n as real)
    ensures 2.0 * Compound(mean, s) - Lots(Compound(mean, mean), n) == (n as real) * mean * mean
  {
    var m := n as real;
    assert mean * m == s;
    assert mean * s == m * mean * mean;
  }

  lemma SpreadIs(second: real, s: real, deviations: real, mean: real, n: nat)
    requires n > 1 && mean == s / (n as real)
    requires deviations == second - 2.0 * Compound(mean, s) + Lots(Compound(mean, mean), n)
    ensures Spread(second, mean, n) == deviations / ((n - 1) as real)
  {
    MeanCancels(s, n, mean);
  }

  /** Mean and variance as the report computes them; one session has no sample variance. */
  method Moments(x: seq<real>, weights: array<real>) returns (mean: real, variance: Option<real>)
    requires |x| > 0 && weights.Length == |x|
    ensures mean == Mean(Weighted(weights[..], x), |x|)
    ensures variance == if |x| == 1 then None else Some(MaxReal(Spread(Weighted(weights[..], Squares(x)), mean, |x|), 0.0))
  {
    var n := |x|;
    var first, second := 0.0, 0.0;
    for i := 0 to n
      invariant first == Weighted(weights[..i], x[..i]) && second == Weighted(weights[..i], Squares(x)[..i])
    {
      assert weights[..i + 1][..i] == weights[..i] && x[..i + 1][..i] == x[..i];
      assert Squares(x)[..i + 1][..i] == Squares(x)[..i];
      first, second := first + Compound(weights[i], x[i]), second + Compound(weights[i], Compound(x[i], x[i]));
    }
    assert weights[..n] == weights[..] && x[..n] == x && Squares(x)[..n] == Squares(x);
    mean := Mean(first, n);
    variance := if n == 1 then None else Some(MaxReal(Spread(second, mean, n), 0.0));
  }

  lemma ScaledSquares(x: seq<real>, idx: seq<nat>)
    requires forall t :: 0 <= t < |idx| ==> idx[t] < |x|
    ensures Picked(Squares(x), idx) == Squares(Picked(x, idx))
  {
  }

  lemma NonnegativeQuotient(a: real, b: real)
    requires a >= 0.0 && b > 0.0
    ensures a / b >= 0.0
  {
    if a > 0.0 { QuotientPositive(a, b); }
  }

  /**
    For every start and restart pattern the histogram's weights add to `n`, its mean is the resample's
    mean, and its variance is the resample's two-pass sample variance, so the clamp at zero never acts.
   */
  lemma HistogramMomentsAreResampleMoments(x: seq<real>, w: seq<real>, idx: seq<nat>, z: seq<real>, mean: real)
    requires |x| > 1 && |idx| == |x| && Counts(w, idx, |x|)
    requires z == Picked(x, idx) && mean == Mean(Weighted(w, x), |x|)
    ensures Weighted(w, Ones(|x|)) == |x| as real
    ensures mean == Mean(Sum(z), |x|)
    ensures Spread(Weighted(w, Squares(x)), mean, |x|) == SampleVariance(z, mean)
    ensures MaxReal(SampleVariance(z, mean), 0.0) == SampleVariance(z, mean)
  {
    OnesAddUp(w, idx, |x|);
    CountsApply(w, idx, |x|, x);
    SquaresMatch(x, w, idx);
    SpreadIsVariance(z, |x|);
  }

  /**
    One draw of the stationary bootstrap, walk, histogram and moments in turn. For every start and restart
    pattern the result is the plain mean and sample variance of the column read along the walk.
   */
  method ResampleMoments(x: seq<real>, starts: seq<nat>, restart: seq<bool>) returns (mean: real, variance: Option<real>)
    requires |x| > 0 && |starts| == |restart| == |x| && forall j :: 0 <= j < |starts| ==> starts[j] < |x|
    ensures var z := Picked(x, WalkTo(starts, restart, |x|, |x|));
      && mean == Mean(Sum(z), |x|)
      && variance == if |x| == 1 then None else Some(SampleVariance(z, mean))
  {
    var n := |x|;
    ghost var idx := WalkTo(starts, restart, n, n);
    var weights := Histogram(starts, restart, n);
    mean, variance := Moments(x, weights);
    CountsApply(weights[..], idx, n, x);
    if n > 1 {
      HistogramMomentsAreResampleMoments(x, weights[..], idx, Picked(x, idx), mean);
    }
  }

  lemma OnesAddUp(w: seq<real>, idx: seq<nat>, n: nat)
    requires |idx| == n && Counts(w, idx, n)
    ensures Weighted(w, Ones(n)) == n as real
  {
    var y := Picked(Ones(n), idx);
    SumOfOnes(y);
    CountsApply(w, idx, n, Ones(n));
  }

  lemma SquaresMatch(x: seq<real>, w: seq<real>, idx: seq<nat>)
    requires Counts(w, idx, |x|)
    ensures Weighted(w, Squares(x)) == Sum(Squares(Picked(x, idx)))
  {
    CountsApply(w, idx, |x|, Squares(x));
    ScaledSquares(x, idx);
  }

  lemma CountsApply(w: seq<real>, idx: seq<nat>, n: nat, y: seq<real>)
    requires Counts(w, idx, n) && |y| == n
    ensures Weighted(w, y) == Sum(Picked(y, idx))
  {
  }

  lemma SpreadIsVariance(z: seq<real>, n: nat)
    requires |z| == n > 1
    ensures var mean := Mean(Sum(z), n);
      Spread(Sum(Squares(z)), mean, n) == SampleVariance(z, mean) >= 0.0
  {
    var mean := Mean(Sum(z), n);
    DeviationsExpand(z, mean);
    SpreadIs(Sum(Squares(z)), Sum(z), Deviations(z, mean), mean, n);
    NonnegativeQuotient(Deviations(z, mean), (n - 1) as real);
  }

  lemma {:induction false} SumOfOnes(y: seq<real>)
    requires forall i :: 0 <= i < |y| ==> y[i] == 1.0
    ensures Sum(y) == |y| as real
  {
    if y != [] { SumOfOnes(y[..|y| - 1]); }
  }
}
