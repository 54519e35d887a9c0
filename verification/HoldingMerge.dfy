/** A snapshot's rows merged by security: lines of one stock and sector add up, unidentified rows stay apart. */
module HoldingMerge {

  datatype Holding = Holding(yahoo: string, sector: string, name: string, value: real, weight: real)

  /** What makes two rows the same holding. */
  datatype Identity = Known(yahoo: string, sector: string) | Unknown(row: nat)

  function IdentityOf(rows: seq<Holding>, i: nat): Identity
    requires i < |rows|
  {
    if rows[i].yahoo != "-" then Known(rows[i].yahoo, rows[i].sector) else Unknown(i)
  }

  /** Identities of the first `n` rows, in the order of first appearance. */
  function FirstSeen(rows: seq<Holding>, n: nat): seq<Identity>
    requires n <= |rows|
  {
    if n == 0 then []
    else
      var before := FirstSeen(rows, n - 1);
      if IdentityOf(rows, n - 1) in before then before else before + [IdentityOf(rows, n - 1)]
  }

  /** Each of the first `n` rows' identities, once each. */
  lemma {:induction false} SeenOnce(rows: seq<Holding>, n: nat)
    requires n <= |rows|
    ensures forall i :: 0 <= i < n ==> IdentityOf(rows, i) in FirstSeen(rows, n)
    ensures forall i, j :: 0 <= i < j < |FirstSeen(rows, n)| ==> FirstSeen(rows, n)[i] != FirstSeen(rows, n)[j]
  {
    if n > 0 { SeenOnce(rows, n - 1); }
  }

  /** A row's market value, or its weight. */
  function Part(h: Holding, weight: bool): real { if weight then h.weight else h.value }

  /** The amount of one identity over the first `n` rows. */
  function Held(rows: seq<Holding>, n: nat, id: Identity, weight: bool): real
    requires n <= |rows|
  {
    if n == 0 then 0.0
    else Held(rows, n - 1, id, weight) + if IdentityOf(rows, n - 1) == id then Part(rows[n - 1], weight) else 0.0
  }

  function Total(rows: seq<Holding>, n: nat, weight: bool): real
    requires n <= |rows|
  {
    if n == 0 then 0.0 else Total(rows, n - 1, weight) + Part(rows[n - 1], weight)
  }

  /** The merged row of an identity: the first row's text with the summed amounts. */
  ghost predicate MergedRow(rows: seq<Holding>, n: nat, id: Identity, h: Holding)
    requires n <= |rows|
  {
    FirstText(rows, n, id, h) && h.value == Held(rows, n, id, false) && h.weight == Held(rows, n, id, true)
  }

  ghost predicate FirstText(rows: seq<Holding>, n: nat, id: Identity, h: Holding) {
    exists i: nat :: FirstWith(rows, n, i, id) && SameText(rows[i], h)
  }

  predicate SameText(a: Holding, b: Holding) {
    a.name == b.name && a.yahoo == b.yahoo && a.sector == b.sector
  }

  ghost predicate FirstWith(rows: seq<Holding>, n: nat, i: nat, id: Identity) {
    i < n <= |rows| && IdentityOf(rows, i) == id && forall j :: 0 <= j < i ==> IdentityOf(rows, j) != id
  }

  lemma {:induction false} NothingHeld(rows: seq<Holding>, n: nat, id: Identity, weight: bool)
    requires n <= |rows| && forall i :: 0 <= i < n ==> IdentityOf(rows, i) != id
    ensures Held(rows, n, id, weight) == 0.0
  {
    if n > 0 { NothingHeld(rows, n - 1, id, weight); }
  }

  ghost predicate MergedUpTo(rows: seq<Holding>, n: nat, merged: map<Identity, Holding>)
    requires n <= |rows|
  {
    && (forall id :: id in merged <==> id in FirstSeen(rows, n))
    && forall id :: id in merged ==> MergedRow(rows, n, id, merged[id])
  }

  lemma TextKept(rows: seq<Holding>, n: nat, id: Identity, h: Holding, more: Holding)
    requires n < |rows| && FirstText(rows, n, id, h) && SameText(h, more)
    ensures FirstText(rows, n + 1, id, more)
  {
    var i: nat :| FirstWith(rows, n, i, id) && SameText(rows[i], h);
    assert FirstWith(rows, n + 1, i, id) && SameText(rows[i], more);
  }

  lemma NewHolding(rows: seq<Holding>, n: nat)
    requires n < |rows| && IdentityOf(rows, n) !in FirstSeen(rows, n)
    ensures MergedRow(rows, n + 1, IdentityOf(rows, n), rows[n])
  {
    var id := IdentityOf(rows, n);
    SeenOnce(rows, n);
    NothingHeld(rows, n, id, false);
    NothingHeld(rows, n, id, true);
    assert FirstWith(rows, n + 1, n, id) && SameText(rows[n], rows[n]);
  }

  /** The row that the loop stores under row `n`'s identity. */
  function Stored(rows: seq<Holding>, n: nat, merged: map<Identity, Holding>): Holding
    requires n < |rows|
  {
    var id := IdentityOf(rows, n);
    if id in merged then merged[id].(value := merged[id].value + rows[n].value, weight := merged[id].weight + rows[n].weight)
    else rows[n]
  }

  lemma MergeStep(rows: seq<Holding>, n: nat, merged: map<Identity, Holding>)
    requires n < |rows| && MergedUpTo(rows, n, merged)
    ensures MergedUpTo(rows, n + 1, merged[IdentityOf(rows, n) := Stored(rows, n, merged)])
  {
    var id := IdentityOf(rows, n);
    var more := merged[id := Stored(rows, n, merged)];
    forall other | other in more ensures MergedRow(rows, n + 1, other, more[other]) {
      if other in merged {
        TextKept(rows, n, other, merged[other], more[other]);
      } else {
        NewHolding(rows, n);
      }
    }
  }

  /** One row's turn in the merge loop. */
  method MergeRow(rows: seq<Holding>, n: nat, merged: map<Identity, Holding>, order: seq<Identity>)
    returns (more: map<Identity, Holding>, longer: seq<Identity>)
    requires n < |rows| && order == FirstSeen(rows, n) && MergedUpTo(rows, n, merged)
    ensures longer == FirstSeen(rows, n + 1) && MergedUpTo(rows, n + 1, more)
  {
    MergeStep(rows, n, merged);
    var id := IdentityOf(rows, n);
    if id in merged {
      var kept := merged[id];
      more := merged[id := kept.(value := kept.value + rows[n].value, weight := kept.weight + rows[n].weight)];
      longer := order;
    } else {
      more := merged[id := rows[n]];
      longer := order + [id];
    }
  }

  /** The merge loop: a dictionary and the order in which it was filled. */
  method Merge(rows: seq<Holding>) returns (out: seq<Holding>)
    ensures |out| == |FirstSeen(rows, |rows|)|
    ensures forall k :: 0 <= k < |out| ==> MergedRow(rows, |rows|, FirstSeen(rows, |rows|)[k], out[k])
  {
    var merged: map<Identity, Holding> := map[];
    var order: seq<Identity> := [];
    for n := 0 to |rows|
      invariant order == FirstSeen(rows, n) && MergedUpTo(rows, n, merged)
    {
      merged, order := MergeRow(rows, n, merged, order);
    }
    out := seq(|order|, k requires 0 <= k < |order| && order[k] in merged => merged[order[k]]);
  }

  // ---------------------------------------------------------------- conservation

  function TotalHeld(rows: seq<Holding>, n: nat, ids: seq<Identity>, weight: bool): real
    requires n <= |rows|
  {
    if ids == [] then 0.0
    else TotalHeld(rows, n, ids[..|ids| - 1], weight) + Held(rows, n, ids[|ids| - 1], weight)
  }

  lemma {:induction false} OneRowMore(rows: seq<Holding>, n: nat, ids: seq<Identity>, weight: bool)
    requires n < |rows| && forall i, j :: 0 <= i < j < |ids| ==> ids[i] != ids[j]
    ensures TotalHeld(rows, n + 1, ids, weight)
         == TotalHeld(rows, n, ids, weight) + if IdentityOf(rows, n) in ids then Part(rows[n], weight) else 0.0
  {
    if ids != [] {
      var rest, last := ids[..|ids| - 1], ids[|ids| - 1];
      OneRowMore(rows, n, rest, weight);
      assert last !in rest;
      assert forall id :: id in ids <==> id in rest || id == last;
    }
  }

  /** A new identity brings its own row's amount and nothing from before. */
  lemma FirstAmount(rows: seq<Holding>, n: nat, ids: seq<Identity>, weight: bool)
    requires n < |rows| && ids == FirstSeen(rows, n) && IdentityOf(rows, n) !in ids
    ensures TotalHeld(rows, n + 1, ids + [IdentityOf(rows, n)], weight) == TotalHeld(rows, n, ids, weight) + Part(rows[n], weight)
  {
    var id := IdentityOf(rows, n);
    SeenOnce(rows, n);
    NothingHeld(rows, n, id, weight);
    OneRowMore(rows, n, ids, weight);
    assert (ids + [id])[..|ids|] == ids;
  }

  lemma HeldStep(rows: seq<Holding>, n: nat, before: seq<Identity>, after: seq<Identity>, weight: bool)
    requires n < |rows| && before == FirstSeen(rows, n)
    requires after == if IdentityOf(rows, n) in before then before else before + [IdentityOf(rows, n)]
    ensures TotalHeld(rows, n + 1, after, weight) == TotalHeld(rows, n, before, weight) + Part(rows[n], weight)
  {
    SeenOnce(rows, n);
    if IdentityOf(rows, n) in before {
      OneRowMore(rows, n, before, weight);
    } else {
      FirstAmount(rows, n, before, weight);
    }
  }

  lemma {:induction false} HeldIsTotal(rows: seq<Holding>, n: nat, weight: bool)
    requires n <= |rows|
    ensures TotalHeld(rows, n, FirstSeen(rows, n), weight) == Total(rows, n, weight)
  {
    if n > 0 {
      HeldIsTotal(rows, n - 1, weight);
      HeldNext(rows, n - 1, weight);
    }
  }

  lemma HeldNext(rows: seq<Holding>, n: nat, weight: bool)
    requires n < |rows|
    ensures TotalHeld(rows, n + 1, FirstSeen(rows, n + 1), weight) == TotalHeld(rows, n, FirstSeen(rows, n), weight) + Part(rows[n], weight)
  {
    HeldStep(rows, n, FirstSeen(rows, n), FirstSeen(rows, n + 1), weight);
  }

  lemma {:induction false} RowsAddUp(rows: seq<Holding>, out: seq<Holding>, ids: seq<Identity>, n: nat, weight: bool)
    requires n <= |out| == |ids|
    requires forall k :: 0 <= k < |out| ==> Part(out[k], weight) == Held(rows, |rows|, ids[k], weight)
    ensures Total(out, n, weight) == TotalHeld(rows, |rows|, ids[..n], weight)
  {
    if n > 0 {
      RowsAddUp(rows, out, ids, n - 1, weight);
      assert ids[..n][..n - 1] == ids[..n - 1];
    }
  }

  /** Merging loses no market value and no weight. */
  lemma MergeConserves(rows: seq<Holding>, out: seq<Holding>, weight: bool)
    requires |out| == |FirstSeen(rows, |rows|)|
    requires forall k :: 0 <= k < |out| ==> MergedRow(rows, |rows|, FirstSeen(rows, |rows|)[k], out[k])
    ensures Total(out, |out|, weight) == Total(rows, |rows|, weight)
  {
    var ids := FirstSeen(rows, |rows|);
    RowsAddUp(rows, out, ids, |out|, weight);
    assert ids[..|ids|] == ids;
    HeldIsTotal(rows, |rows|, weight);
  }

  /** Two merged rows with an identified stock differ in stock or sector. */
  lemma MergedRowsDiffer(rows: seq<Holding>, out: seq<Holding>, i: nat, j: nat)
    requires |out| == |FirstSeen(rows, |rows|)| && i < j < |out|
    requires forall k :: 0 <= k < |out| ==> MergedRow(rows, |rows|, FirstSeen(rows, |rows|)[k], out[k])
    ensures out[i].yahoo != "-" ==> (out[i].yahoo, out[i].sector) != (out[j].yahoo, out[j].sector)
  {
    var ids := FirstSeen(rows, |rows|);
    SeenOnce(rows, |rows|);
    assert MergedRow(rows, |rows|, ids[i], out[i]) && MergedRow(rows, |rows|, ids[j], out[j]);
    assert ids[i] != ids[j];
  }

  // ---------------------------------------------------------------- what each merged row stands for

  /** The amount of all rows of one stock and sector. */
  function PairAmount(rows: seq<Holding>, yahoo: string, sector: string, weight: bool): real {
    if rows == [] then 0.0 else
      var last := rows[|rows| - 1];
      PairAmount(rows[..|rows| - 1], yahoo, sector, weight)
      + if last.yahoo == yahoo && last.sector == sector then (if weight then last.weight else last.value) else 0.0
  }

  lemma {:induction false} HeldIsPairAmount(rows: seq<Holding>, n: nat, yahoo: string, sector: string, weight: bool)
    requires n <= |rows| && yahoo != "-"
    ensures Held(rows, n, Known(yahoo, sector), weight) == PairAmount(rows[..n], yahoo, sector, weight)
  {
    if n > 0 {
      HeldIsPairAmount(rows, n - 1, yahoo, sector, weight);
      assert rows[..n][..n - 1] == rows[..n - 1];
    }
  }

  lemma {:induction false} UnknownIsAlone(rows: seq<Holding>, n: nat, i: nat, weight: bool)
    requires i < n <= |rows| && rows[i].yahoo == "-"
    ensures Held(rows, n, Unknown(i), weight) == Part(rows[i], weight)
  {
    if i < n - 1 {
      UnknownIsAlone(rows, n - 1, i, weight);
    } else {
      NothingHeld(rows, i, Unknown(i), weight);
    }
  }

  /**
    An identified merged row carries the value and weight of all rows of its stock and sector; any other is
    one of the rows as it came.
   */
  lemma MergedRowIsItsRows(rows: seq<Holding>, id: Identity, h: Holding)
    requires MergedRow(rows, |rows|, id, h)
    ensures h.yahoo != "-" ==>
      h.value == PairAmount(rows, h.yahoo, h.sector, false) && h.weight == PairAmount(rows, h.yahoo, h.sector, true)
    ensures h.yahoo == "-" ==> h in rows
  {
    var i: nat :| FirstWith(rows, |rows|, i, id) && SameText(rows[i], h);
    assert rows[..|rows|] == rows;
    if h.yahoo != "-" {
      HeldIsPairAmount(rows, |rows|, h.yahoo, h.sector, false);
      HeldIsPairAmount(rows, |rows|, h.yahoo, h.sector, true);
    } else {
      UnknownIsAlone(rows, |rows|, i, false);
      UnknownIsAlone(rows, |rows|, i, true);
      assert h == rows[i];
    }
  }

  /** Every row has a merged row: one of its stock and sector, or, when it is not identified, the row itself. */
  lemma NoRowIsLost(rows: seq<Holding>, out: seq<Holding>, i: nat)
    requires i < |rows| && |out| == |FirstSeen(rows, |rows|)|
    requires forall k :: 0 <= k < |out| ==> MergedRow(rows, |rows|, FirstSeen(rows, |rows|)[k], out[k])
    ensures if rows[i].yahoo == "-" then rows[i] in out
            else exists k :: 0 <= k < |out| && out[k].yahoo == rows[i].yahoo && out[k].sector == rows[i].sector
  {
    SeenOnce(rows, |rows|);
    var ids, id := FirstSeen(rows, |rows|), IdentityOf(rows, i);
    assert id in ids;
    var k :| 0 <= k < |ids| && ids[k] == id;
    assert MergedRow(rows, |rows|, id, out[k]);
    var j: nat :| FirstWith(rows, |rows|, j, id) && SameText(rows[j], out[k]);
    if rows[i].yahoo == "-" {
      UnknownIsAlone(rows, |rows|, i, false);
      UnknownIsAlone(rows, |rows|, i, true);
      assert out[k] == rows[i];
    }
  }
}
