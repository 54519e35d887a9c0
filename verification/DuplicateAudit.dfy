/**
  The audit's in-place duplicate fold: one row per strategy key, the better of two by
  (current champion first, then later end date), the earlier visited on a tie.
 */
module DuplicateAudit {
  import opened Common

  /** End dates are ordinals; ISO date strings compare the same way. */
  datatype Row = Row(key: string, champion: bool, endDate: int, path: string)

  /** The later visited row replaces the kept one. */
  predicate IsPreferred(candidate: Row, existing: Row) {
    if candidate.champion && !existing.champion then true
    else if existing.champion && !candidate.champion then false
    else candidate.endDate > existing.endDate
  }

  predicate RanksAtLeast(a: Row, b: Row) { !IsPreferred(b, a) }

  predicate SameRank(a: Row, b: Row) { a.champion == b.champion && a.endDate == b.endDate }

  lemma RankIsTotalOrder(a: Row, b: Row, c: Row)
    ensures RanksAtLeast(a, b) || RanksAtLeast(b, a)
    ensures RanksAtLeast(a, b) && RanksAtLeast(b, c) ==> RanksAtLeast(a, c)
    ensures RanksAtLeast(a, b) && RanksAtLeast(b, a) <==> SameRank(a, b)
    ensures IsPreferred(a, b) <==> RanksAtLeast(a, b) && !SameRank(a, b)
  {
  }

  /** Visit `i` is the first of the best visits with its key. */
  ghost predicate FirstBest(visits: seq<Row>, i: nat) {
    && i < |visits|
    && (forall j :: 0 <= j < |visits| && visits[j].key == visits[i].key ==> RanksAtLeast(visits[i], visits[j]))
    && (forall j :: 0 <= j < i && visits[j].key == visits[i].key ==> IsPreferred(visits[i], visits[j]))
  }

  /**
    Visit `i` among the visits of its key: a champion if any is, with the latest end date among those that are
    champions as it is or not, and the first of them with that date.
   */
  ghost predicate NewestOf(visits: seq<Row>, i: nat) {
    && i < |visits|
    && (forall j :: 0 <= j < |visits| && visits[j].key == visits[i].key && visits[j].champion ==> visits[i].champion)
    && (forall j :: 0 <= j < |visits| && visits[j].key == visits[i].key && visits[j].champion == visits[i].champion ==>
          visits[j].endDate <= visits[i].endDate)
    && (forall j :: 0 <= j < i && visits[j].key == visits[i].key && visits[j].champion == visits[i].champion ==>
          visits[j].endDate < visits[i].endDate)
  }

  lemma FirstBestIsNewest(visits: seq<Row>, i: nat)
    ensures FirstBest(visits, i) <==> NewestOf(visits, i)
  {
    if NewestOf(visits, i) {
      forall j | 0 <= j < |visits| && visits[j].key == visits[i].key ensures RanksAtLeast(visits[i], visits[j]) {
        assert visits[j].champion ==> visits[i].champion;
      }
    }
  }

  /** Row `p` is visit `at[p]`; keys differ, every visited key is kept, and each kept visit is its key's first best. */
  ghost predicate Keeps(visits: seq<Row>, rows: seq<Row>, at: seq<nat>) {
    && |rows| == |at|
    && (forall p :: 0 <= p < |rows| ==> FirstBest(visits, at[p]) && rows[p] == visits[at[p]])
    && (forall p, q :: 0 <= p < q < |rows| ==> rows[p].key != rows[q].key)
    && (forall j :: 0 <= j < |visits| ==> Kept(rows, visits[j].key))
  }

  ghost predicate Kept(rows: seq<Row>, key: string) {
    exists p :: 0 <= p < |rows| && rows[p].key == key
  }

  method FindKey(rows: seq<Row>, key: string) returns (p: Option<nat>)
    ensures p.Some? ==> p.value < |rows| && rows[p.value].key == key && forall q :: 0 <= q < p.value ==> rows[q].key != key
    ensures p.None? ==> forall q :: 0 <= q < |rows| ==> rows[q].key != key
  {
    for q := 0 to |rows|
      invariant forall r :: 0 <= r < q ==> rows[r].key != key
    {
      if rows[q].key == key { return Some(q); }
    }
    p := None;
  }

  function Without<T>(s: seq<T>, p: nat): (r: seq<T>)
    requires p < |s|
    ensures |r| == |s| - 1
    ensures forall i :: 0 <= i < p ==> r[i] == s[i]
    ensures forall i :: p <= i < |r| ==> r[i] == s[i + 1]
  {
    s[..p] + s[p + 1..]
  }

  /** A visit that is not preferred to the kept row of its key changes no first best. */
  lemma StillBest(visits: seq<Row>, next: Row, i: nat, kept: nat)
    requires FirstBest(visits, i) && FirstBest(visits, kept) && visits[kept].key == next.key
    requires !IsPreferred(next, visits[kept])
    ensures FirstBest(visits + [next], i)
  {
    var more := visits + [next];
    forall j | 0 <= j < |more| && more[j].key == more[i].key ensures RanksAtLeast(more[i], more[j]) {
      if j == |visits| {
        RankIsTotalOrder(visits[i], visits[kept], next);
      }
    }
  }

  lemma OtherStillBest(visits: seq<Row>, next: Row, i: nat)
    requires FirstBest(visits, i) && visits[i].key != next.key
    ensures FirstBest(visits + [next], i)
  {
  }

  /** A visit preferred to its key's best so far, or the first of its key, is the new first best. */
  lemma NewBest(visits: seq<Row>, next: Row)
    requires (exists i: nat :: FirstBest(visits, i) && visits[i].key == next.key && IsPreferred(next, visits[i]))
      || forall j :: 0 <= j < |visits| ==> visits[j].key != next.key
    ensures FirstBest(visits + [next], |visits|)
  {
    var more := visits + [next];
    if exists i: nat :: FirstBest(visits, i) && visits[i].key == next.key && IsPreferred(next, visits[i]) {
      var i: nat :| FirstBest(visits, i) && visits[i].key == next.key && IsPreferred(next, visits[i]);
      forall j | 0 <= j < |visits| && visits[j].key == next.key ensures IsPreferred(next, visits[j]) {
        RankIsTotalOrder(next, visits[i], visits[j]);
        RankIsTotalOrder(visits[j], next, visits[i]);
      }
      forall j | 0 <= j < |more| && more[j].key == next.key ensures RanksAtLeast(next, more[j]) {
        RankIsTotalOrder(next, more[j], next);
      }
    }
  }

  lemma SkipKeeps(visits: seq<Row>, rows: seq<Row>, at: seq<nat>, next: Row, p: nat)
    requires Keeps(visits, rows, at) && p < |rows| && rows[p].key == next.key && !IsPreferred(next, rows[p])
    ensures Keeps(visits + [next], rows, at)
  {
    forall q | 0 <= q < |rows| ensures FirstBest(visits + [next], at[q]) {
      StillBest(visits, next, at[q], at[p]);
    }
    forall j | 0 <= j < |visits| + 1 ensures Kept(rows, (visits + [next])[j].key) {
      if j < |visits| { assert Kept(rows, visits[j].key); }
    }
  }

  lemma AppendKeeps(visits: seq<Row>, rows: seq<Row>, at: seq<nat>, next: Row)
    requires |rows| == |at| && forall q :: 0 <= q < |rows| ==> FirstBest(visits, at[q]) && rows[q] == visits[at[q]] && rows[q].key != next.key
    requires forall p, q :: 0 <= p < q < |rows| ==> rows[p].key != rows[q].key
    requires forall j :: 0 <= j < |visits| ==> visits[j].key == next.key || Kept(rows, visits[j].key)
    requires FirstBest(visits + [next], |visits|)
    ensures Keeps(visits + [next], rows + [next], at + [|visits|])
  {
    var more, all := visits + [next], rows + [next];
    forall q | 0 <= q < |rows| ensures FirstBest(more, at[q]) {
      OtherStillBest(visits, next, at[q]);
    }
    forall j | 0 <= j < |more| ensures Kept(all, more[j].key) {
      if more[j].key == next.key {
        assert all[|rows|].key == next.key;
      } else {
        var p :| 0 <= p < |rows| && rows[p].key == visits[j].key;
        assert all[p].key == more[j].key;
      }
    }
  }

  lemma ReplaceKeeps(visits: seq<Row>, rows: seq<Row>, at: seq<nat>, next: Row, p: nat)
    requires Keeps(visits, rows, at) && p < |rows| && rows[p].key == next.key && IsPreferred(next, rows[p])
    ensures Keeps(visits + [next], Without(rows, p) + [next], Without(at, p) + [|visits|])
  {
    assert FirstBest(visits, at[p]);
    NewBest(visits, next);
    var rest := Without(rows, p);
    forall j | 0 <= j < |visits| ensures visits[j].key == next.key || Kept(rest, visits[j].key) {
      if visits[j].key != next.key {
        assert Kept(rows, visits[j].key);
        var q :| 0 <= q < |rows| && rows[q].key == visits[j].key;
        assert rest[if q < p then q else q - 1].key == visits[j].key;
      }
    }
    AppendKeeps(visits, rest, Without(at, p), next);
  }

  function Keys(rows: seq<Row>): set<string> { set r | r in rows :: r.key }

  /** Kept keys are exactly the visited ones. */
  lemma KeysMatch(visits: seq<Row>, rows: seq<Row>, at: seq<nat>)
    requires Keeps(visits, rows, at)
    ensures Keys(rows) == Keys(visits)
  {
    forall key | key in Keys(visits) ensures key in Keys(rows) {
      var j :| 0 <= j < |visits| && visits[j].key == key;
      assert Kept(rows, visits[j].key);
    }
    forall key | key in Keys(rows) ensures key in Keys(visits) {
      var p :| 0 <= p < |rows| && rows[p].key == key;
      assert FirstBest(visits, at[p]);
    }
  }

  lemma UnkeptIsUnseen(visits: seq<Row>, rows: seq<Row>, at: seq<nat>, next: Row)
    requires Keeps(visits, rows, at) && forall q :: 0 <= q < |rows| ==> rows[q].key != next.key
    ensures next.key !in Keys(visits)
    ensures Keeps(visits + [next], rows + [next], at + [|visits|])
  {
    KeysMatch(visits, rows, at);
    forall j | 0 <= j < |visits| ensures visits[j].key != next.key && Kept(rows, visits[j].key) {
      assert Kept(rows, visits[j].key);
    }
    NewBest(visits, next);
    AppendKeeps(visits, rows, at, next);
  }

  /** One visited file. The branch for a key that was seen but has no row is never taken. */
  method Visit(ghost visits: seq<Row>, row: Row, rows0: seq<Row>, seen0: set<string>, ghost at0: seq<nat>)
    returns (rows: seq<Row>, seen: set<string>, ghost at: seq<nat>)
    requires Keeps(visits, rows0, at0) && seen0 == Keys(visits)
    ensures Keeps(visits + [row], rows, at) && seen == Keys(visits + [row])
  {
    rows, seen, at := rows0, seen0, at0;
    assert Keys(visits + [row]) == Keys(visits) + {row.key};
    var existing := FindKey(rows, row.key);
    if existing.Some? {
      var p := existing.value;
      if IsPreferred(row, rows[p]) {
        ReplaceKeeps(visits, rows, at, row, p);
        rows, at := Without(rows, p), Without(at, p);
      } else {
        SkipKeeps(visits, rows, at, row, p);
        KeysMatch(visits, rows0, at0);
        assert rows[p].key in Keys(rows);
        return;
      }
    } else {
      UnkeptIsUnseen(visits, rows, at, row);
      if row.key in seen {
        assert false;
      }
    }
    seen := seen + {row.key};
    rows, at := rows + [row], at + [|visits|];
  }

  /** The fold over all visited files. */
  method KeepBest(visits: seq<Row>) returns (rows: seq<Row>, seen: set<string>, ghost at: seq<nat>)
    ensures Keeps(visits, rows, at)
    ensures forall p :: 0 <= p < |rows| ==> NewestOf(visits, at[p]) && rows[p] == visits[at[p]]
    ensures forall p, q :: 0 <= p < q < |rows| ==> rows[p].key != rows[q].key
    ensures seen == Keys(visits) == Keys(rows)
  {
    rows, seen, at := [], {}, [];
    for i := 0 to |visits|
      invariant Keeps(visits[..i], rows, at) && seen == Keys(visits[..i])
    {
      rows, seen, at := Visit(visits[..i], visits[i], rows, seen, at);
      assert visits[..i + 1] == visits[..i] + [visits[i]];
    }
    assert visits[..|visits|] == visits;
    KeysMatch(visits, rows, at);
    forall p | 0 <= p < |rows| ensures NewestOf(visits, at[p]) && rows[p] == visits[at[p]] {
      FirstBestIsNewest(visits, at[p]);
    }
  }

  /** The rank kept for a key does not depend on the order in which files are visited. */
  lemma RankIgnoresOrder(a: seq<Row>, b: seq<Row>, i: nat, j: nat)
    requires multiset(a) == multiset(b) && NewestOf(a, i) && NewestOf(b, j) && a[i].key == b[j].key
    ensures a[i].champion == b[j].champion && a[i].endDate == b[j].endDate
  {
    FirstBestIsNewest(a, i);
    FirstBestIsNewest(b, j);
    assert a[i] in multiset(b) && b[j] in multiset(a);
    RankIsTotalOrder(a[i], b[j], a[i]);
  }
}
