/**
  Coverage of one dated cohort: stocks under a doubtful name or listed twice are blanked, and the rest count
  by value and by name against all stocks of their sector, seen or not.
 */
module CohortCoverage {
  import opened Common
  import opened RealArithmetic
  import opened CoverageGate

  /** One merged holding. `known` is a vendor answer, `compatible` a matching name, `seen` its usable days. */
  datatype Stock = Stock(symbol: string, sector: nat, weight: real, known: bool, compatible: bool, seen: seq<bool>)

  ghost predicate Valid(rows: seq<Stock>, n: nat) {
    forall j :: 0 <= j < |rows| ==> |rows[j].seen| == n
  }

  predicate Accepted(s: Stock) { s.known && s.compatible }

  /** A known stock under another name, or one of several accepted columns of a symbol. */
  ghost predicate Blanked(rows: seq<Stock>, j: nat)
    requires j < |rows|
  {
    || (rows[j].known && !rows[j].compatible)
    || (Accepted(rows[j]) && exists i :: 0 <= i < |rows| && Twin(rows, i, j))
  }

  ghost predicate Twin(rows: seq<Stock>, i: nat, j: nat)
    requires i < |rows| && j < |rows|
  {
    i != j && Accepted(rows[i]) && rows[i].symbol == rows[j].symbol
  }

  // ---------------------------------------------------------------- screening

  function Blank(n: nat): seq<bool> { seq(n, _ => false) }

  /** The accepted columns of every symbol, in order. */
  ghost predicate Filed(rows: seq<Stock>, m: nat, accepted: map<string, seq<nat>>) {
    && m <= |rows|
    && (forall s :: s in accepted ==> accepted[s] != [])
    && (forall s, p :: s in accepted && 0 <= p < |accepted[s]| ==> Column(rows, m, s, accepted[s][p]))
    && (forall s, p, q :: s in accepted && 0 <= p < q < |accepted[s]| ==> accepted[s][p] < accepted[s][q])
    && (forall j :: 0 <= j < m && Accepted(rows[j]) ==> rows[j].symbol in accepted && j in accepted[rows[j].symbol])
  }

  ghost predicate Column(rows: seq<Stock>, m: nat, s: string, j: nat) {
    j < m <= |rows| && Accepted(rows[j]) && rows[j].symbol == s
  }

  /** The first pass: incompatible names are blanked, accepted columns filed under their symbol. */
  method FileColumns(rows: seq<Stock>, n: nat) returns (seen: seq<seq<bool>>, accepted: map<string, seq<nat>>)
    requires Valid(rows, n)
    ensures Filed(rows, |rows|, accepted) && |seen| == |rows|
    ensures forall j :: 0 <= j < |rows| ==> seen[j] == if rows[j].known && !rows[j].compatible then Blank(n) else rows[j].seen
  {
    seen, accepted := [], map[];
    for j := 0 to |rows|
      invariant Filed(rows, j, accepted) && |seen| == j
      invariant forall i :: 0 <= i < j ==> seen[i] == if rows[i].known && !rows[i].compatible then Blank(n) else rows[i].seen
    {
      seen := seen + [if rows[j].known && !rows[j].compatible then Blank(n) else rows[j].seen];
      accepted := FileColumn(rows, j, accepted);
    }
  }

  method FileColumn(rows: seq<Stock>, j: nat, accepted: map<string, seq<nat>>) returns (more: map<string, seq<nat>>)
    requires j < |rows| && Filed(rows, j, accepted)
    ensures Filed(rows, j + 1, more)
  {
    more := accepted;
    if Accepted(rows[j]) {
      var s := rows[j].symbol;
      var columns := if s in accepted then accepted[s] else [];
      more := accepted[s := columns + [j]];
      FilingKeeps(rows, j, accepted, columns, more);
    } else {
      FilingSkips(rows, j, accepted);
    }
  }

  lemma FilingSkips(rows: seq<Stock>, j: nat, accepted: map<string, seq<nat>>)
    requires j < |rows| && Filed(rows, j, accepted) && !Accepted(rows[j])
    ensures Filed(rows, j + 1, accepted)
  {
    forall s, p | s in accepted && 0 <= p < |accepted[s]| ensures Column(rows, j + 1, s, accepted[s][p]) {
      assert Column(rows, j, s, accepted[s][p]);
    }
  }

  lemma FilingKeeps(rows: seq<Stock>, j: nat, accepted: map<string, seq<nat>>, columns: seq<nat>, more: map<string, seq<nat>>)
    requires j < |rows| && Filed(rows, j, accepted) && Accepted(rows[j])
    requires columns == if rows[j].symbol in accepted then accepted[rows[j].symbol] else []
    requires more == accepted[rows[j].symbol := columns + [j]]
    ensures Filed(rows, j + 1, more)
  {
    forall p | 0 <= p < |columns| ensures columns[p] < j {
      assert Column(rows, j, rows[j].symbol, accepted[rows[j].symbol][p]);
    }
    forall s, p | s in more && 0 <= p < |more[s]| ensures Column(rows, j + 1, s, more[s][p]) {
      if s != rows[j].symbol || p < |columns| { assert Column(rows, j, s, accepted[s][p]); }
    }
    forall i | 0 <= i < j + 1 && Accepted(rows[i]) ensures rows[i].symbol in more && i in more[rows[i].symbol] {
      if i < j { assert i in accepted[rows[i].symbol]; }
    }
  }

  /** A filed list has several columns exactly when its columns have twins. */
  lemma SeveralAreTwins(rows: seq<Stock>, accepted: map<string, seq<nat>>, j: nat)
    requires Filed(rows, |rows|, accepted) && j < |rows| && Accepted(rows[j])
    ensures rows[j].symbol in accepted
    ensures |accepted[rows[j].symbol]| > 1 <==> exists i :: 0 <= i < |rows| && Twin(rows, i, j)
  {
    var columns := accepted[rows[j].symbol];
    var p :| 0 <= p < |columns| && columns[p] == j;
    if |columns| > 1 {
      var q := if p == 0 then 1 else 0;
      assert Column(rows, |rows|, rows[j].symbol, columns[q]);
      assert if q < p then columns[q] < columns[p] else columns[p] < columns[q];
      assert Twin(rows, columns[q], j);
    }
    if exists i :: 0 <= i < |rows| && Twin(rows, i, j) {
      var i :| 0 <= i < |rows| && Twin(rows, i, j);
      assert i in columns && j in columns;
    }
  }

  /** Both passes: exactly the doubtful and the ambiguous columns are blank on every day. */
  method Screen(rows: seq<Stock>, n: nat) returns (seen: seq<seq<bool>>)
    requires Valid(rows, n)
    ensures |seen| == |rows|
    ensures forall j :: 0 <= j < |rows| ==> seen[j] == if Blanked(rows, j) then Blank(n) else rows[j].seen
  {
    var accepted;
    seen, accepted := FileColumns(rows, n);
    ghost var first := seen;
    for j := 0 to |rows|
      invariant |seen| == |rows|
      invariant forall i :: j <= i < |rows| ==> seen[i] == first[i]
      invariant forall i :: 0 <= i < j ==> seen[i] == if Blanked(rows, i) then Blank(n) else rows[i].seen
    {
      if Accepted(rows[j]) {
        SeveralAreTwins(rows, accepted, j);
        if |accepted[rows[j].symbol]| > 1 { seen := seen[j := Blank(n)]; }
      }
    }
  }

  // ---------------------------------------------------------------- coverage of a sector

  /** Weight, or one for each stock, of the sector's first `m` rows; all of them, or those seen on day `t`. */
  function Amount(rows: seq<Stock>, seen: seq<seq<bool>>, m: nat, sector: nat, t: nat, onlySeen: bool, byName: bool): real
    requires m <= |rows| == |seen| && forall j :: 0 <= j < |seen| ==> t < |seen[j]|
  {
    if m == 0 then 0.0 else
      Amount(rows, seen, m - 1, sector, t, onlySeen, byName)
      + if rows[m - 1].sector == sector && (onlySeen ==> seen[m - 1][t]) then (if byName then 1.0 else rows[m - 1].weight) else 0.0
  }

  /** The sector's rows among the first `m`, or those of them seen on day `t`. */
  function SectorRows(rows: seq<Stock>, seen: seq<seq<bool>>, m: nat, sector: nat, t: nat, onlySeen: bool): seq<Stock>
    requires m <= |rows| == |seen| && forall j :: 0 <= j < |seen| ==> t < |seen[j]|
  {
    if m == 0 then [] else
      SectorRows(rows, seen, m - 1, sector, t, onlySeen)
      + if rows[m - 1].sector == sector && (!onlySeen || seen[m - 1][t]) then [rows[m - 1]] else []
  }

  function WeightOf(rows: seq<Stock>): real {
    if rows == [] then 0.0 else WeightOf(rows[..|rows| - 1]) + rows[|rows| - 1].weight
  }

  lemma OneStockMore(rows: seq<Stock>, s: Stock)
    ensures WeightOf(rows + [s]) == WeightOf(rows) + s.weight && |rows + [s]| as real == |rows| as real + 1.0
    ensures rows + [] == rows
  {
    assert (rows + [s])[..|rows|] == rows;
  }

  /** Coverage by name counts those rows, and coverage by value adds up their weights. */
  lemma {:induction false} AmountIs(rows: seq<Stock>, seen: seq<seq<bool>>, m: nat, sector: nat, t: nat, onlySeen: bool)
    requires m <= |rows| == |seen| && forall j :: 0 <= j < |seen| ==> t < |seen[j]|
    ensures Amount(rows, seen, m, sector, t, onlySeen, true) == |SectorRows(rows, seen, m, sector, t, onlySeen)| as real
    ensures Amount(rows, seen, m, sector, t, onlySeen, false) == WeightOf(SectorRows(rows, seen, m, sector, t, onlySeen))
  {
    if m > 0 {
      AmountIs(rows, seen, m - 1, sector, t, onlySeen);
      OneStockMore(SectorRows(rows, seen, m - 1, sector, t, onlySeen), rows[m - 1]);
    }
  }

  /** A sector's two shares, as quotients of what is seen over all of it. */
  lemma SharesAre(rows: seq<Stock>, seen: seq<seq<bool>>, sector: nat, t: nat, c: Option<Cover>)
    requires |rows| == |seen| && (forall j :: 0 <= j < |seen| ==> t < |seen[j]|) && CoverOf(rows, seen, sector, t, c) && c.Some?
    ensures var all, some := SectorRows(rows, seen, |rows|, sector, t, false), SectorRows(rows, seen, |rows|, sector, t, true);
      && Compound(c.value.name, |all| as real) == |some| as real
      && Compound(c.value.value, WeightOf(all)) == WeightOf(some)
  {
    AmountIs(rows, seen, |rows|, sector, t, false);
    AmountIs(rows, seen, |rows|, sector, t, true);
  }

  ghost predicate Weighted(rows: seq<Stock>) {
    forall j :: 0 <= j < |rows| ==> rows[j].weight > 0.0
  }

  ghost predicate Inhabited(rows: seq<Stock>, m: nat, sector: nat)
    requires m <= |rows|
  {
    exists j :: 0 <= j < m && rows[j].sector == sector
  }

  ghost predicate AllSeen(rows: seq<Stock>, seen: seq<seq<bool>>, m: nat, sector: nat, t: nat)
    requires m <= |rows| == |seen| && forall j :: 0 <= j < |seen| ==> t < |seen[j]|
  {
    forall j :: 0 <= j < m && rows[j].sector == sector ==> seen[j][t]
  }

  /** Stocks not seen stay in the total, so the part seen is the whole only when every stock is seen. */
  lemma {:induction false} SeenWithinAll(rows: seq<Stock>, seen: seq<seq<bool>>, m: nat, sector: nat, t: nat, byName: bool)
    requires m <= |rows| == |seen| && Weighted(rows) && forall j :: 0 <= j < |seen| ==> t < |seen[j]|
    ensures 0.0 <= Amount(rows, seen, m, sector, t, true, byName) <= Amount(rows, seen, m, sector, t, false, byName)
    ensures Amount(rows, seen, m, sector, t, false, byName) > 0.0 <==> Inhabited(rows, m, sector)
    ensures Amount(rows, seen, m, sector, t, true, byName) == Amount(rows, seen, m, sector, t, false, byName)
       <==> AllSeen(rows, seen, m, sector, t)
  {
    if m > 0 { SeenWithinAll(rows, seen, m - 1, sector, t, byName); }
  }

  /** One sector's coverage on one day: none without stocks, else two parts of totals over all its stocks. */
  ghost predicate CoverOf(rows: seq<Stock>, seen: seq<seq<bool>>, sector: nat, t: nat, c: Option<Cover>)
    requires |rows| == |seen| && forall j :: 0 <= j < |seen| ==> t < |seen[j]|
  {
    if !Inhabited(rows, |rows|, sector) then c == None
    else
      && c.Some?
      && IsPart(c.value.value, Amount(rows, seen, |rows|, sector, t, true, false), Amount(rows, seen, |rows|, sector, t, false, false))
      && IsPart(c.value.name, Amount(rows, seen, |rows|, sector, t, true, true), Amount(rows, seen, |rows|, sector, t, false, true))
  }

  ghost predicate IsPart(share: real, part: real, whole: real) { whole > 0.0 && Compound(share, whole) == part }

  lemma PartBounds(share: real, part: real, whole: real)
    requires IsPart(share, part, whole) && 0.0 <= part <= whole
    ensures 0.0 <= share <= 1.0 && (share == 1.0 <==> part == whole)
  {
    if share < 0.0 { ProductPositive(-share, whole); }
    if share > 1.0 { ProductPositive(share - 1.0, whole); }
    if share < 1.0 { ProductPositive(1.0 - share, whole); }
  }

  method MeasureSector(rows: seq<Stock>, seen: seq<seq<bool>>, sector: nat, t: nat) returns (c: Option<Cover>)
    requires |rows| == |seen| && Weighted(rows) && forall j :: 0 <= j < |seen| ==> t < |seen[j]|
    ensures CoverOf(rows, seen, sector, t, c)
  {
    var m := |rows|;
    var total, count := Amount(rows, seen, m, sector, t, false, false), Amount(rows, seen, m, sector, t, false, true);
    SeenWithinAll(rows, seen, m, sector, t, false);
    SeenWithinAll(rows, seen, m, sector, t, true);
    if count == 0.0 { return None; }
    var value, name := Amount(rows, seen, m, sector, t, true, false), Amount(rows, seen, m, sector, t, true, true);
    c := Some(Cover(Part(value, total), Part(name, count)));
  }

  function Part(part: real, whole: real): (share: real)
    requires whole > 0.0
    ensures IsPart(share, part, whole)
  {
    assert (part / whole) * whole == part;
    part / whole
  }

  /** The cohort's coverage table, refused when a weight is not positive or a sector is unknown. */
  method Measure(rows: seq<Stock>, sectors: nat, n: nat) returns (r: Option<seq<seq<Option<Cover>>>>, ghost seen: seq<seq<bool>>)
    requires Valid(rows, n)
    ensures r.None? <==> exists j :: 0 <= j < |rows| && (rows[j].weight <= 0.0 || rows[j].sector >= sectors)
    ensures |seen| == |rows| && forall j :: 0 <= j < |rows| ==> seen[j] == if Blanked(rows, j) then Blank(n) else rows[j].seen
    ensures r.Some? ==> Measured(rows, seen, sectors, n, r.value)
  {
    var screened := Screen(rows, n);
    seen := screened;
    if exists j :: 0 <= j < |rows| && (rows[j].weight <= 0.0 || rows[j].sector >= sectors) { return None, seen; }
    var table: seq<seq<Option<Cover>>> := [];
    for t := 0 to n
      invariant Measured(rows, screened, sectors, t, table)
    {
      var row: seq<Option<Cover>> := [];
      for s := 0 to sectors
        invariant |row| == s && forall i :: 0 <= i < s ==> CoverOf(rows, screened, i, t, row[i])
      {
        var c := MeasureSector(rows, screened, s, t);
        row := row + [c];
      }
      table := table + [row];
    }
    r := Some(table);
  }

  ghost predicate Measured(rows: seq<Stock>, seen: seq<seq<bool>>, sectors: nat, n: nat, table: seq<seq<Option<Cover>>>) {
    && |rows| == |seen| && (forall j :: 0 <= j < |seen| ==> n <= |seen[j]|) && |table| == n
    && (forall t :: 0 <= t < n ==> |table[t]| == sectors)
    && forall t, s :: 0 <= t < n && 0 <= s < sectors ==> CoverOf(rows, seen, s, t, table[t][s])
  }

  /** Shares lie between zero and one; a sector is wholly covered by value, or by name, only when all its stocks are seen. */
  lemma CoverIsShare(rows: seq<Stock>, seen: seq<seq<bool>>, sector: nat, t: nat, c: Option<Cover>)
    requires |rows| == |seen| && Weighted(rows) && (forall j :: 0 <= j < |seen| ==> t < |seen[j]|) && CoverOf(rows, seen, sector, t, c)
    ensures c.Some? <==> Inhabited(rows, |rows|, sector)
    ensures c.Some? ==> 0.0 <= c.value.value <= 1.0 && 0.0 <= c.value.name <= 1.0
    ensures c.Some? ==> (c.value.value == 1.0 <==> AllSeen(rows, seen, |rows|, sector, t))
    ensures c.Some? ==> (c.value.name == 1.0 <==> AllSeen(rows, seen, |rows|, sector, t))
  {
    SeenWithinAll(rows, seen, |rows|, sector, t, false);
    SeenWithinAll(rows, seen, |rows|, sector, t, true);
    if c.Some? {
      PartBounds(c.value.value, Amount(rows, seen, |rows|, sector, t, true, false), Amount(rows, seen, |rows|, sector, t, false, false));
      PartBounds(c.value.name, Amount(rows, seen, |rows|, sector, t, true, true), Amount(rows, seen, |rows|, sector, t, false, true));
    }
  }

  /** A day that passes the gate has stocks in every sector, and in each of them one that was seen and not blanked. */
  lemma PassingNeedsStocks(rows: seq<Stock>, seen: seq<seq<bool>>, sector: nat, t: nat, c: Option<Cover>) returns (j: nat)
    requires |rows| == |seen| && Weighted(rows) && (forall i :: 0 <= i < |seen| ==> t < |seen[i]|) && CoverOf(rows, seen, sector, t, c)
    requires SectorPasses(c)
    ensures j < |rows| && rows[j].sector == sector && seen[j][t]
  {
    ProductPositive(c.value.name, Amount(rows, seen, |rows|, sector, t, false, true));
    j := SomethingSeen(rows, seen, |rows|, sector, t);
  }

  lemma {:induction false} SomethingSeen(rows: seq<Stock>, seen: seq<seq<bool>>, m: nat, sector: nat, t: nat) returns (j: nat)
    requires m <= |rows| == |seen| && forall i :: 0 <= i < |seen| ==> t < |seen[i]|
    requires Amount(rows, seen, m, sector, t, true, true) > 0.0
    ensures j < m && rows[j].sector == sector && seen[j][t]
  {
    if rows[m - 1].sector == sector && seen[m - 1][t] {
      j := m - 1;
    } else {
      j := SomethingSeen(rows, seen, m - 1, sector, t);
    }
  }
}
