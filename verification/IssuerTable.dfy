/**
  The issuer page reader: a handler object fed with markup events that keeps the first table only,
  and the metadata dictionary built from what it kept.
 */
module IssuerTable {
  import opened Common

  // ---------------------------------------------------------------- text normalisation

  /** White space as Python's `str.split` sees it. */
  predicate Space(c: char) {
    || c == ' ' || '\t' <= c <= '\r' || '\U{1c}' <= c <= '\U{1f}' || c == '\U{85}' || c == '\U{a0}' || c == '\U{1680}'
    || '\U{2000}' <= c <= '\U{200a}' || c == '\U{2028}' || c == '\U{2029}' || c == '\U{202f}' || c == '\U{205f}' || c == '\U{3000}'
  }

  function WordLength(s: string): (n: nat)
    ensures n <= |s| && (forall i :: 0 <= i < n ==> !Space(s[i])) && (n < |s| ==> Space(s[n]))
  {
    if s == "" || Space(s[0]) then 0 else 1 + WordLength(s[1..])
  }

  function Words(s: string): seq<string>
    decreases |s|
  {
    if s == "" then []
    else if Space(s[0]) then Words(s[1..])
    else [s[..WordLength(s)]] + Words(s[WordLength(s)..])
  }

  function JoinWords(ws: seq<string>): string {
    if ws == [] then "" else if |ws| == 1 then ws[0] else ws[0] + " " + JoinWords(ws[1..])
  }

  function Concat(chunks: seq<string>): string {
    if chunks == [] then "" else Concat(chunks[..|chunks| - 1]) + chunks[|chunks| - 1]
  }

  function Normal(s: string): string {
    JoinWords(Words(s))
  }

  ghost predicate Word(w: string) {
    w != "" && forall i :: 0 <= i < |w| ==> !Space(w[i])
  }

  lemma {:induction false} WordsAreWords(s: string)
    ensures forall i :: 0 <= i < |Words(s)| ==> Word(Words(s)[i])
    decreases |s|
  {
    if s != "" {
      if Space(s[0]) { WordsAreWords(s[1..]); } else { WordsAreWords(s[WordLength(s)..]); }
    }
  }

  lemma {:induction false} WordThenSpace(w: string, rest: string)
    requires Word(w) && (rest == "" || Space(rest[0]))
    ensures WordLength(w + rest) == |w|
    decreases |w|
  {
    if |w| > 1 {
      assert (w + rest)[1..] == w[1..] + rest;
      WordThenSpace(w[1..], rest);
    } else {
      assert (w + rest)[1..] == rest;
    }
  }

  lemma {:induction false} WordsOfJoined(ws: seq<string>)
    requires forall i :: 0 <= i < |ws| ==> Word(ws[i])
    ensures Words(JoinWords(ws)) == ws
    decreases |ws|
  {
    if ws != [] {
      var rest := if |ws| == 1 then "" else " " + JoinWords(ws[1..]);
      assert JoinWords(ws) == ws[0] + rest;
      WordThenSpace(ws[0], rest);
      assert (ws[0] + rest)[..|ws[0]|] == ws[0] && (ws[0] + rest)[|ws[0]|..] == rest;
      if |ws| > 1 {
        assert rest[1..] == JoinWords(ws[1..]);
        WordsOfJoined(ws[1..]);
        assert ws == [ws[0]] + ws[1..];
      }
    }
  }

  /** Normalising twice changes nothing, so the texts that survive a round trip are the normalised ones. */
  lemma NormalIsStable(s: string)
    ensures Normal(Normal(s)) == Normal(s)
  {
    WordsAreWords(s);
    WordsOfJoined(Words(s));
  }

  /** White space separates words wherever it stands, and text without any is one word. */
  lemma {:induction false} WordsSplitAtSpaces(a: string, c: char, b: string)
    requires Space(c)
    ensures Words(a + [c] + b) == Words(a) + Words(b)
    decreases |a|
  {
    var s := a + [c] + b;
    if a == "" {
      assert s[1..] == b;
    } else if Space(a[0]) {
      assert s[1..] == a[1..] + [c] + b;
      WordsSplitAtSpaces(a[1..], c, b);
    } else {
      FirstWordSplits(a, c, b);
      WordsSplitAtSpaces(a[WordLength(a)..], c, b);
    }
  }

  lemma FirstWordSplits(a: string, c: char, b: string)
    requires a != "" && !Space(a[0]) && Space(c)
    ensures var n := WordLength(a);
      && n > 0 && Words(a) == [a[..n]] + Words(a[n..])
      && Words(a + [c] + b) == [a[..n]] + Words(a[n..] + [c] + b)
  {
    var n, s := WordLength(a), a + [c] + b;
    WordStays(a, [c] + b);
    assert s == a + ([c] + b);
    assert s[..n] == a[..n] && s[n..] == a[n..] + [c] + b;
  }

  lemma {:induction false} WordStays(a: string, rest: string)
    requires rest == "" || Space(rest[0])
    ensures WordLength(a + rest) == WordLength(a)
    decreases |a|
  {
    if a == "" {
      assert a + rest == rest;
    } else if !Space(a[0]) {
      assert (a + rest)[1..] == a[1..] + rest;
      WordStays(a[1..], rest);
    }
  }

  lemma OneWord(w: string)
    requires Word(w)
    ensures Words(w) == [w] && Normal(w) == w
  {
    WordThenSpace(w, "");
    assert w + "" == w && w[|w|..] == "";
  }

  /** The characters that are not white space, in order. */
  function Ink(s: string): string {
    if s == "" then "" else (if Space(s[0]) then "" else [s[0]]) + Ink(s[1..])
  }

  lemma {:induction false} InkOfParts(a: string, b: string)
    ensures Ink(a + b) == Ink(a) + Ink(b)
    decreases |a|
  {
    if a == "" {
      assert a + b == b;
    } else {
      assert (a + b)[1..] == a[1..] + b;
      InkOfParts(a[1..], b);
    }
  }

  /** Blanks stand between words only, one at a time. */
  ghost predicate Tidy(s: string) {
    && (forall i :: 0 <= i < |s| && Space(s[i]) ==> s[i] == ' ' && 0 < i < |s| - 1)
    && forall i :: 0 <= i < |s| - 1 && Space(s[i]) ==> !Space(s[i + 1])
  }

  lemma {:induction false} JoinedIsTidy(ws: seq<string>)
    requires forall i :: 0 <= i < |ws| ==> Word(ws[i])
    ensures Tidy(JoinWords(ws)) && (ws != [] ==> JoinWords(ws) != "" && !Space(JoinWords(ws)[0]))
    decreases |ws|
  {
    if |ws| > 1 {
      JoinedIsTidy(ws[1..]);
      TidyAppends(ws[0], JoinWords(ws[1..]));
    }
  }

  lemma TidyAppends(w: string, rest: string)
    requires Word(w) && Tidy(rest) && rest != "" && !Space(rest[0])
    ensures Tidy(w + " " + rest)
  {
    var s, n := w + " " + rest, |w|;
    forall i | 0 <= i < |s| ensures Space(s[i]) ==> s[i] == ' ' && 0 < i < |s| - 1 && !Space(s[i + 1]) {
      if i < n {
        assert s[i] == w[i];
      } else if i == n {
        assert s[n + 1] == rest[0];
      } else {
        assert s[i] == rest[i - n - 1];
        assert i < |s| - 1 ==> s[i + 1] == rest[i - n];
      }
    }
  }

  lemma {:induction false} NormalKeepsInk(s: string)
    ensures Ink(Normal(s)) == Ink(s)
    decreases |s|
  {
    if s != "" {
      if Space(s[0]) {
        NormalKeepsInk(s[1..]);
      } else {
        var n := WordLength(s);
        var w, rest := s[..n], s[n..];
        NormalKeepsInk(rest);
        assert s == w + rest;
        InkOfParts(w, rest);
        if Words(rest) == [] {
          assert Normal(s) == w;
          assert Ink(rest) == "";
        } else {
          assert Words(s)[1..] == Words(rest);
          assert Normal(s) == w + (" " + Normal(rest));
          InkOfParts(w, " " + Normal(rest));
          assert (" " + Normal(rest))[1..] == Normal(rest);
        }
      }
    }
  }

  /** A normalised text has the same characters in the same order, and single blanks between its words. */
  lemma NormalIsTidy(s: string)
    ensures Tidy(Normal(s)) && Ink(Normal(s)) == Ink(s)
  {
    WordsAreWords(s);
    JoinedIsTidy(Words(s));
    NormalKeepsInk(s);
  }

  // ---------------------------------------------------------------- events and the reader as a value

  datatype Tag = Table | Tr | Td | Th | Anchor | Other

  datatype Event = Start(tag: Tag, href: Option<string>) | Text(data: string) | End(tag: Tag)

  datatype Cell = Cell(value: string, href: Option<string>)

  /**
    The reader's variables. `shared` counts the last entries of `rows` that are the very list still
    being filled, which a later cell would extend in place.
   */
  datatype Reader = Reader(
    table: nat, inTable: bool, cell: Option<seq<string>>, row: seq<Cell>, rows: seq<seq<Cell>>, shared: nat,
    href: Option<string>, headers: seq<string>, header: bool)

  function Fresh(): Reader { Reader(0, false, None, [], [], 0, None, [], false) }

  function OnStart(p: Reader, tag: Tag, href: Option<string>): Reader {
    var q := if tag == Table then p.(table := p.table + 1, inTable := p.table + 1 == 1) else p;
    if !q.inTable then q
    else if tag == Tr then q.(row := [], shared := 0)
    else if tag == Td || tag == Th then q.(cell := Some([]), href := None, header := tag == Th)
    else if tag == Anchor && q.cell.Some? then q.(href := href)
    else q
  }

  function OnText(p: Reader, data: string): Reader {
    if p.inTable && p.cell.Some? then p.(cell := Some(p.cell.value + [data])) else p
  }

  /** `rows` with its last `n` entries replaced by `row`. */
  function Refill(rows: seq<seq<Cell>>, n: nat, row: seq<Cell>): seq<seq<Cell>> {
    if n <= |rows| then rows[..|rows| - n] + seq(n, _ => row) else rows
  }

  function OnEnd(p: Reader, tag: Tag): Reader {
    if !p.inTable then p
    else if (tag == Td || tag == Th) && p.cell.Some? then
      var value := Normal(Concat(p.cell.value));
      if p.header then p.(headers := p.headers + [value], cell := None)
      else
        var row := p.row + [Cell(value, p.href)];
        p.(row := row, rows := Refill(p.rows, p.shared, row), cell := None)
    else if tag == Tr && p.row != [] then p.(rows := p.rows + [p.row], shared := p.shared + 1)
    else if tag == Table then p.(inTable := false)
    else p
  }

  function On(p: Reader, e: Event): Reader {
    match e
    case Start(tag, href) => OnStart(p, tag, href)
    case Text(data) => OnText(p, data)
    case End(tag) => OnEnd(p, tag)
  }

  function Feed(p: Reader, es: seq<Event>): Reader {
    if es == [] then p else On(Feed(p, es[..|es| - 1]), es[|es| - 1])
  }

  lemma {:induction false} FeedConcat(p: Reader, a: seq<Event>, b: seq<Event>)
    ensures Feed(p, a + b) == Feed(Feed(p, a), b)
    decreases |b|
  {
    if b == [] {
      assert a + b == a;
    } else {
      assert (a + b)[..|a + b| - 1] == a + b[..|b| - 1];
      FeedConcat(p, a, b[..|b| - 1]);
    }
  }

  // ---------------------------------------------------------------- the handler object

  /** A row list, which the reader goes on filling after it was listed. */
  class CellList {
    var cells: seq<Cell>

    constructor ()
      ensures cells == []
    {
      cells := [];
    }
  }

  class TableParser {
    var table: nat
    var inTable: bool
    var cell: Option<seq<string>>
    var row: CellList
    var rows: seq<CellList>
    var href: Option<string>
    var headers: seq<string>
    var header: bool
    ghost var shared: nat

    ghost predicate Valid()
      reads this
    {
      && shared <= |rows|
      && (forall i :: |rows| - shared <= i < |rows| ==> rows[i] == row)
      && (forall i :: 0 <= i < |rows| - shared ==> rows[i] != row)
    }

    /** The reader's value: every list read through its reference. */
    ghost function Value(): Reader
      reads this, row, rows
    {
      Reader(table, inTable, cell, row.cells, seq(|rows|, i requires 0 <= i < |rows| reads this, rows => rows[i].cells),
             shared, href, headers, header)
    }

    constructor ()
      ensures Valid() && Value() == Fresh()
      ensures fresh(row) && rows == []
    {
      table, inTable, cell, href, header, shared := 0, false, None, None, false, 0;
      row := new CellList();
      rows, headers := [], [];
    }

    method HandleStartTag(tag: Tag, link: Option<string>)
      requires Valid()
      modifies this
      ensures Valid() && Value() == OnStart(old(Value()), tag, link)
      ensures row == old(row) || fresh(row)
      ensures rows == old(rows)
    {
      if tag == Table {
        table := table + 1;
        inTable := table == 1;
      }
      if !inTable { return; }
      if tag == Tr {
        row := new CellList();
        shared := 0;
      } else if tag == Td || tag == Th {
        cell, href, header := Some([]), None, tag == Th;
      } else if tag == Anchor && cell.Some? {
        href := link;
      }
    }

    method HandleData(data: string)
      requires Valid()
      modifies this
      ensures Valid() && Value() == OnText(old(Value()), data)
      ensures row == old(row) && rows == old(rows)
    {
      if inTable && cell.Some? {
        cell := Some(cell.value + [data]);
      }
    }

    method HandleEndTag(tag: Tag)
      requires Valid()
      modifies this, row
      ensures Valid() && Value() == OnEnd(old(Value()), tag)
      ensures row == old(row) && (rows == old(rows) || rows == old(rows) + [row])
    {
      if !inTable { return; }
      if (tag == Td || tag == Th) && cell.Some? {
        var value := Normal(Concat(cell.value));
        if header {
          headers := headers + [value];
        } else {
          row.cells := row.cells + [Cell(value, href)];
        }
        cell := None;
      } else if tag == Tr && row.cells != [] {
        rows := rows + [row];
        shared := shared + 1;
      } else if tag == Table {
        inTable := false;
      }
    }
  }

  /** Feeding a whole event stream leaves the object at the value of the pure reader. */
  method Parse(es: seq<Event>) returns (p: TableParser)
    ensures p.Valid() && p.Value() == Feed(Fresh(), es)
  {
    p := new TableParser();
    for i := 0 to |es|
      invariant fresh(p) && fresh(p.row) && (forall j :: 0 <= j < |p.rows| ==> fresh(p.rows[j]))
      invariant p.Valid() && p.Value() == Feed(Fresh(), es[..i])
    {
      assert es[..i + 1][..i] == es[..i];
      match es[i]
      case Start(tag, href) => p.HandleStartTag(tag, href);
      case Text(data) => p.HandleData(data);
      case End(tag) => p.HandleEndTag(tag);
    }
    assert es[..|es|] == es;
  }

  // ---------------------------------------------------------------- freezing

  ghost predicate Frozen(p: Reader) { p.table > 0 && !p.inTable }

  /** Once the first table has ended, or a second one has entered, nothing the page holds is read. */
  lemma {:induction false} FrozenForGood(p: Reader, es: seq<Event>)
    requires Frozen(p)
    ensures var q := Feed(p, es); Frozen(q) && q.rows == p.rows && q.headers == p.headers && q.row == p.row && q.shared == p.shared
  {
    if es != [] {
      FrozenForGood(p, es[..|es| - 1]);
    }
  }

  /** Ending the table, or opening another one while reading, freezes the reader. */
  lemma ClosingFreezes(p: Reader, link: Option<string>)
    requires p.table > 0
    ensures Frozen(OnEnd(p, Table)) && Frozen(OnStart(p, Table, link))
  {
  }

  lemma {:induction false} TablesAreCounted(es: seq<Event>)
    requires exists i :: 0 <= i < |es| && es[i].Start? && es[i].tag == Table
    ensures Feed(Fresh(), es).table > 0
  {
    var rest, last := es[..|es| - 1], es[|es| - 1];
    if !(last.Start? && last.tag == Table) {
      var i :| 0 <= i < |es| && es[i].Start? && es[i].tag == Table;
      assert rest[i] == es[i];
      TablesAreCounted(rest);
    }
  }

  /** After a table has opened, the next table tag of any page is the last event that can matter: it fixes what was read. */
  lemma FirstTableIsFinal(a: seq<Event>, e: Event, b: seq<Event>)
    requires exists i :: 0 <= i < |a| && a[i].Start? && a[i].tag == Table
    requires !e.Text? && e.tag == Table
    ensures var p, q := Feed(Fresh(), a), Feed(Fresh(), a + [e] + b);
      Frozen(q) && q.headers == p.headers && q.rows == p.rows
  {
    var p := Feed(Fresh(), a);
    TablesAreCounted(a);
    FeedThree(Fresh(), a, [e], b);
    FeedOne(p, e);
    ClosingFreezes(p, if e.Start? then e.href else None);
    FrozenForGood(On(p, e), b);
  }

  // ---------------------------------------------------------------- a page and what is read from it

  /** Markup that neither opens nor closes table structure. */
  predicate Inline(e: Event) {
    e.Text? || e.tag == Anchor || e.tag == Other
  }

  ghost predicate AllInline(es: seq<Event>) {
    forall i :: 0 <= i < |es| ==> Inline(es[i])
  }

  /** One cell with its own markup, then stray markup up to the next tag. */
  datatype RawCell = RawCell(heading: bool, inside: seq<Event>, after: seq<Event>)

  datatype RawRow = RawRow(lead: seq<Event>, cells: seq<RawCell>, tail: seq<Event>)

  datatype RawTable = RawTable(lead: seq<Event>, rows: seq<RawRow>)

  function CellEvents(c: RawCell): seq<Event> {
    var tag := if c.heading then Th else Td;
    [Start(tag, None)] + c.inside + [End(tag)] + c.after
  }

  function CellsEvents(cs: seq<RawCell>): seq<Event> {
    if cs == [] then [] else CellsEvents(cs[..|cs| - 1]) + CellEvents(cs[|cs| - 1])
  }

  function RowEvents(r: RawRow): seq<Event> {
    [Start(Tr, None)] + r.lead + CellsEvents(r.cells) + [End(Tr)] + r.tail
  }

  function RowsEvents(rs: seq<RawRow>): seq<Event> {
    if rs == [] then [] else RowsEvents(rs[..|rs| - 1]) + RowEvents(rs[|rs| - 1])
  }

  function TableEvents(t: RawTable): seq<Event> {
    [Start(Table, None)] + t.lead + RowsEvents(t.rows) + [End(Table)]
  }

  ghost predicate WellFormed(t: RawTable) {
    AllInline(t.lead) && forall i :: 0 <= i < |t.rows| ==> RowWellFormed(t.rows[i])
  }

  ghost predicate RowWellFormed(r: RawRow) {
    AllInline(r.lead) && AllInline(r.tail) && forall i :: 0 <= i < |r.cells| ==> CellWellFormed(r.cells[i])
  }

  ghost predicate CellWellFormed(c: RawCell) {
    AllInline(c.inside) && AllInline(c.after)
  }

  /** All the text inside a cell, and the last link entered there. */
  function TextOf(es: seq<Event>): string {
    if es == [] then "" else TextOf(es[..|es| - 1]) + if es[|es| - 1].Text? then es[|es| - 1].data else ""
  }

  function LinkOf(es: seq<Event>): Option<string> {
    if es == [] then None
    else if es[|es| - 1].Start? && es[|es| - 1].tag == Anchor then es[|es| - 1].href
    else LinkOf(es[..|es| - 1])
  }

  function Read(c: RawCell): Cell { Cell(Normal(TextOf(c.inside)), LinkOf(c.inside)) }

  /** The data cells of a row, in order. */
  function RowCells(cs: seq<RawCell>): seq<Cell> {
    if cs == [] then [] else RowCells(cs[..|cs| - 1]) + if cs[|cs| - 1].heading then [] else [Read(cs[|cs| - 1])]
  }

  function RowHeaders(cs: seq<RawCell>): seq<string> {
    if cs == [] then [] else RowHeaders(cs[..|cs| - 1]) + if cs[|cs| - 1].heading then [Read(cs[|cs| - 1]).value] else []
  }

  /** Rows without a data cell are dropped. */
  function TableRows(rs: seq<RawRow>): seq<seq<Cell>> {
    if rs == [] then [] else TableRows(rs[..|rs| - 1]) + if RowCells(rs[|rs| - 1].cells) == [] then [] else [RowCells(rs[|rs| - 1].cells)]
  }

  function TableHeaders(rs: seq<RawRow>): seq<string> {
    if rs == [] then [] else TableHeaders(rs[..|rs| - 1]) + RowHeaders(rs[|rs| - 1].cells)
  }

  // ---------------------------------------------------------------- the round trip

  /** Between cells, inline markup is ignored. */
  lemma {:induction false} InlineOutside(p: Reader, es: seq<Event>)
    requires AllInline(es) && p.cell.None?
    ensures Feed(p, es) == p
  {
    if es != [] {
      InlineOutside(p, es[..|es| - 1]);
      assert Inline(es[|es| - 1]);
    }
  }

  /** Inside a cell, inline markup adds text and replaces the link. */
  lemma {:induction false} InlineInside(p: Reader, es: seq<Event>)
    requires AllInline(es) && p.inTable && p.cell == Some([]) && p.href == None
    ensures var q := Feed(p, es);
      && q.cell.Some? && Concat(q.cell.value) == TextOf(es) && q.href == LinkOf(es)
      && q == p.(cell := q.cell, href := q.href)
  {
    if es != [] {
      var rest, last := es[..|es| - 1], es[|es| - 1];
      InlineInside(p, rest);
      assert Inline(last);
      var q := Feed(p, rest);
      if last.Text? {
        assert (q.cell.value + [last.data])[..|q.cell.value|] == q.cell.value;
      }
    }
  }

  /** A reader inside the table, between cells, filling a list that is not yet listed. */
  ghost predicate Between(p: Reader) {
    p.inTable && p.table == 1 && p.cell.None? && p.shared == 0
  }

  ghost predicate Holds(p: Reader, headers: seq<string>, row: seq<Cell>, rows: seq<seq<Cell>>) {
    p.headers == headers && p.row == row && p.rows == rows
  }

  lemma FeedOne(p: Reader, e: Event)
    ensures Feed(p, [e]) == On(p, e)
  {
    assert [e][..0] == [];
    assert Feed(p, []) == p;
  }

  lemma FeedThree(p: Reader, a: seq<Event>, b: seq<Event>, c: seq<Event>)
    ensures Feed(p, a + b + c) == Feed(Feed(Feed(p, a), b), c)
  {
    FeedConcat(p, a + b, c);
    FeedConcat(p, a, b);
  }

  lemma CellIsRead(p: Reader, c: RawCell)
    requires Between(p) && CellWellFormed(c)
    ensures var q := Feed(p, CellEvents(c));
      Between(q) && Holds(q, p.headers + (if c.heading then [Read(c).value] else []), p.row + (if c.heading then [] else [Read(c)]), p.rows)
  {
    var tag := if c.heading then Th else Td;
    var entered := OnStart(p, tag, None);
    var filled := Feed(entered, c.inside);
    var closed := OnEnd(filled, tag);
    FeedOne(p, Start(tag, None));
    InlineInside(entered, c.inside);
    FeedOne(filled, End(tag));
    FeedThree(p, [Start(tag, None)], c.inside, [End(tag)]);
    InlineOutside(closed, c.after);
    FeedConcat(p, [Start(tag, None)] + c.inside + [End(tag)], c.after);
    assert Refill(filled.rows, 0, filled.row + [Read(c)]) == filled.rows;
  }

  lemma {:induction false} CellsAreRead(p: Reader, cs: seq<RawCell>)
    requires Between(p) && forall i :: 0 <= i < |cs| ==> CellWellFormed(cs[i])
    ensures var q := Feed(p, CellsEvents(cs));
      Between(q) && Holds(q, p.headers + RowHeaders(cs), p.row + RowCells(cs), p.rows)
  {
    if cs != [] {
      var rest, last := cs[..|cs| - 1], cs[|cs| - 1];
      CellsAreRead(p, rest);
      CellsGo(p, rest, last);
      assert rest + [last] == cs;
    }
  }

  lemma ReadingAppends(cs: seq<RawCell>, c: RawCell)
    ensures RowCells(cs + [c]) == RowCells(cs) + if c.heading then [] else [Read(c)]
    ensures RowHeaders(cs + [c]) == RowHeaders(cs) + if c.heading then [Read(c).value] else []
  {
    assert (cs + [c])[..|cs|] == cs;
  }

  /** One cell after those already read. */
  lemma CellsGo(p: Reader, rest: seq<RawCell>, c: RawCell)
    requires CellWellFormed(c) && Between(Feed(p, CellsEvents(rest)))
    requires Holds(Feed(p, CellsEvents(rest)), p.headers + RowHeaders(rest), p.row + RowCells(rest), p.rows)
    ensures var z := Feed(p, CellsEvents(rest) + CellEvents(c));
      Between(z) && Holds(z, p.headers + RowHeaders(rest + [c]), p.row + RowCells(rest + [c]), p.rows)
  {
    FeedConcat(p, CellsEvents(rest), CellEvents(c));
    CellsStep(p, Feed(p, CellsEvents(rest)), rest, c);
  }

  lemma CellsStep(p: Reader, q: Reader, rest: seq<RawCell>, c: RawCell)
    requires CellWellFormed(c) && Between(q) && Holds(q, p.headers + RowHeaders(rest), p.row + RowCells(rest), p.rows)
    ensures var z := Feed(q, CellEvents(c));
      Between(z) && Holds(z, p.headers + RowHeaders(rest + [c]), p.row + RowCells(rest + [c]), p.rows)
  {
    CellIsRead(q, c);
    ReadingAppends(rest, c);
    Reassociate(p.headers, RowHeaders(rest), if c.heading then [Read(c).value] else []);
    Reassociate(p.row, RowCells(rest), if c.heading then [] else [Read(c)]);
  }

  lemma Reassociate<T>(a: seq<T>, b: seq<T>, c: seq<T>)
    ensures a + b + c == a + (b + c)
  {
  }

  /** A reader in the table between rows: whatever the open list is, the next row starts a new one. */
  ghost predicate Ready(p: Reader, headers: seq<string>, rows: seq<seq<Cell>>) {
    p.inTable && p.table == 1 && p.cell.None? && p.headers == headers && p.rows == rows
  }

  lemma RowFills(p: Reader, r: RawRow)
    requires Ready(p, p.headers, p.rows) && RowWellFormed(r)
    ensures var q := Feed(p, [Start(Tr, None)] + r.lead + CellsEvents(r.cells));
      Between(q) && Holds(q, p.headers + RowHeaders(r.cells), RowCells(r.cells), p.rows)
  {
    var entered := OnStart(p, Tr, None);
    FeedOne(p, Start(Tr, None));
    InlineOutside(entered, r.lead);
    CellsAreRead(entered, r.cells);
    FeedThree(p, [Start(Tr, None)], r.lead, CellsEvents(r.cells));
    assert [] + RowCells(r.cells) == RowCells(r.cells);
  }

  lemma RowCloses(q: Reader, tail: seq<Event>)
    requires Between(q) && AllInline(tail)
    ensures Ready(Feed(Feed(q, [End(Tr)]), tail), q.headers, q.rows + if q.row == [] then [] else [q.row])
  {
    FeedOne(q, End(Tr));
    InlineOutside(OnEnd(q, Tr), tail);
    assert q.rows + [] == q.rows;
  }

  lemma RowIsRead(p: Reader, r: RawRow)
    requires Ready(p, p.headers, p.rows) && RowWellFormed(r)
    ensures Ready(Feed(p, RowEvents(r)), p.headers + RowHeaders(r.cells), p.rows + if RowCells(r.cells) == [] then [] else [RowCells(r.cells)])
  {
    var front := [Start(Tr, None)] + r.lead + CellsEvents(r.cells);
    RowFills(p, r);
    RowCloses(Feed(p, front), r.tail);
    FeedThree(p, front, [End(Tr)], r.tail);
  }

  lemma {:induction false} RowsAreRead(p: Reader, rs: seq<RawRow>)
    requires Ready(p, [], []) && forall i :: 0 <= i < |rs| ==> RowWellFormed(rs[i])
    ensures Ready(Feed(p, RowsEvents(rs)), TableHeaders(rs), TableRows(rs))
  {
    if rs != [] {
      var rest, last := rs[..|rs| - 1], rs[|rs| - 1];
      RowsAreRead(p, rest);
      FeedConcat(p, RowsEvents(rest), RowEvents(last));
      RowIsRead(Feed(p, RowsEvents(rest)), last);
    }
  }

  /** Before the first table opens nothing is read. */
  lemma {:induction false} NothingBeforeTable(es: seq<Event>)
    requires forall i :: 0 <= i < |es| ==> !(es[i].Start? && es[i].tag == Table)
    ensures Feed(Fresh(), es) == Fresh()
  {
    if es != [] {
      NothingBeforeTable(es[..|es| - 1]);
    }
  }

  /**
    The page reads back as its first table: whatever stands before it outside a table and whatever
    follows it, headers, rows and links are exactly the table's own, with its text normalised.
   */
  lemma PageReadsAsFirstTable(before: seq<Event>, t: RawTable, after: seq<Event>)
    requires forall i :: 0 <= i < |before| ==> !(before[i].Start? && before[i].tag == Table)
    requires WellFormed(t)
    ensures var q := Feed(Fresh(), before + TableEvents(t) + after);
      Frozen(q) && q.headers == TableHeaders(t.rows) && q.rows == TableRows(t.rows)
  {
    NothingBeforeTable(before);
    var entered := OnStart(Fresh(), Table, None);
    FeedOne(Fresh(), Start(Table, None));
    InlineOutside(entered, t.lead);
    RowsAreRead(entered, t.rows);
    var filled := Feed(entered, RowsEvents(t.rows));
    FeedOne(filled, End(Table));
    FeedThree(Fresh(), [Start(Table, None)], t.lead, RowsEvents(t.rows));
    FeedConcat(Fresh(), [Start(Table, None)] + t.lead + RowsEvents(t.rows), [End(Table)]);
    FeedThree(Fresh(), before, TableEvents(t), after);
    FrozenForGood(OnEnd(filled, Table), after);
  }

  // ---------------------------------------------------------------- rendering and reading back

  function CellMarkup(c: Cell): RawCell {
    RawCell(false, (if c.href.Some? then [Start(Anchor, c.href)] else []) + [Text(c.value)], [])
  }

  function CellsMarkup(cs: seq<Cell>): seq<RawCell> {
    if cs == [] then [] else CellsMarkup(cs[..|cs| - 1]) + [CellMarkup(cs[|cs| - 1])]
  }

  function HeadersMarkup(hs: seq<string>): seq<RawCell> {
    if hs == [] then [] else HeadersMarkup(hs[..|hs| - 1]) + [RawCell(true, [Text(hs[|hs| - 1])], [])]
  }

  function RowsMarkup(rows: seq<seq<Cell>>): seq<RawRow> {
    if rows == [] then [] else RowsMarkup(rows[..|rows| - 1]) + [RawRow([], CellsMarkup(rows[|rows| - 1]), [])]
  }

  /** A page table: a heading row, then one row of linked cells for each data row. */
  function Render(headers: seq<string>, rows: seq<seq<Cell>>): RawTable {
    RawTable([], [RawRow([], HeadersMarkup(headers), [])] + RowsMarkup(rows))
  }

  function NonemptyRows(rows: seq<seq<Cell>>): seq<seq<Cell>> {
    if rows == [] then []
    else NonemptyRows(rows[..|rows| - 1]) + if rows[|rows| - 1] == [] then [] else [rows[|rows| - 1]]
  }

  ghost predicate NormalCells(cs: seq<Cell>) {
    forall i :: 0 <= i < |cs| ==> Normal(cs[i].value) == cs[i].value
  }

  lemma InlineAppend(es: seq<Event>, e: Event)
    ensures TextOf(es + [e]) == TextOf(es) + if e.Text? then e.data else ""
    ensures LinkOf(es + [e]) == if e.Start? && e.tag == Anchor then e.href else LinkOf(es)
  {
    assert (es + [e])[..|es|] == es;
  }

  lemma TextAndLink(c: Cell)
    ensures TextOf(CellMarkup(c).inside) == c.value && LinkOf(CellMarkup(c).inside) == c.href
    ensures CellWellFormed(CellMarkup(c))
  {
    InlineAppend([], Start(Anchor, c.href));
    assert [] + [Start(Anchor, c.href)] == [Start(Anchor, c.href)];
    InlineAppend(if c.href.Some? then [Start(Anchor, c.href)] else [], Text(c.value));
    assert "" + c.value == c.value;
  }

  lemma ReadCell(c: Cell)
    requires Normal(c.value) == c.value
    ensures Read(CellMarkup(c)) == c && CellWellFormed(CellMarkup(c))
  {
    TextAndLink(c);
  }

  lemma ReadHeader(h: string)
    requires Normal(h) == h
    ensures Read(RawCell(true, [Text(h)], [])).value == h
  {
    InlineAppend([], Text(h));
    assert [] + [Text(h)] == [Text(h)] && "" + h == h;
  }

  ghost predicate AllCells(cs: seq<RawCell>) {
    forall i :: 0 <= i < |cs| ==> CellWellFormed(cs[i])
  }

  lemma OneCellMore(cs: seq<RawCell>, c: RawCell)
    requires AllCells(cs) && CellWellFormed(c)
    ensures AllCells(cs + [c])
  {
  }

  lemma FewerNormal(cs: seq<Cell>)
    requires NormalCells(cs) && cs != []
    ensures NormalCells(cs[..|cs| - 1]) && Normal(cs[|cs| - 1].value) == cs[|cs| - 1].value
  {
  }

  ghost predicate ReadsCells(raw: seq<RawCell>, cs: seq<Cell>) {
    RowCells(raw) == cs && RowHeaders(raw) == [] && AllCells(raw)
  }

  lemma CellAppends(raw: seq<RawCell>, cs: seq<Cell>, c: RawCell, cell: Cell)
    requires ReadsCells(raw, cs) && !c.heading && Read(c) == cell && CellWellFormed(c)
    ensures ReadsCells(raw + [c], cs + [cell])
  {
    ReadingAppends(raw, c);
    OneCellMore(raw, c);
  }

  lemma NormalCellAppends(raw: seq<RawCell>, cs: seq<Cell>, cell: Cell)
    requires ReadsCells(raw, cs) && Normal(cell.value) == cell.value
    ensures ReadsCells(raw + [CellMarkup(cell)], cs + [cell])
  {
    ReadCell(cell);
    CellAppends(raw, cs, CellMarkup(cell), cell);
  }

  lemma {:induction false} CellsReadBack(cs: seq<Cell>)
    requires NormalCells(cs)
    ensures ReadsCells(CellsMarkup(cs), cs)
  {
    if cs != [] {
      var rest, last := cs[..|cs| - 1], cs[|cs| - 1];
      FewerNormal(cs);
      CellsReadBack(rest);
      NormalCellAppends(CellsMarkup(rest), rest, last);
      assert rest + [last] == cs;
    }
  }

  lemma {:induction false} HeadersReadBack(hs: seq<string>)
    requires forall i :: 0 <= i < |hs| ==> Normal(hs[i]) == hs[i]
    ensures RowHeaders(HeadersMarkup(hs)) == hs && RowCells(HeadersMarkup(hs)) == [] && AllCells(HeadersMarkup(hs))
  {
    if hs != [] {
      var rest, last := hs[..|hs| - 1], RawCell(true, [Text(hs[|hs| - 1])], []);
      HeadersReadBack(rest);
      ReadHeader(hs[|hs| - 1]);
      ReadingAppends(HeadersMarkup(rest), last);
      OneCellMore(HeadersMarkup(rest), last);
    }
  }

  lemma RowsAppend(rs: seq<RawRow>, r: RawRow)
    ensures TableRows(rs + [r]) == TableRows(rs) + if RowCells(r.cells) == [] then [] else [RowCells(r.cells)]
    ensures TableHeaders(rs + [r]) == TableHeaders(rs) + RowHeaders(r.cells)
  {
    assert (rs + [r])[..|rs|] == rs;
  }

  ghost predicate AllRows(rs: seq<RawRow>) {
    forall i :: 0 <= i < |rs| ==> RowWellFormed(rs[i])
  }

  /** What rows must read as: headers and listed rows, all of them well formed. */
  ghost predicate ReadsAs(rs: seq<RawRow>, headers: seq<string>, rows: seq<seq<Cell>>) {
    TableHeaders(rs) == headers && TableRows(rs) == rows && AllRows(rs)
  }

  lemma OneRowMore(rs: seq<RawRow>, headers: seq<string>, rows: seq<seq<Cell>>, cells: seq<Cell>)
    requires ReadsAs(rs, headers, rows) && NormalCells(cells)
    ensures ReadsAs(rs + [RawRow([], CellsMarkup(cells), [])], headers, rows + if cells == [] then [] else [cells])
  {
    CellsReadBack(cells);
    PlainRowAppends(rs, headers, rows, CellsMarkup(cells), cells);
  }

  lemma PlainRowAppends(rs: seq<RawRow>, headers: seq<string>, rows: seq<seq<Cell>>, raw: seq<RawCell>, cells: seq<Cell>)
    requires ReadsAs(rs, headers, rows) && ReadsCells(raw, cells)
    ensures ReadsAs(rs + [RawRow([], raw, [])], headers, rows + if cells == [] then [] else [cells])
  {
    RowsAppend(rs, RawRow([], raw, []));
  }

  lemma FirstRow(first: RawRow, headers: seq<string>)
    requires RowHeaders(first.cells) == headers && RowCells(first.cells) == [] && RowWellFormed(first)
    ensures ReadsAs([first], headers, [])
  {
    RowsAppend([], first);
    assert [] + [first] == [first];
  }

  lemma {:induction false} RowsReadBack(first: RawRow, headers: seq<string>, rows: seq<seq<Cell>>)
    requires ReadsAs([first], headers, []) && forall i :: 0 <= i < |rows| ==> NormalCells(rows[i])
    ensures ReadsAs([first] + RowsMarkup(rows), headers, NonemptyRows(rows))
    decreases |rows|
  {
    if rows == [] {
      assert [first] + RowsMarkup(rows) == [first];
    } else {
      var rest, cells := rows[..|rows| - 1], rows[|rows| - 1];
      var row := RawRow([], CellsMarkup(cells), []);
      RowsReadBack(first, headers, rest);
      OneRowMore([first] + RowsMarkup(rest), headers, NonemptyRows(rest), cells);
      assert [first] + (RowsMarkup(rest) + [row]) == [first] + RowsMarkup(rest) + [row];
    }
  }

  /**
    The round trip: headers, rows and links with normalised text, rendered as a table anywhere on a page,
    are read back exactly, but for rows without cells, which are not listed.
   */
  lemma RenderedTableReadsBack(before: seq<Event>, headers: seq<string>, rows: seq<seq<Cell>>, after: seq<Event>)
    requires forall i :: 0 <= i < |before| ==> !(before[i].Start? && before[i].tag == Table)
    requires forall i :: 0 <= i < |headers| ==> Normal(headers[i]) == headers[i]
    requires forall i :: 0 <= i < |rows| ==> NormalCells(rows[i])
    ensures var q := Feed(Fresh(), before + TableEvents(Render(headers, rows)) + after);
      q.headers == headers && q.rows == NonemptyRows(rows)
    ensures (forall i :: 0 <= i < |rows| ==> rows[i] != []) ==> NonemptyRows(rows) == rows
  {
    var t := Render(headers, rows);
    HeadersReadBack(headers);
    FirstRow(t.rows[0], headers);
    RowsReadBack(t.rows[0], headers, rows);
    NonemptyRowsStay(rows);
    PageReadsAsFirstTable(before, t, after);
  }

  lemma {:induction false} NonemptyRowsStay(rows: seq<seq<Cell>>)
    ensures (forall i :: 0 <= i < |rows| ==> rows[i] != []) ==> NonemptyRows(rows) == rows
  {
    if rows != [] { NonemptyRowsStay(rows[..|rows| - 1]); }
  }

  // ---------------------------------------------------------------- the metadata dictionary

  datatype Product = Product(name: string, inception: string, productId: string, url: string)

  const PREFIX := "/us/products/"

  function UpToSlash(s: string): string {
    if s == "" || s[0] == '/' then "" else [s[0]] + UpToSlash(s[1..])
  }

  predicate Digits(s: string) {
    s != "" && forall i :: 0 <= i < |s| ==> '0' <= s[i] <= '9'
  }

  /** Comparing slices, which may be short, is comparing the three headings. */
  lemma SchemaBySlices(headers: seq<string>)
    ensures headers[..MinInt(2, |headers|)] == ["Ticker", "Name"] && headers[MinInt(6, |headers|)..MinInt(7, |headers|)] == ["Incept. Date"]
      <==> |headers| >= 7 && headers[0] == "Ticker" && headers[1] == "Name" && headers[6] == "Incept. Date"
  {
    var a, b := headers[..MinInt(2, |headers|)], headers[MinInt(6, |headers|)..MinInt(7, |headers|)];
    if a == ["Ticker", "Name"] && b == ["Incept. Date"] {
      assert a[0] == headers[0] && a[1] == headers[1] && b[0] == headers[6];
    }
  }

  predicate ProductLink(href: Option<string>) {
    && href.Some? && |href.value| >= |PREFIX| && href.value[..|PREFIX|] == PREFIX
    && Digits(UpToSlash(href.value[|PREFIX|..]))
  }

  /** A row the issuer schema allows, given a reading of its date. */
  predicate RowAllowed(headers: seq<string>, cells: seq<Cell>, date: string -> Option<string>) {
    && |cells| == |headers| && |cells| >= 7 && ProductLink(cells[0].href) && date(cells[6].value).Some?
  }

  function ProductOf(cells: seq<Cell>, date: string -> Option<string>): Product
    requires |cells| >= 7 && ProductLink(cells[0].href) && date(cells[6].value).Some?
  {
    Product(cells[1].value, date(cells[6].value).value,
            "ishares:" + UpToSlash(cells[0].href.value[|PREFIX|..]), "https://www.ishares.com" + cells[0].href.value)
  }

  /** A link is `/us/products/`, a number, and nothing more or a slash and anything. */
  ghost predicate Links(href: Option<string>, id: string, rest: string) {
    && href == Some("/us/products/" + id + rest)
    && id != "" && (forall i :: 0 <= i < |id| ==> '0' <= id[i] <= '9')
    && (rest == "" || rest[0] == '/')
  }

  lemma {:induction false} SlashSplits(s: string)
    ensures UpToSlash(s) <= s && (forall i :: 0 <= i < |UpToSlash(s)| ==> UpToSlash(s)[i] != '/')
    ensures |UpToSlash(s)| < |s| ==> s[|UpToSlash(s)|] == '/'
  {
    if s != "" && s[0] != '/' { SlashSplits(s[1..]); }
  }

  lemma {:induction false} SlashEnds(id: string, rest: string)
    requires (forall i :: 0 <= i < |id| ==> id[i] != '/') && (rest == "" || rest[0] == '/')
    ensures UpToSlash(id + rest) == id
  {
    if id == "" {
      assert id + rest == rest;
    } else {
      assert (id + rest)[1..] == id[1..] + rest;
      SlashEnds(id[1..], rest);
      assert id == [id[0]] + id[1..];
    }
  }

  lemma LinkHasOneReading(href: Option<string>, id: string, rest: string)
    requires Links(href, id, rest)
    ensures ProductLink(href) && UpToSlash(href.value[|PREFIX|..]) == id
  {
    assert href.value == PREFIX + (id + rest);
    assert href.value[|PREFIX|..] == id + rest;
    SlashEnds(id, rest);
  }

  lemma LinkIsRead(href: Option<string>)
    ensures ProductLink(href) <==> exists id, rest :: Links(href, id, rest)
    ensures ProductLink(href) ==>
      var id := UpToSlash(href.value[|PREFIX|..]);
      exists rest :: Links(href, id, rest) && href.value == "/us/products/" + id + rest
  {
    if ProductLink(href) {
      var tail := href.value[|PREFIX|..];
      SlashSplits(tail);
      var id, rest := UpToSlash(tail), tail[|UpToSlash(tail)|..];
      assert href.value == PREFIX + id + rest;
      assert Links(href, id, rest);
    }
    forall id, rest | Links(href, id, rest) ensures ProductLink(href) {
      LinkHasOneReading(href, id, rest);
    }
  }

  /** A row has a product exactly when its link reads that way, and the product is the row's own. */
  lemma ProductsAreRead(headers: seq<string>, cells: seq<Cell>, date: string -> Option<string>)
    ensures Parsed(headers, cells, date).Some? <==>
      && |cells| == |headers| && |cells| >= 7 && date(cells[6].value).Some?
      && exists id, rest :: Links(cells[0].href, id, rest)
  {
    if |cells| >= 7 { LinkIsRead(cells[0].href); }
  }

  lemma ProductIsRead(headers: seq<string>, cells: seq<Cell>, date: string -> Option<string>, id: string, rest: string)
    requires Parsed(headers, cells, date).Some? && Links(cells[0].href, id, rest)
    ensures Parsed(headers, cells, date).value
         == Product(cells[1].value, date(cells[6].value).value, "ishares:" + id, "https://www.ishares.com" + ("/us/products/" + id + rest))
  {
    LinkHasOneReading(cells[0].href, id, rest);
  }

  function SymbolOf(cells: seq<Cell>): string {
    if cells == [] then "" else cells[0].value
  }

  function Parsed(headers: seq<string>, cells: seq<Cell>, date: string -> Option<string>): Option<Product> {
    if RowAllowed(headers, cells, date) then Some(ProductOf(cells, date)) else None
  }

  ghost predicate RowsAllowed(rows: seq<seq<Cell>>, parse: seq<Cell> -> Option<Product>) {
    && (forall i :: 0 <= i < |rows| ==> parse(rows[i]).Some?)
    && (forall i, j :: 0 <= i < j < |rows| ==> SymbolOf(rows[i]) != SymbolOf(rows[j]))
  }

  /** A dictionary holding each key's value, all keys different, and nothing else. */
  ghost predicate Built<K, V>(m: map<K, V>, ks: seq<K>, vs: seq<V>) {
    && |ks| == |vs| == |m|
    && (forall j :: 0 <= j < |ks| ==> ks[j] in m && m[ks[j]] == vs[j])
    && (forall i, j :: 0 <= i < j < |ks| ==> ks[i] != ks[j])
    && (forall k :: k in m ==> k in ks)
  }

  lemma BuiltStep<K, V>(m: map<K, V>, ks: seq<K>, vs: seq<V>, k: K, v: V)
    requires Built(m, ks, vs) && k !in m
    ensures Built(m[k := v], ks + [k], vs + [v])
  {
  }

  /** The first `n` rows' symbols and products. */
  ghost predicate Columns(rows: seq<seq<Cell>>, n: nat, parse: seq<Cell> -> Option<Product>, ks: seq<string>, vs: seq<Product>) {
    && n <= |rows| && |ks| == |vs| == n
    && forall j :: 0 <= j < n ==> ks[j] == SymbolOf(rows[j]) && parse(rows[j]) == Some(vs[j])
  }

  lemma ColumnsStep(rows: seq<seq<Cell>>, n: nat, parse: seq<Cell> -> Option<Product>, ks: seq<string>, vs: seq<Product>, v: Product)
    requires n < |rows| && Columns(rows, n, parse, ks, vs) && parse(rows[n]) == Some(v)
    ensures Columns(rows, n + 1, parse, ks + [SymbolOf(rows[n])], vs + [v])
  {
  }

  lemma ColumnsAreAllowed(m: map<string, Product>, rows: seq<seq<Cell>>, parse: seq<Cell> -> Option<Product>, ks: seq<string>, vs: seq<Product>)
    requires Columns(rows, |rows|, parse, ks, vs) && Built(m, ks, vs)
    ensures RowsAllowed(rows, parse)
  {
    forall i, j | 0 <= i < j < |rows| ensures SymbolOf(rows[i]) != SymbolOf(rows[j]) {
      assert ks[i] != ks[j];
    }
  }

  lemma RepeatIsRefused(m: map<string, Product>, rows: seq<seq<Cell>>, n: nat, parse: seq<Cell> -> Option<Product>, ks: seq<string>, vs: seq<Product>)
    requires n < |rows| && Columns(rows, n, parse, ks, vs) && Built(m, ks, vs) && SymbolOf(rows[n]) in m
    ensures !RowsAllowed(rows, parse)
  {
    var j :| 0 <= j < |ks| && ks[j] == SymbolOf(rows[n]);
    assert SymbolOf(rows[j]) == SymbolOf(rows[n]);
  }

  /** One entry for each row, under that row's symbol, and nothing else. */
  ghost predicate Catalogues(m: map<string, Product>, rows: seq<seq<Cell>>, parse: seq<Cell> -> Option<Product>) {
    exists ks, vs :: Columns(rows, |rows|, parse, ks, vs) && Built(m, ks, vs)
  }

  /** One row's entry, unless the row is not allowed or its symbol is taken. */
  method AddProduct(result: map<string, Product>, rows: seq<seq<Cell>>, i: nat, parse: seq<Cell> -> Option<Product>,
                    ghost ks: seq<string>, ghost vs: seq<Product>)
    returns (more: Option<map<string, Product>>, ghost ks1: seq<string>, ghost vs1: seq<Product>)
    requires i < |rows| && Columns(rows, i, parse, ks, vs) && Built(result, ks, vs)
    ensures more.None? ==> !RowsAllowed(rows, parse)
    ensures more.Some? ==> Columns(rows, i + 1, parse, ks1, vs1) && Built(more.value, ks1, vs1)
  {
    ks1, vs1 := ks, vs;
    var product := parse(rows[i]);
    if product.None? { return None, ks1, vs1; }
    var symbol := SymbolOf(rows[i]);
    if symbol in result {
      RepeatIsRefused(result, rows, i, parse, ks, vs);
      return None, ks1, vs1;
    }
    BuiltStep(result, ks, vs, symbol, product.value);
    ColumnsStep(rows, i, parse, ks, vs, product.value);
    ks1, vs1 := ks + [symbol], vs + [product.value];
    more := Some(result[symbol := product.value]);
  }

  method BuildDictionary(rows: seq<seq<Cell>>, parse: seq<Cell> -> Option<Product>) returns (r: Option<map<string, Product>>)
    ensures r.Some? <==> RowsAllowed(rows, parse)
    ensures r.Some? ==> Catalogues(r.value, rows, parse)
  {
    var result: map<string, Product> := map[];
    ghost var ks: seq<string>, vs: seq<Product> := [], [];
    for i := 0 to |rows|
      invariant Columns(rows, i, parse, ks, vs) && Built(result, ks, vs)
    {
      var more, ks1, vs1 := AddProduct(result, rows, i, parse, ks, vs);
      if more.None? { return None; }
      result, ks, vs := more.value, ks1, vs1;
    }
    ColumnsAreAllowed(result, rows, parse, ks, vs);
    r := Some(result);
  }

  function Parser(headers: seq<string>, date: string -> Option<string>): seq<Cell> -> Option<Product> {
    cells => Parsed(headers, cells, date)
  }

  /** The dictionary is refused exactly when the schema changed, a row is not allowed, or a symbol repeats. */
  method IssuerMetadata(headers: seq<string>, rows: seq<seq<Cell>>, date: string -> Option<string>) returns (r: Option<map<string, Product>>)
    ensures r.Some? <==>
      && |headers| >= 7 && headers[0] == "Ticker" && headers[1] == "Name" && headers[6] == "Incept. Date"
      && RowsAllowed(rows, Parser(headers, date))
    ensures r.Some? ==> Catalogues(r.value, rows, Parser(headers, date))
  {
    if headers[..MinInt(2, |headers|)] != ["Ticker", "Name"] || headers[MinInt(6, |headers|)..MinInt(7, |headers|)] != ["Incept. Date"] {
      SchemaBySlices(headers);
      r := None;
    } else {
      SchemaBySlices(headers);
      r := BuildDictionary(rows, Parser(headers, date));
    }
  }
}
