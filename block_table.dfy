/**
 * The block tables the importer scripts write into the page body: a header cell that
 * names the block and spans the columns, then one row per entry list. Each script has
 * its own copy of the builder; they differ in how the header span is chosen, whether
 * element cells are moved or cloned, and whether short rows are padded with empty cells.
 */
module BlockTable {
  import opened Text

  /** A cell value handed to the builder: markup, an element, or anything else. */
  datatype Entry = Str(s: string) | Element(markup: string) | Other

  /** A row handed to the builder: an array of cells, or a single value that stands for one cell. */
  datatype RowInput = Cells(entries: seq<Entry>) | Lone(entry: Entry)

  /** A generated <td>: empty, filled from markup, or holding an element that was moved or cloned into it. */
  datatype Td = EmptyTd | HtmlTd(html: string) | MovedTd(markup: string) | CopyTd(markup: string)

  datatype Table = Table(name: string, colSpan: int, rows: seq<seq<Td>>)

  /** A child appended to the page body: a block table or a section break (<hr>). */
  datatype PageNode = TableNode(table: Table) | Hr

  /** Whether element cells are placed with appendChild (moved) or with cloneNode(true). */
  datatype Placement = Move | Copy

  /** The names of the blocks the importers write, as their header cells show them. */
  const ISI_HERO := "Ski Isi Hero"
  const ISI_INDICATIONS := "Ski Isi Indications"
  const ISI_COVERAGE := "Ski Isi Coverage"
  const ISI_SUPPORT := "Ski Isi Support"
  const ISI_SAFETY := "Ski Isi Safety"
  const ISI_EFFICACY := "Ski Isi Efficacy"
  const ISI_STATS := "Ski Isi Stats"
  const ISI_NAV := "Ski Isi Nav"
  const ISA_HERO := "Ski Isa Hero"
  const ISA_SAFETY := "Ski Isa Safety"
  const ISA_INDICATIONS := "Ski Isa Indications"
  const ISA_COVERAGE := "Ski Isa Coverage"
  const ISA_SUPPORT := "Ski Isa Support"
  const ISA_NAV := "Ski Isa Nav"
  const METADATA := "Metadata"

  /** `Array.isArray(row) ? row : [row]`. */
  function EntriesOf(r: RowInput): (es: seq<Entry>)
    ensures r.Lone? ==> es == [r.entry]
  {
    match r
    case Cells(es) => es
    case Lone(e) => [e]
  }

  /** A row given as an array of strings. */
  function StrCells(xs: seq<string>): (r: RowInput)
    ensures r.Cells? && |r.entries| == |xs| && forall i | 0 <= i < |xs| :: r.entries[i] == Str(xs[i])
  {
    Cells(seq(|xs|, i requires 0 <= i < |xs| => Str(xs[i])))
  }

  /** A string becomes the cell's inner HTML, an element goes into the cell, anything else leaves it empty. */
  function TdOf(e: Entry, how: Placement): Td {
    match e
    case Str(s) => HtmlTd(s)
    case Element(m) => if how == Move then MovedTd(m) else CopyTd(m)
    case Other => EmptyTd
  }

  function Max(a: int, b: int): int {
    if a < b then b else a
  }

  /** The specification of one generated row: the entries' cells, then empty cells up to `pad`. */
  function RowTds(r: RowInput, how: Placement, pad: int): (tds: seq<Td>)
    ensures |tds| == Max(|EntriesOf(r)|, pad)
    ensures forall j | 0 <= j < |EntriesOf(r)| :: tds[j] == TdOf(EntriesOf(r)[j], how)
    ensures forall j | |EntriesOf(r)| <= j < |tds| :: tds[j] == EmptyTd
  {
    var es := EntriesOf(r);
    seq(|es|, j requires 0 <= j < |es| => TdOf(es[j], how)) + seq(Max(|es|, pad) - |es|, _ => EmptyTd)
  }

  /** The specification of a whole table. */
  function TableOf(name: string, rows: seq<RowInput>, colSpan: int, how: Placement, pad: int): (t: Table)
    ensures t.name == name && t.colSpan == colSpan && |t.rows| == |rows|
    ensures forall i | 0 <= i < |rows| :: t.rows[i] == RowTds(rows[i], how, pad)
  {
    Table(name, colSpan, seq(|rows|, i requires 0 <= i < |rows| => RowTds(rows[i], how, pad)))
  }

  /** One row: a cell per entry, then (`while (tr.children.length < columns)`) empty cells. */
  method BuildRow(r: RowInput, how: Placement, pad: int) returns (tr: seq<Td>)
    ensures tr == RowTds(r, how, pad)
  {
    var es := EntriesOf(r);
    tr := [];
    var j := 0;
    while j < |es|
      invariant 0 <= j <= |es| && |tr| == j
      invariant forall k | 0 <= k < j :: tr[k] == TdOf(es[k], how)
    {
      tr := tr + [TdOf(es[j], how)];
      j := j + 1;
    }
    while |tr| < pad
      invariant |es| <= |tr| <= Max(|es|, pad)
      invariant forall k | 0 <= k < |es| :: tr[k] == TdOf(es[k], how)
      invariant forall k | |es| <= k < |tr| :: tr[k] == EmptyTd
      decreases pad - |tr|
    {
      tr := tr + [EmptyTd];
    }
    var spec := RowTds(r, how, pad);
    assert |tr| == |spec|;
    assert forall k | 0 <= k < |tr| :: tr[k] == spec[k];
  }

  /** The table: the header names the block and spans `colSpan` columns; then the rows in order. */
  method Build(name: string, rows: seq<RowInput>, colSpan: int, how: Placement, pad: int) returns (t: Table)
    ensures t == TableOf(name, rows, colSpan, how, pad)
  {
    var body: seq<seq<Td>> := [];
    var i := 0;
    while i < |rows|
      invariant 0 <= i <= |rows| && |body| == i
      invariant forall k | 0 <= k < i :: body[k] == RowTds(rows[k], how, pad)
    {
      var tr := BuildRow(rows[i], how, pad);
      body := body + [tr];
      i := i + 1;
    }
    t := Table(name, colSpan, body);
    var spec := TableOf(name, rows, colSpan, how, pad);
    assert |body| == |spec.rows|;
    assert forall k | 0 <= k < |body| :: body[k] == spec.rows[k];
  }

  /** With cloning, no source element is moved into the table. */
  lemma CopyMovesNothing(name: string, rows: seq<RowInput>, colSpan: int, pad: int, i: nat, j: nat)
    requires i < |rows| && j < |TableOf(name, rows, colSpan, Copy, pad).rows[i]|
    ensures !TableOf(name, rows, colSpan, Copy, pad).rows[i][j].MovedTd?
  {
  }

  /** Without padding a row has exactly one cell per entry: a lone value gives a one-cell row. */
  lemma UnpaddedRow(r: RowInput, how: Placement)
    ensures |RowTds(r, how, 0)| == |EntriesOf(r)|
    ensures r.Lone? ==> |RowTds(r, how, 0)| == 1
  {
  }

  /** With padding to `columns`, every row has at least that many cells. */
  lemma PaddedRowsAreFull(name: string, rows: seq<RowInput>, colSpan: int, how: Placement, columns: int, i: nat)
    requires i < |rows|
    ensures |TableOf(name, rows, colSpan, how, columns).rows[i]| >= columns
  {
  }

  // ---------------------------------------------------------------------------
  // The page body the scripts rebuild

  /** `document.body`: the importer scripts clear it and append tables and <hr>s. */
  class Body {
    var children: seq<PageNode>

    constructor (initial: seq<PageNode>)
      ensures children == initial
    {
      children := initial;
    }

    /** `body.innerHTML = ''`. */
    method Clear()
      modifies this
      ensures children == []
    {
      children := [];
    }

    /** `body.appendChild(node)`. */
    method Append(n: PageNode)
      modifies this
      ensures children == old(children) + [n]
    {
      children := children + [n];
    }

    /** `body.appendChild(table); body.appendChild(createDivider(doc))`: one more framed table. */
    method AppendSection(ghost done: seq<Table>, t: Table)
      requires children == Framed(done)
      modifies this
      ensures children == Framed(done + [t])
    {
      children := children + [TableNode(t), Hr];
      assert (done + [t])[..|done|] == done;
    }
  }

  /** Clears the body, appends three tables each with its break, then the last table. */
  method WritePage3(body: Body, a: Table, b: Table, c: Table, last: Table)
    modifies body
    ensures body.children == Page([a, b, c], last)
  {
    body.Clear();
    ghost var done: seq<Table> := [];
    body.AppendSection(done, a);
    done := done + [a];
    body.AppendSection(done, b);
    done := done + [b];
    body.AppendSection(done, c);
    done := done + [c];
    body.Append(TableNode(last));
  }

  /** Clears the body, appends four tables each with its break, then the last table. */
  method WritePage4(body: Body, a: Table, b: Table, c: Table, d: Table, last: Table)
    modifies body
    ensures body.children == Page([a, b, c, d], last)
  {
    body.Clear();
    ghost var done: seq<Table> := [];
    body.AppendSection(done, a);
    done := done + [a];
    body.AppendSection(done, b);
    done := done + [b];
    body.AppendSection(done, c);
    done := done + [c];
    body.AppendSection(done, d);
    done := done + [d];
    body.Append(TableNode(last));
  }

  /** Clears the body, appends five tables each with its break, then the last table. */
  method WritePage5(body: Body, a: Table, b: Table, c: Table, d: Table, e: Table, last: Table)
    modifies body
    ensures body.children == Page([a, b, c, d, e], last)
  {
    body.Clear();
    ghost var done: seq<Table> := [];
    body.AppendSection(done, a);
    done := done + [a];
    body.AppendSection(done, b);
    done := done + [b];
    body.AppendSection(done, c);
    done := done + [c];
    body.AppendSection(done, d);
    done := done + [d];
    body.AppendSection(done, e);
    done := done + [e];
    body.Append(TableNode(last));
  }

  /** Clears the body, appends six tables each with its break, then the last table. */
  method WritePage6(body: Body, a: Table, b: Table, c: Table, d: Table, e: Table, f: Table, last: Table)
    modifies body
    ensures body.children == Page([a, b, c, d, e, f], last)
  {
    body.Clear();
    ghost var done: seq<Table> := [];
    body.AppendSection(done, a);
    done := done + [a];
    body.AppendSection(done, b);
    done := done + [b];
    body.AppendSection(done, c);
    done := done + [c];
    body.AppendSection(done, d);
    done := done + [d];
    body.AppendSection(done, e);
    done := done + [e];
    body.AppendSection(done, f);
    done := done + [f];
    body.Append(TableNode(last));
  }

  /** Tables each followed by a section break. */
  function Framed(ts: seq<Table>): (r: seq<PageNode>)
    ensures |r| == 2 * |ts|
    ensures forall i | 0 <= i < |ts| :: r[2 * i] == TableNode(ts[i]) && r[2 * i + 1] == Hr
  {
    if ts == [] then []
    else
      var init := Framed(ts[..|ts| - 1]);
      assert forall i | 0 <= i < |ts| - 1 :: ts[..|ts| - 1][i] == ts[i];
      init + [TableNode(ts[|ts| - 1]), Hr]
  }

  /** A rebuilt page: the framed tables, then a last table with no break after it. */
  function Page(ts: seq<Table>, last: Table): seq<PageNode> {
    Framed(ts) + [TableNode(last)]
  }

  function TableNames(ts: seq<Table>): (r: seq<string>)
    ensures |r| == |ts| && forall i | 0 <= i < |ts| :: r[i] == ts[i].name
  {
    seq(|ts|, i requires 0 <= i < |ts| => ts[i].name)
  }

  /** On a rebuilt page tables and breaks alternate, beginning and ending with a table. */
  lemma PageAlternates(ts: seq<Table>, last: Table)
    ensures Alternates(Page(ts, last))
  {
    var p := Page(ts, last);
    forall i | 0 <= i < |p| ensures p[i].Hr? <==> i % 2 == 1 {
      if i < 2 * |ts| {
        var k := i / 2;
        assert i == 2 * k || i == 2 * k + 1;
      }
    }
  }

  /** Whatever holds of every table handed to the page holds of every table on it. */
  lemma PageKeeps(ts: seq<Table>, last: Table, p: Table -> bool)
    requires forall i | 0 <= i < |ts| :: p(ts[i])
    requires p(last)
    ensures forall k | 0 <= k < |Page(ts, last)| && Page(ts, last)[k].TableNode? :: p(Page(ts, last)[k].table)
  {
    var pg := Page(ts, last);
    forall k | 0 <= k < |pg| && pg[k].TableNode? ensures p(pg[k].table) {
      if k < 2 * |ts| {
        assert pg[k] == Framed(ts)[k];
        var q := k / 2;
        assert k == 2 * q || k == 2 * q + 1;
      } else {
        assert pg[k] == TableNode(last);
      }
    }
  }

  /** The block names of a rebuilt page are its tables' names, in order. */
  lemma {:induction false} FramedNames(ts: seq<Table>)
    ensures Names(Framed(ts)) == TableNames(ts)
  {
    if ts != [] {
      var init := ts[..|ts| - 1];
      FramedNames(init);
      NamesAppend(Framed(init), [TableNode(ts[|ts| - 1]), Hr]);
      assert Names([TableNode(ts[|ts| - 1]), Hr]) == [ts[|ts| - 1].name] by {
        assert [TableNode(ts[|ts| - 1]), Hr][..1] == [TableNode(ts[|ts| - 1])];
      }
      assert TableNames(ts) == TableNames(init) + [ts[|ts| - 1].name];
    }
  }

  lemma {:induction false} NamesAppend(a: seq<PageNode>, b: seq<PageNode>)
    ensures Names(a + b) == Names(a) + Names(b)
  {
    if b != [] {
      assert (a + b)[..|a + b| - 1] == a + b[..|b| - 1];
      NamesAppend(a, b[..|b| - 1]);
    } else {
      assert a + b == a;
    }
  }

  lemma TableNamesAppend(a: seq<Table>, b: seq<Table>)
    ensures TableNames(a + b) == TableNames(a) + TableNames(b)
  {
    assert |TableNames(a + b)| == |TableNames(a) + TableNames(b)|;
    forall i | 0 <= i < |a + b| ensures TableNames(a + b)[i] == (TableNames(a) + TableNames(b))[i] {
      if i < |a| {
        assert (a + b)[i] == a[i];
      } else {
        assert (a + b)[i] == b[i - |a|];
      }
    }
  }

  lemma PageNames(ts: seq<Table>, last: Table)
    ensures Names(Page(ts, last)) == TableNames(ts) + [last.name]
  {
    FramedNames(ts);
    NamesAppend(Framed(ts), [TableNode(last)]);
  }

  /** The names of the block tables on a page, in order. */
  function Names(ns: seq<PageNode>): (r: seq<string>)
    ensures |r| <= |ns|
  {
    if ns == [] then []
    else Names(ns[..|ns| - 1]) + (if ns[|ns| - 1].TableNode? then [ns[|ns| - 1].table.name] else [])
  }

  /** Tables and section breaks alternate, starting and ending with a table: an <hr> after every table but the last. */
  predicate Alternates(ns: seq<PageNode>) {
    |ns| % 2 == 1 && forall i | 0 <= i < |ns| :: (ns[i].Hr? <==> i % 2 == 1)
  }
}
