/**
 * An authored block as a decorator receives it: a sequence of row <div>s, each a
 * sequence of column <div>s. A column is known by its text content, its inner
 * HTML, the first anchor inside it and the first <picture> and <img> inside it.
 */
module Authored {
  import opened Wrappers
  import opened Text
  import opened Scrape

  /** An anchor: its resolved `href` property and its text content. */
  datatype Link = Link(href: string, text: string)

  datatype Column = Column(text: string, html: string, link: Option<Link>,
                           picture: Option<string>, img: Option<string>)

  type Row = seq<Column>

  /** `cols[i]?.textContent?.trim() || ''`. */
  function ColText(r: Row, i: nat): string {
    if i < |r| then Trim(r[i].text) else ""
  }

  /** `cols[i]?.innerHTML || ''`. */
  function ColHtml(r: Row, i: nat): string {
    if i < |r| then r[i].html else ""
  }

  /** A child node of a row <div>: a text node, such as the indentation of the authored markup, or a column <div>. */
  datatype RowChild = TextNode(text: string) | ColumnDiv(col: Column)

  /** A row <div> with all its child nodes, for the decorators that read the row's own `textContent`. */
  type RowNodes = seq<RowChild>

  predicate IsColumnDiv(c: RowChild) {
    c.ColumnDiv?
  }

  /** The column of a column <div>; only asked of one. */
  function ColumnOf(c: RowChild): Column {
    match c
    case ColumnDiv(col) => col
    case TextNode(_) => Column("", "", None, None, None)
  }

  function ChildText(c: RowChild): string {
    match c
    case TextNode(t) => t
    case ColumnDiv(col) => col.text
  }

  function ColumnText(c: Column): string {
    c.text
  }

  /** `row.querySelectorAll(':scope > div')`: the column <div>s among the children, in order. */
  function Columns(r: RowNodes): (cols: Row)
    ensures |cols| <= |r|
  {
    Keep(r, IsColumnDiv, ColumnOf)
  }

  /** `row.textContent`: the text of every child in order, text nodes included. */
  function TextContent(r: RowNodes): string {
    ConcatMap(r, ChildText)
  }

  /**
   * A child contributes its text to the row's text content where it stands, and a
   * column <div> its column to the columns; a text node adds no column.
   */
  lemma {:induction false} ChildInPlace(a: RowNodes, c: RowChild, b: RowNodes)
    ensures TextContent(a + [c] + b) == TextContent(a) + ChildText(c) + TextContent(b)
    ensures Columns(a + [c] + b) == Columns(a) + (if c.ColumnDiv? then [c.col] else []) + Columns(b)
  {
    assert [c][..0] == [];
    ConcatMapAppend(a, [c], ChildText);
    ConcatMapAppend(a + [c], b, ChildText);
    KeepAppend(a, [c], IsColumnDiv, ColumnOf);
    KeepAppend(a + [c], b, IsColumnDiv, ColumnOf);
  }

  /** Without text nodes, a row's text content is its columns' text, in order. */
  lemma {:induction false} TextContentOfColumns(r: RowNodes)
    requires forall i | 0 <= i < |r| :: r[i].ColumnDiv?
    ensures TextContent(r) == ConcatMap(Columns(r), ColumnText)
  {
    if r != [] {
      var front, last := r[..|r| - 1], r[|r| - 1];
      assert forall i | 0 <= i < |front| :: front[i] == r[i];
      TextContentOfColumns(front);
      var cols := Columns(front) + [last.col];
      assert Columns(r) == cols;
      assert cols[..|cols| - 1] == Columns(front);
    }
  }

  /** Column `i` holds an anchor and no column before it does. */
  predicate FirstLinkAt(r: Row, i: int) {
    0 <= i < |r| && r[i].link.Some? && forall j | 0 <= j < i :: r[j].link.None?
  }

  /** `row.querySelector('a')`: the first anchor in document order. */
  function RowLink(r: Row): (l: Option<Link>)
    ensures l.Some? <==> exists i :: 0 <= i < |r| && r[i].link.Some?
    ensures l.Some? ==> exists i :: FirstLinkAt(r, i) && l == r[i].link
  {
    if r == [] then None
    else if r[0].link.Some? then
      assert FirstLinkAt(r, 0);
      r[0].link
    else
      var l := RowLink(r[1..]);
      assert forall i | 1 <= i < |r| :: r[i] == r[1..][i - 1];
      if l.Some? then FirstLinkShifts(r, l); l else l
  }

  /** A first anchor of the columns after a linkless first column is the first anchor of the row. */
  lemma FirstLinkShifts(r: Row, l: Option<Link>)
    requires r != [] && r[0].link.None?
    requires exists i :: FirstLinkAt(r[1..], i) && l == r[1..][i].link
    ensures exists i :: FirstLinkAt(r, i) && l == r[i].link
  {
    var i :| FirstLinkAt(r[1..], i) && l == r[1..][i].link;
    assert forall j | 1 <= j <= i :: r[j] == r[1..][j - 1];
    assert FirstLinkAt(r, i + 1);
  }

  /** `xs.slice(start, -back)` for `back > 0`, `xs.slice(start)` for `back == 0`: drops `start` items in front and `back` at the end. */
  function Slice<T>(xs: seq<T>, start: nat, back: nat): (r: seq<T>)
    ensures |r| == if |xs| >= start + back then |xs| - start - back else 0
    ensures forall i | 0 <= i < |r| :: r[i] == xs[start + i]
  {
    if |xs| >= start + back then xs[start..|xs| - back] else []
  }

  /** The records of `xs.slice(1)` are those of the slice without the last item, then the last item's. */
  lemma KeepTailSnoc<A, B>(xs: seq<A>, p: A -> bool, f: A -> B)
    requires |xs| > 1
    ensures Keep(Slice(xs, 1, 0), p, f)
            == Keep(Slice(xs[..|xs| - 1], 1, 0), p, f) + (if p(xs[|xs| - 1]) then [f(xs[|xs| - 1])] else [])
  {
    var tail := Slice(xs, 1, 0);
    assert tail[..|tail| - 1] == Slice(xs[..|xs| - 1], 1, 0);
    assert tail[|tail| - 1] == xs[|xs| - 1];
  }

  /** Nothing is kept from a slice exactly when none of its items qualifies; `hi` is where the slice ends. */
  lemma KeepSliceNone<A, B>(xs: seq<A>, start: nat, back: nat, hi: int, p: A -> bool, f: A -> B)
    requires hi == |xs| - back
    ensures Keep(Slice(xs, start, back), p, f) == [] <==> forall k | start <= k < hi :: !p(xs[k])
  {
    var mid := Slice(xs, start, back);
    KeepNone(mid, p, f);
    if forall i | 0 <= i < |mid| :: !p(mid[i]) {
      forall k | start <= k < hi ensures !p(xs[k]) {
        assert mid[k - start] == xs[k];
      }
    }
  }

  /** `c` is the record of an item of `xs` at a position in `[lo, hi)` that passes `p`. */
  ghost predicate MadeFrom<A, B>(xs: seq<A>, lo: nat, hi: int, p: A -> bool, f: A -> B, c: B) {
    exists k | lo <= k < hi && k < |xs| :: p(xs[k]) && c == f(xs[k])
  }

  /**
   * The records kept from a slice are exactly those of the qualifying items between
   * position `start` and the last `back` items, in order; `hi` is where the slice ends.
   */
  lemma KeepSlice<A, B>(xs: seq<A>, start: nat, back: nat, hi: int, p: A -> bool, f: A -> B)
    requires hi == |xs| - back
    ensures forall j | 0 <= j < |Keep(Slice(xs, start, back), p, f)| ::
              MadeFrom(xs, start, hi, p, f, Keep(Slice(xs, start, back), p, f)[j])
    ensures forall k | start <= k < hi && p(xs[k]) :: f(xs[k]) in Keep(Slice(xs, start, back), p, f)
    ensures |Keep(Slice(xs, start, back), p, f)| <= if |xs| >= start + back then |xs| - start - back else 0
  {
    var mid := Slice(xs, start, back);
    var kept := Keep(mid, p, f);
    KeepSound(mid, p, f);
    KeepComplete(mid, p, f);
    forall j | 0 <= j < |kept| ensures MadeFrom(xs, start, hi, p, f, kept[j]) {
      assert ComesFrom(mid, p, f, kept[j]);
      var i :| 0 <= i < |mid| && p(mid[i]) && f(mid[i]) == kept[j];
      assert mid[i] == xs[start + i];
    }
    forall k | start <= k < hi && p(xs[k]) ensures f(xs[k]) in kept {
      assert mid[k - start] == xs[k];
    }
  }
}
