/**
 * The top bar of the two branded hero blocks: the "tap here" lines authored in the rows
 * after the first, each with a toggle caption, a text and an optional link, and the
 * fixed lines shown when none was authored.
 */
module HeroLines {
  import opened Wrappers
  import opened Text
  import opened Scrape
  import opened Authored

  /** An ISI line as pushed: the toggle caption, the text, and the link's text and `href`. */
  datatype IsiLine = IsiLine(toggle: string, text: string, linkText: string, linkHref: string)

  /** A top-bar line as shown: the toggle's `aria-label` and caption, the text, and the anchor if any. */
  datatype TopBarLine = TopBarLine(ariaLabel: string, toggle: string, text: string, anchor: Option<Link>)

  /** A row after the first makes a line when it has two columns and its first mentions `tap` in any case. */
  predicate IsLineRow(r: Row) {
    |r| >= 2 && Contains(Lower(ColText(r, 0)), "tap")
  }

  /** The line of a row: its content text without the first occurrence of its link's text, trimmed. */
  function LineOf(r: Row): IsiLine {
    var content := if |r| >= 2 then r[1].text else "";
    var link := if |r| >= 2 then r[1].link else None;
    var linkText := if link.Some? then link.value.text else "";
    IsiLine(ColText(r, 0), Trim(RemoveFirst(content, linkText)), linkText, if link.Some? then link.value.href else "")
  }

  /** The lines pushed by the `forEach` over the rows with `index >= 1`. */
  function Lines(rows: seq<Row>): seq<IsiLine> {
    Keep(Slice(rows, 1, 0), IsLineRow, LineOf)
  }

  /** A line as the top bar shows it: the anchor appears only when the link has an `href`. */
  function ShownLine(l: IsiLine): (t: TopBarLine)
    ensures t.toggle == l.toggle && t.text == l.text
    ensures t.anchor.Some? <==> l.linkHref != ""
    ensures t.anchor.Some? ==> t.anchor.value == Link(l.linkHref, l.linkText)
  {
    TopBarLine("Toggle ISI", l.toggle, l.text, if l.linkHref != "" then Some(Link(l.linkHref, l.linkText)) else None)
  }

  /** The top bar: the authored lines, or the block's default lines when there are none. */
  function TopBar(rows: seq<Row>, defaults: seq<TopBarLine>): seq<TopBarLine> {
    if |Lines(rows)| > 0 then MapTo(Lines(rows), ShownLine) else defaults
  }

  /** The top-bar loop of `decorate`: the ISI lines, then the bar built from them or the defaults. */
  method BuildTopBar(rows: seq<Row>, defaults: seq<TopBarLine>) returns (bar: seq<TopBarLine>)
    ensures bar == TopBar(rows, defaults)
  {
    var lines := Collect(Slice(rows, 1, 0), IsLineRow, LineOf);
    if |lines| > 0 {
      bar := Each(lines, ShownLine);
    } else {
      bar := defaults;
    }
  }

  /**
   * Every line comes from a row after the first with two columns whose first column
   * mentions `tap`, and every such row gives its line.
   */
  lemma LinesFromTapRows(rows: seq<Row>)
    ensures forall j | 0 <= j < |Lines(rows)| :: MadeFrom(rows, 1, |rows|, IsLineRow, LineOf, Lines(rows)[j])
    ensures forall k | 1 <= k < |rows| && IsLineRow(rows[k]) :: LineOf(rows[k]) in Lines(rows)
  {
    KeepSlice(rows, 1, 0, |rows|, IsLineRow, LineOf);
  }

  /** There are no ISI lines exactly when no row after the first is a line row. */
  lemma NoLines(rows: seq<Row>)
    ensures Lines(rows) == [] <==> forall k | 1 <= k < |rows| :: !IsLineRow(rows[k])
  {
    KeepSliceNone(rows, 1, 0, |rows|, IsLineRow, LineOf);
  }

  /**
   * The defaults are shown exactly when no row after the first is a line row; otherwise
   * the bar shows one line per ISI line, in order.
   */
  lemma TopBarShape(rows: seq<Row>, defaults: seq<TopBarLine>)
    ensures (forall k | 1 <= k < |rows| :: !IsLineRow(rows[k])) ==> TopBar(rows, defaults) == defaults
    ensures (exists k | 1 <= k < |rows| :: IsLineRow(rows[k])) ==>
              Lines(rows) != [] && TopBar(rows, defaults) == MapTo(Lines(rows), ShownLine)
  {
    NoLines(rows);
  }

  /**
   * A line whose content is `a`, its link's text and `b`, where the link text's first
   * character does not occur in `a`, shows `a` and `b` trimmed, and keeps the link.
   */
  lemma LineDropsLinkText(r: Row, a: string, l: Link, b: string)
    requires |r| >= 2 && r[1].link == Some(l) && r[1].text == a + l.text + b
    requires l.text != [] && l.text[0] !in a
    ensures LineOf(r).text == Trim(a + b)
    ensures LineOf(r).linkText == l.text && LineOf(r).linkHref == l.href
  {
    RemoveFirstInfix(a, l.text, b);
  }
}
