/**
 * The coverage block of the ISI pages: a title row, a row of tab captions, statistic
 * rows shown as circular charts, and a footnote row.
 */
module SkiIsiCoverage {
  import opened Wrappers
  import opened Text
  import opened Scrape
  import opened Authored
  import opened TabState

  /** A statistic card: its label, the number shown, whether the `%` marker follows it, and its description. */
  datatype StatCard = StatCard(caption: string, percent: nat, hasPercent: bool, description: string)

  datatype CoverageView = CoverageView(title: Option<string>, tabs: Option<seq<string>>, cards: seq<StatCard>,
                                       footnote: Option<string>)

  /** `row.querySelector('div')?.innerHTML || row.textContent.trim()`. */
  function TitleOf(r: RowNodes): string {
    OrElse(ColHtml(Columns(r), 0), Trim(TextContent(r)))
  }

  /** `lastRow.querySelector('div')?.innerHTML || lastRow.textContent`, untrimmed. */
  function FootnoteOf(r: RowNodes): string {
    OrElse(ColHtml(Columns(r), 0), TextContent(r))
  }

  function ColumnCaption(c: Column): string {
    Trim(c.text)
  }

  predicate HasThreeColumns(r: RowNodes) {
    |Columns(r)| >= 3
  }

  /** The card of a statistic row: the value text's first number and whether it holds a `%`. */
  function CardOf(r: RowNodes): StatCard {
    var cols := Columns(r);
    StatCard(ColText(cols, 0), FirstNumber(ColText(cols, 1)), Contains(ColText(cols, 1), "%"), ColHtml(cols, 2))
  }

  /** `rows.slice(2, -1)`: every row but the first two and the last. */
  function StatRows(rows: seq<RowNodes>): seq<RowNodes> {
    Slice(rows, 2, 1)
  }

  /** `decorate`, as the view it builds. */
  function CoverageOf(rows: seq<RowNodes>): CoverageView {
    CoverageView(
      if |rows| > 0 then Some(TitleOf(rows[0])) else None,
      if |rows| > 1 then Some(MapTo(Columns(rows[1]), ColumnCaption)) else None,
      Keep(StatRows(rows), HasThreeColumns, CardOf),
      if |rows| > 3 then Some(FootnoteOf(rows[|rows| - 1])) else None)
  }

  /** `decorate`: the view, and the tab buttons with the first one active. */
  method Decorate(rows: seq<RowNodes>) returns (view: CoverageView, tabs: ChoiceBar)
    ensures view == CoverageOf(rows)
    ensures fresh(tabs) && tabs.Count() == (if |rows| > 1 then |Columns(rows[1])| else 0) && tabs.OnlyActive(0)
  {
    view := CoverageView(None, None, [], None);
    if |rows| > 0 {
      view := view.(title := Some(TitleOf(rows[0])));
    }
    var n := 0;
    if |rows| > 1 {
      var cols := Columns(rows[1]);
      var captions := Each(cols, ColumnCaption);
      view := view.(tabs := Some(captions));
      n := |cols|;
    }
    tabs := new ChoiceBar(n, 0);
    var cards := Collect(StatRows(rows), HasThreeColumns, CardOf);
    view := view.(cards := cards);
    if |rows| > 3 {
      var last := rows[|rows| - 1];
      view := view.(footnote := Some(FootnoteOf(last)));
    }
  }

  /**
   * Every card comes from a row after the first two and before the last that has at
   * least three columns, and every such row gives its card; the footnote exists
   * exactly when there are more than three rows.
   */
  lemma CardsFromMiddleRows(rows: seq<RowNodes>)
    ensures forall j | 0 <= j < |CoverageOf(rows).cards| ::
              MadeFrom(rows, 2, |rows| - 1, HasThreeColumns, CardOf, CoverageOf(rows).cards[j])
    ensures forall k | 2 <= k < |rows| - 1 && HasThreeColumns(rows[k]) :: CardOf(rows[k]) in CoverageOf(rows).cards
    ensures CoverageOf(rows).footnote.Some? <==> |rows| > 3
    ensures |CoverageOf(rows).cards| <= if |rows| >= 3 then |rows| - 3 else 0
  {
    KeepSlice(rows, 2, 1, |rows| - 1, HasThreeColumns, CardOf);
  }

  /**
   * A title row whose first column holds no HTML gives the trimmed text of the whole
   * row, the text between its columns included.
   */
  lemma TitleSpansColumns(c0: Column, gap: string, c1: Column)
    requires c0.html == ""
    ensures TitleOf([ColumnDiv(c0), TextNode(gap), ColumnDiv(c1)]) == Trim(c0.text + gap + c1.text)
  {
    var r := [ColumnDiv(c0), TextNode(gap), ColumnDiv(c1)];
    ChildInPlace([ColumnDiv(c0)], TextNode(gap), [ColumnDiv(c1)]);
    ChildInPlace([], ColumnDiv(c0), []);
    ChildInPlace([], ColumnDiv(c1), []);
    assert [ColumnDiv(c0)] + [TextNode(gap)] + [ColumnDiv(c1)] == r;
    assert [] + [ColumnDiv(c0)] + [] == [ColumnDiv(c0)];
    assert [] + [ColumnDiv(c1)] + [] == [ColumnDiv(c1)];
    assert Columns(r) == [c0, c1];
    assert TextContent(r) == c0.text + gap + c1.text;
  }

  /** A row without column <div>s gives its whole text content: trimmed as a title, as it is as a footnote. */
  lemma BareRowText(r: RowNodes)
    requires forall i | 0 <= i < |r| :: r[i].TextNode?
    ensures Columns(r) == []
    ensures TitleOf(r) == Trim(TextContent(r)) && FootnoteOf(r) == TextContent(r)
  {
    KeepNone(r, IsColumnDiv, ColumnOf);
  }

  /** A value written as a number, optionally after a digit-free label and before a `%`, shows that number. */
  lemma ShownNumber(prefix: string, n: nat)
    requires forall i | 0 <= i < |prefix| :: !IsDigit(prefix[i])
    ensures FirstNumber(prefix + NatToString(n) + "%") == n
    ensures FirstNumber(prefix + NatToString(n)) == n
    ensures Contains(prefix + NatToString(n) + "%", "%")
  {
    FirstNumberOf(prefix, n, "%");
    FirstNumberOf(prefix, n, "");
    assert prefix + NatToString(n) + "" == prefix + NatToString(n);
    ContainsInfix(prefix + NatToString(n), "%", "");
    assert prefix + NatToString(n) + "%" + "" == prefix + NatToString(n) + "%";
  }
}
