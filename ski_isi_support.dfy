/**
 * The support block of the ISI pages: a title row, program cards from the middle rows,
 * a call-to-action from the second-to-last row and a footnote from the last row.
 */
module SkiIsiSupport {
  import opened Wrappers
  import opened Text
  import opened Scrape
  import opened Authored

  /** A card icon: one of the three known drawings, or the key shown as text. */
  datatype Icon = Drawing(key: string) | IconText(key: string)

  datatype SupportCard = SupportCard(icon: Icon, content: string)

  /** The block as built: the header title, the cards grid, the CTA anchor and the footnote, in that order. */
  datatype SupportView = SupportView(title: Option<string>, cards: seq<SupportCard>, cta: Option<Link>,
                                     footnote: Option<string>)

  /** The keys of the icon map. */
  const ICON_KEYS := ["$5", "support", "bridge"]

  /** `iconMap[iconKey] || <span class="icon-text">…`, over the map's own keys. */
  function IconOf(key: string): (icon: Icon)
    ensures icon.key == key
    ensures icon.Drawing? <==> key in ICON_KEYS
  {
    if key in ICON_KEYS then Drawing(key) else IconText(key)
  }

  predicate HasTwoColumns(r: Row) {
    |r| >= 2
  }

  function CardOf(r: Row): SupportCard {
    SupportCard(IconOf(ColText(r, 0)), ColHtml(r, 1))
  }

  /** `rows.slice(1, -2)`: every row but the first and the last two. */
  function CardRows(rows: seq<Row>): seq<Row> {
    Slice(rows, 1, 2)
  }

  /** `row.querySelector('a')` finds something. */
  predicate HasAnchor(r: Row) {
    exists i :: 0 <= i < |r| && r[i].link.Some?
  }

  /** The CTA: the first anchor of the second-to-last row, when there is such a row and it holds one. */
  function CtaOf(rows: seq<Row>): Option<Link> {
    if |rows| >= 2 then RowLink(rows[|rows| - 2]) else None
  }

  /** The footnote: the last row's first column HTML, when that row holds no anchor. */
  function FootnoteOf(rows: seq<Row>): Option<string> {
    if |rows| >= 1 && RowLink(rows[|rows| - 1]).None? then Some(ColHtml(rows[|rows| - 1], 0)) else None
  }

  /** The cards grid: a card for every middle row with two columns. */
  function Cards(rows: seq<Row>): seq<SupportCard> {
    Keep(CardRows(rows), HasTwoColumns, CardOf)
  }

  /** `decorate`, as the view it builds. */
  function SupportOf(rows: seq<Row>): SupportView {
    SupportView(if |rows| > 0 then Some(ColText(rows[0], 0)) else None, Cards(rows), CtaOf(rows), FootnoteOf(rows))
  }

  method Decorate(rows: seq<Row>) returns (view: SupportView)
    ensures view == SupportOf(rows)
  {
    view := SupportView(None, [], None, None);
    if |rows| > 0 {
      view := view.(title := Some(ColText(rows[0], 0)));
    }
    var cards := Collect(CardRows(rows), HasTwoColumns, CardOf);
    view := view.(cards := cards);
    if |rows| >= 2 {
      var link := RowLink(rows[|rows| - 2]);
      if link.Some? {
        view := view.(cta := link);
      }
    }
    if |rows| >= 1 && RowLink(rows[|rows| - 1]).None? {
      view := view.(footnote := Some(ColHtml(rows[|rows| - 1], 0)));
    }
  }

  /**
   * Every card comes from a row after the first and before the last two that has at
   * least two columns, and every such row gives its card; at most `n - 3` cards.
   */
  lemma CardsFromMiddleRows(rows: seq<Row>)
    ensures SupportOf(rows).cards == Cards(rows)
    ensures forall j | 0 <= j < |Cards(rows)| :: MadeFrom(rows, 1, |rows| - 2, HasTwoColumns, CardOf, Cards(rows)[j])
    ensures forall k | 1 <= k < |rows| - 2 && HasTwoColumns(rows[k]) :: CardOf(rows[k]) in Cards(rows)
    ensures |Cards(rows)| <= if |rows| >= 3 then |rows| - 3 else 0
  {
    KeepSlice(rows, 1, 2, |rows| - 2, HasTwoColumns, CardOf);
  }

  /**
   * The title comes from row 0; the CTA exists exactly when the second-to-last row holds
   * an anchor, and is then that row's first anchor; the footnote exists exactly when
   * the last row holds none.
   */
  lemma EndRows(rows: seq<Row>)
    ensures SupportOf(rows).title.Some? <==> |rows| > 0
    ensures |rows| > 0 ==> SupportOf(rows).title.value == ColText(rows[0], 0)
    ensures SupportOf(rows).cta.Some? <==> (|rows| >= 2 && HasAnchor(rows[|rows| - 2]))
    ensures |rows| >= 2 ==> SupportOf(rows).cta == RowLink(rows[|rows| - 2])
    ensures SupportOf(rows).footnote.Some? <==> (|rows| >= 1 && !HasAnchor(rows[|rows| - 1]))
    ensures SupportOf(rows).footnote.Some? ==> SupportOf(rows).footnote.value == ColHtml(rows[|rows| - 1], 0)
  {
  }
}
