/**
 * The generic ISI block: one section per authored row, under a toggle that adds and
 * removes the class `expanded`.
 */
module IsiBlock {
  import opened Wrappers
  import opened Scrape
  import opened Authored

  /** A section: an `h3` caption with the second column's HTML, or the only column's HTML. */
  datatype Section = Titled(caption: string, html: string) | Bare(html: string)

  /**
   * The section of a row as written: a row without columns has neither `cols[1]` nor
   * `cols[0]`, so reading `innerHTML` of the missing content throws, shown as `None`.
   */
  function SectionAsWritten(r: Row): Option<Section> {
    if |r| > 1 then Some(Titled(ColText(r, 0), r[1].html))
    else if |r| == 1 then Some(Bare(r[0].html))
    else None
  }

  /** The section of a row, a row without columns giving an empty section. */
  function SectionOf(r: Row): (s: Section)
    ensures |r| > 1 ==> s == Titled(ColText(r, 0), r[1].html)
    ensures |r| <= 1 ==> s == Bare(ColHtml(r, 0))
  {
    if |r| > 1 then Titled(ColText(r, 0), r[1].html) else Bare(ColHtml(r, 0))
  }

  /** `decorate`'s row loop as written: it stops at the first row without columns. */
  function SectionsAsWritten(rows: seq<Row>): Option<seq<Section>> {
    if rows == [] then Some([])
    else
      var ss := SectionsAsWritten(rows[..|rows| - 1]);
      var s := SectionAsWritten(rows[|rows| - 1]);
      if ss.Some? && s.Some? then Some(ss.value + [s.value]) else None
  }

  /** As written, a block with an empty row throws, where one empty section is evidently meant. */
  lemma EmptyRowThrows()
    ensures SectionsAsWritten([[]]) == None
    ensures MapTo([[]], SectionOf) == [Bare("")]
  {
    var rows: seq<Row> := [[]];
    assert rows[..0] == [];
  }

  /** Wherever the code as written gets through, it builds the sections `SectionOf` builds. */
  lemma AsWrittenAgrees(rows: seq<Row>)
    ensures SectionsAsWritten(rows).Some? <==> forall k | 0 <= k < |rows| :: |rows[k]| > 0
    ensures SectionsAsWritten(rows).Some? ==> SectionsAsWritten(rows).value == MapTo(rows, SectionOf)
  {
    AsWrittenThrough(rows);
    AsWrittenSections(rows);
  }

  /** The code as written gets through exactly the blocks whose every row has a column. */
  lemma {:induction false} AsWrittenThrough(rows: seq<Row>)
    ensures SectionsAsWritten(rows).Some? <==> forall k | 0 <= k < |rows| :: |rows[k]| > 0
  {
    if rows != [] {
      var init := rows[..|rows| - 1];
      AsWrittenThrough(init);
      assert forall k | 0 <= k < |init| :: init[k] == rows[k];
    }
  }

  lemma {:induction false} AsWrittenSections(rows: seq<Row>)
    ensures SectionsAsWritten(rows).Some? ==> SectionsAsWritten(rows).value == MapTo(rows, SectionOf)
  {
    if rows != [] {
      var init, last := rows[..|rows| - 1], rows[|rows| - 1];
      AsWrittenSections(init);
      if SectionsAsWritten(init).Some? && |last| > 0 {
        assert SectionAsWritten(last) == Some(SectionOf(last));
        MapToSnoc(rows, SectionOf);
      }
    }
  }

  /**
   * Whether the block has the class `expanded`, and the toggle's `aria-expanded`. The
   * class is the authored block's own: `decorate` neither sets nor removes it.
   */
  class IsiToggle {
    var expanded: bool
    var ariaExpanded: bool

    /** `authored`: the block was authored with the `expanded` variant class. The button starts at `aria-expanded="false"`. */
    constructor (authored: bool)
      ensures expanded == authored && !ariaExpanded
    {
      expanded := authored;
      ariaExpanded := false;
    }

    /** The click handler: toggle `expanded`, and mirror it in `aria-expanded`. */
    method Click()
      modifies this
      ensures expanded == !old(expanded) && ariaExpanded == expanded
    {
      expanded := !expanded;
      ariaExpanded := expanded;
    }
  }

  /**
   * `decorate`: one section per row, in order, and the toggle, with the block's class
   * as authored and `aria-expanded="false"`.
   */
  method Decorate(rows: seq<Row>, authored: bool) returns (sections: seq<Section>, toggle: IsiToggle)
    ensures sections == MapTo(rows, SectionOf)
    ensures fresh(toggle) && toggle.expanded == authored && !toggle.ariaExpanded
  {
    sections := Each(rows, SectionOf);
    toggle := new IsiToggle(authored);
  }

  /**
   * A block authored with the `expanded` class is collapsed by the first click, and its
   * button then still says `aria-expanded="false"`.
   */
  method FirstClickOnExpanded() returns (expanded: bool, ariaExpanded: bool)
    ensures !expanded && !ariaExpanded
  {
    var t := new IsiToggle(true);
    t.Click();
    expanded, ariaExpanded := t.expanded, t.ariaExpanded;
  }
}
