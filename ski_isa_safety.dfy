/**
 * The safety block of the ISA page: row 0 gives the header title, every later row with
 * columns one section, and a toggle button collapses and expands the block.
 */
module SkiIsaSafety {
  import opened Wrappers
  import opened Scrape
  import opened Authored

  /** A section: an `h3` caption with the second column's HTML, or a one-column row's HTML. */
  datatype Section = Titled(caption: string, html: string) | Bare(html: string)

  datatype SafetyView = SafetyView(title: Option<string>, sections: seq<Section>)

  predicate HasColumns(r: Row) {
    |r| >= 1
  }

  function SectionOf(r: Row): Section {
    if |r| >= 2 then Titled(ColText(r, 0), ColHtml(r, 1)) else Bare(ColHtml(r, 0))
  }

  /** One pass of the `forEach` body. */
  function Step(v: SafetyView, index: nat, r: Row): SafetyView {
    if index == 0 then (if |r| > 0 then v.(title := Some(r[0].html)) else v)
    else if HasColumns(r) then v.(sections := v.sections + [SectionOf(r)])
    else v
  }

  /** The loop's result after `rows`, one step per row. */
  function Routed(rows: seq<Row>): SafetyView {
    if rows == [] then SafetyView(None, [])
    else Step(Routed(rows[..|rows| - 1]), |rows| - 1, rows[|rows| - 1])
  }

  /** The sections read off the rows: one per later row with columns, in order. */
  function Sections(rows: seq<Row>): seq<Section> {
    Keep(Slice(rows, 1, 0), HasColumns, SectionOf)
  }

  /** Row 0 gives only the title, and every later row with columns exactly one section, in order. */
  lemma {:induction false} RoutedRows(rows: seq<Row>)
    ensures Routed(rows).title == (if |rows| > 0 && |rows[0]| > 0 then Some(rows[0][0].html) else None)
    ensures Routed(rows).sections == Sections(rows)
  {
    if rows != [] {
      var init := rows[..|rows| - 1];
      RoutedRows(init);
      if |rows| > 1 {
        assert init[0] == rows[0];
        var tail := Slice(rows, 1, 0);
        assert tail[..|tail| - 1] == Slice(init, 1, 0);
        assert tail[|tail| - 1] == rows[|rows| - 1];
      }
    }
  }

  /** With every later row non-empty, section `i` is made from row `i + 1`. */
  lemma SectionPerRow(rows: seq<Row>)
    requires forall k | 1 <= k < |rows| :: |rows[k]| >= 1
    ensures |Routed(rows).sections| == if |rows| > 0 then |rows| - 1 else 0
    ensures forall i | 0 <= i < |Routed(rows).sections| :: Routed(rows).sections[i] == SectionOf(rows[i + 1])
  {
    RoutedRows(rows);
    var tail := Slice(rows, 1, 0);
    forall i | 0 <= i < |tail| ensures HasColumns(tail[i]) {
      assert tail[i] == rows[i + 1];
    }
    KeepEvery(tail, HasColumns, SectionOf);
  }

  // ---------------------------------------------------------------------------
  // The toggle

  /**
   * Whether the block has the class `collapsed`, the toggle's `aria-expanded`, and the
   * icon text (`+` or the ASCII `-`).
   */
  class SafetyToggle {
    var collapsed: bool
    var ariaExpanded: bool
    var icon: string

    /** What the click handler leaves behind: `aria-expanded` is the negation of `collapsed`, the icon `+` exactly when collapsed. */
    ghost predicate Consistent()
      reads this
    {
      ariaExpanded == !collapsed && icon == (if collapsed then "+" else "-")
    }

    /**
     * The toggle as `decorate` writes it, `authored` being whether the block was authored
     * with the `collapsed` variant class, which `decorate` leaves as it is: always
     * `aria-expanded="true"` and `+`, so never consistent.
     */
    constructor AsWritten(authored: bool)
      ensures collapsed == authored && ariaExpanded && icon == "+"
      ensures !Consistent()
    {
      collapsed := authored;
      ariaExpanded := true;
      icon := "+";
    }

    /** The toggle built from the authored class the way the click handler sets it: consistent from the start. */
    constructor (authored: bool)
      ensures collapsed == authored && ariaExpanded == !authored && icon == (if authored then "+" else "-")
      ensures Consistent()
    {
      collapsed := authored;
      ariaExpanded := !authored;
      icon := if authored then "+" else "-";
    }

    /** The click handler: toggle `collapsed`, then set `aria-expanded` and the icon from the new state. */
    method Click()
      modifies this
      ensures collapsed == !old(collapsed)
      ensures Consistent()
    {
      collapsed := !collapsed;
      ariaExpanded := !collapsed;
      icon := if collapsed then "+" else "-";
    }
  }

  /**
   * As written, a block authored without `collapsed` shows `+` when built and `-` after two clicks bring
   * it back to the expanded state: the same state shows two different icons.
   */
  method InitialIconAsWritten() returns (first: string, later: string, firstExpanded: bool, laterExpanded: bool)
    ensures firstExpanded && laterExpanded && first == "+" && later == "-"
  {
    var t := new SafetyToggle.AsWritten(false);
    first, firstExpanded := t.icon, t.ariaExpanded;
    t.Click();
    t.Click();
    later, laterExpanded := t.icon, t.ariaExpanded;
  }

  /** `decorate`: the header title, the sections, and the toggle, built consistent with the block's authored class. */
  method Decorate(rows: seq<Row>, authored: bool) returns (view: SafetyView, toggle: SafetyToggle)
    ensures view == Routed(rows)
    ensures fresh(toggle) && toggle.Consistent() && toggle.collapsed == authored
  {
    view := SafetyView(None, []);
    var index := 0;
    while index < |rows|
      invariant 0 <= index <= |rows|
      invariant view == Routed(rows[..index])
    {
      assert rows[..index + 1][..index] == rows[..index];
      var r := rows[index];
      if index == 0 && |r| > 0 {
        view := view.(title := Some(r[0].html));
      }
      if index >= 1 && |r| >= 1 {
        view := view.(sections := view.sections + [SectionOf(r)]);
      }
      index := index + 1;
    }
    assert rows[..index] == rows;
    toggle := new SafetyToggle(authored);
  }
}
