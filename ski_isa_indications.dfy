/**
 * The indications block of the ISA page: row 0 gives the title; every later row is
 * either an indication or, when it points to the prescribing information, the PI
 * section, of which the last such row wins.
 */
module SkiIsaIndications {
  import opened Wrappers
  import opened Text
  import opened Scrape
  import opened Authored

  /** A listed indication: a condition with its description, or a one-column row's HTML as it is. */
  datatype Item = Condition(name: string, description: string) | Plain(html: string)

  /** What the row loop fills in; `pi` is the PI section's inner HTML, `""` while no PI row was seen. */
  datatype IndicationsView = IndicationsView(title: Option<string>, items: seq<Item>, pi: string)

  /** A two-column row is a PI row when its condition mentions `please see` or `prescribing`. */
  predicate IsPiPair(r: Row) {
    Contains(Lower(ColText(r, 0)), "please see") || Contains(Lower(ColText(r, 0)), "prescribing")
  }

  /** A one-column row is a PI row when its HTML mentions `prescribing information` or `please see`. */
  predicate IsPiSingle(r: Row) {
    Contains(Lower(ColHtml(r, 0)), "prescribing information") || Contains(Lower(ColHtml(r, 0)), "please see")
  }

  predicate IsPiRow(r: Row) {
    (|r| >= 2 && IsPiPair(r)) || (|r| == 1 && IsPiSingle(r))
  }

  /** The PI section's HTML as a PI row sets it. */
  function PiOf(r: Row): string {
    if |r| >= 2 then "<p>" + ColHtml(r, 0) + " " + ColHtml(r, 1) + "</p>" else ColHtml(r, 0)
  }

  /** A later row that has columns and is not a PI row makes an item. */
  predicate IsItemRow(r: Row) {
    |r| >= 1 && !IsPiRow(r)
  }

  function ItemOf(r: Row): Item {
    if |r| >= 2 then Condition(ColText(r, 0), ColHtml(r, 1)) else Plain(ColHtml(r, 0))
  }

  /** One pass of the `forEach` body. */
  function Step(v: IndicationsView, index: nat, r: Row): IndicationsView {
    if index == 0 then (if |r| > 0 then v.(title := Some(ColHtml(r, 0))) else v)
    else if IsPiRow(r) then v.(pi := PiOf(r))
    else if IsItemRow(r) then v.(items := v.items + [ItemOf(r)])
    else v
  }

  /** The loop's result after `rows`, one step per row. */
  function Routed(rows: seq<Row>): IndicationsView {
    if rows == [] then IndicationsView(None, [], "")
    else Step(Routed(rows[..|rows| - 1]), |rows| - 1, rows[|rows| - 1])
  }

  /** The `forEach` body on row `index`. */
  method Route(v: IndicationsView, index: nat, r: Row) returns (w: IndicationsView)
    ensures w == Step(v, index, r)
  {
    w := v;
    if index == 0 && |r| > 0 {
      w := w.(title := Some(ColHtml(r, 0)));
    }
    if index >= 1 && |r| >= 2 {
      if IsPiPair(r) {
        w := w.(pi := PiOf(r));
      } else {
        w := w.(items := w.items + [ItemOf(r)]);
      }
    } else if index >= 1 && |r| == 1 {
      if IsPiSingle(r) {
        w := w.(pi := PiOf(r));
      } else {
        w := w.(items := w.items + [ItemOf(r)]);
      }
    }
  }

  method Decorate(rows: seq<Row>) returns (view: IndicationsView, showPi: bool)
    ensures view == Routed(rows)
    ensures showPi <==> view.pi != ""
  {
    view := IndicationsView(None, [], "");
    var index := 0;
    while index < |rows|
      invariant 0 <= index <= |rows|
      invariant view == Routed(rows[..index])
    {
      assert rows[..index + 1][..index] == rows[..index];
      view := Route(view, index, rows[index]);
      index := index + 1;
    }
    assert rows[..index] == rows;
    showPi := view.pi != "";
  }

  // ---------------------------------------------------------------------------
  // What the loop computes, read off the rows

  /** The items: every later row that has columns and is not a PI row, in order. */
  function Items(rows: seq<Row>): seq<Item> {
    Keep(Slice(rows, 1, 0), IsItemRow, ItemOf)
  }

  /** The position of the last item of `xs` at or after `start` that passes `p`, if any. */
  function LastFrom<T>(xs: seq<T>, start: nat, p: T -> bool): (k: Option<nat>)
    ensures k.Some? ==> start <= k.value < |xs| && p(xs[k.value])
    ensures k.Some? ==> forall j | k.value < j < |xs| :: !p(xs[j])
    ensures k.None? ==> forall j | start <= j < |xs| :: !p(xs[j])
  {
    if |xs| <= start then None
    else if p(xs[|xs| - 1]) then Some(|xs| - 1)
    else
      var k := LastFrom(xs[..|xs| - 1], start, p);
      assert forall j | 0 <= j < |xs| - 1 :: xs[..|xs| - 1][j] == xs[j];
      k
  }

  /** The position of the last PI row after row 0, if any. */
  function LastPi(rows: seq<Row>): Option<nat> {
    LastFrom(rows, 1, IsPiRow)
  }

  /**
   * Row 0 gives only the title; every later row is either an item or sets the PI
   * section, and the PI section holds the last PI row's HTML.
   */
  lemma RoutedRows(rows: seq<Row>)
    ensures Routed(rows).title == (if |rows| > 0 && |rows[0]| > 0 then Some(ColHtml(rows[0], 0)) else None)
    ensures Routed(rows).items == Items(rows)
    ensures Routed(rows).pi == (if LastPi(rows).Some? then PiOf(rows[LastPi(rows).value]) else "")
  {
    RoutedTitle(rows);
    RoutedItems(rows);
    RoutedPi(rows);
  }

  lemma {:induction false} RoutedTitle(rows: seq<Row>)
    ensures Routed(rows).title == (if |rows| > 0 && |rows[0]| > 0 then Some(ColHtml(rows[0], 0)) else None)
  {
    if rows != [] {
      var init := rows[..|rows| - 1];
      RoutedTitle(init);
      if |rows| > 1 {
        assert init[0] == rows[0];
      }
    }
  }

  lemma {:induction false} RoutedItems(rows: seq<Row>)
    ensures Routed(rows).items == Items(rows)
  {
    if rows != [] {
      var init := rows[..|rows| - 1];
      RoutedItems(init);
      StepItems(Routed(init), |rows| - 1, rows[|rows| - 1]);
      if |rows| > 1 {
        KeepTailSnoc(rows, IsItemRow, ItemOf);
      }
    }
  }

  /** A step after row 0 replaces the PI section exactly when the row is a PI row. */
  lemma StepPi(v: IndicationsView, index: nat, r: Row)
    ensures Step(v, index, r).pi == if index > 0 && IsPiRow(r) then PiOf(r) else v.pi
  {
  }

  /** A step after row 0 appends the row's item exactly when it is an item row. */
  lemma StepItems(v: IndicationsView, index: nat, r: Row)
    ensures Step(v, index, r).items == if index > 0 && IsItemRow(r) then v.items + [ItemOf(r)] else v.items
  {
  }

  lemma {:induction false} RoutedPi(rows: seq<Row>)
    ensures Routed(rows).pi == (if LastPi(rows).Some? then PiOf(rows[LastPi(rows).value]) else "")
  {
    if rows != [] {
      var init := rows[..|rows| - 1];
      RoutedPi(init);
      StepPi(Routed(init), |rows| - 1, rows[|rows| - 1]);
      assert forall j | 0 <= j < |init| :: init[j] == rows[j];
    }
  }

  /** A PI row's section is never empty, so the section is shown exactly when some later row is a PI row. */
  lemma PiShown(rows: seq<Row>)
    ensures Routed(rows).pi != "" <==> exists j :: 1 <= j < |rows| && IsPiRow(rows[j])
  {
    RoutedRows(rows);
    var k := LastPi(rows);
    if k.Some? {
      var r := rows[k.value];
      if |r| == 1 {
        assert Contains(Lower(ColHtml(r, 0)), "prescribing information") || Contains(Lower(ColHtml(r, 0)), "please see");
      }
    }
  }

  /** Every item comes from a later row with columns that is not a PI row, and every such row gives its item. */
  lemma ItemsFromLaterRows(rows: seq<Row>)
    ensures forall j | 0 <= j < |Items(rows)| :: MadeFrom(rows, 1, |rows|, IsItemRow, ItemOf, Items(rows)[j])
    ensures forall k | 1 <= k < |rows| && IsItemRow(rows[k]) :: ItemOf(rows[k]) in Items(rows)
    ensures |Items(rows)| <= if |rows| > 0 then |rows| - 1 else 0
  {
    KeepSlice(rows, 1, 0, |rows|, IsItemRow, ItemOf);
  }
}
