/**
 * The indications block of the ISI pages: a title from row 0, one item per middle row
 * that names a condition and describes it, and a prescribing-information link from the
 * last row.
 */
module SkiIsiIndications {
  import opened Wrappers
  import opened Text
  import opened Scrape
  import opened Authored

  datatype Item = Item(condition: string, description: string)

  /** The container's children in order: the title, the list, and the PI link. */
  datatype IndicationsView = IndicationsView(title: Option<string>, items: seq<Item>, piLink: Option<string>)

  /** A middle row makes an item when it has two columns, a condition and a description. */
  predicate IsItemRow(r: Row) {
    |r| >= 2 && ColText(r, 0) != "" && ColHtml(r, 1) != ""
  }

  function ItemOf(r: Row): Item {
    Item(ColText(r, 0), ColHtml(r, 1))
  }

  /** The list: `rows.slice(1, -1)` filtered by `IsItemRow`. */
  function Items(rows: seq<Row>): seq<Item> {
    Keep(Slice(rows, 1, 1), IsItemRow, ItemOf)
  }

  /** `decorate`, as the view it builds. */
  function IndicationsOf(rows: seq<Row>): IndicationsView {
    IndicationsView(if |rows| > 0 then Some(OrElse(ColText(rows[0], 0), "INDICATIONS")) else None,
                    Items(rows),
                    if |rows| > 0 then Some(ColHtml(rows[|rows| - 1], 0)) else None)
  }

  method Decorate(rows: seq<Row>) returns (view: IndicationsView)
    ensures view == IndicationsOf(rows)
  {
    view := IndicationsView(None, [], None);
    if |rows| > 0 {
      view := view.(title := Some(OrElse(ColText(rows[0], 0), "INDICATIONS")));
    }
    var items := Collect(Slice(rows, 1, 1), IsItemRow, ItemOf);
    view := view.(items := items);
    if |rows| > 0 {
      view := view.(piLink := Some(ColHtml(rows[|rows| - 1], 0)));
    }
  }

  /**
   * Every item comes from a row strictly between the first and the last that has two
   * columns, a condition and a description, and every such row gives its item; no item
   * is blank.
   */
  lemma ItemsFromMiddleRows(rows: seq<Row>)
    ensures IndicationsOf(rows).items == Items(rows)
    ensures forall j | 0 <= j < |Items(rows)| :: MadeFrom(rows, 1, |rows| - 1, IsItemRow, ItemOf, Items(rows)[j])
    ensures forall k | 1 <= k < |rows| - 1 && IsItemRow(rows[k]) :: ItemOf(rows[k]) in Items(rows)
    ensures forall j | 0 <= j < |Items(rows)| :: Items(rows)[j].condition != "" && Items(rows)[j].description != ""
  {
    KeepSlice(rows, 1, 1, |rows| - 1, IsItemRow, ItemOf);
    var items := Items(rows);
    forall j | 0 <= j < |items| ensures items[j].condition != "" && items[j].description != "" {
      assert MadeFrom(rows, 1, |rows| - 1, IsItemRow, ItemOf, items[j]);
    }
  }

  /**
   * The title is never empty, defaulting to `INDICATIONS`; the PI link is built from the
   * last row whenever there is one, even when that row is also the title row.
   */
  lemma TitleAndLink(rows: seq<Row>)
    ensures IndicationsOf(rows).title.Some? <==> |rows| > 0
    ensures |rows| > 0 ==> IndicationsOf(rows).title.value != ""
    ensures |rows| > 0 && ColText(rows[0], 0) == "" ==> IndicationsOf(rows).title == Some("INDICATIONS")
    ensures IndicationsOf(rows).piLink.Some? <==> |rows| > 0
    ensures |rows| == 1 ==> IndicationsOf(rows).piLink == Some(ColHtml(rows[0], 0)) && IndicationsOf(rows).items == []
  {
  }
}
