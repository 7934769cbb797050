/**
 * The tabs block of the ISI pages: a button and a panel per authored row; each button's
 * own click handler makes its tab the only active one.
 */
module SkiIsiTabs {
  import opened Text
  import opened Scrape
  import opened Authored
  import opened TabState

  /** `cols[1]?.innerHTML || cols[0]?.innerHTML || ''`. */
  function PanelHtml(r: Row): (h: string)
    ensures ColHtml(r, 1) != "" ==> h == ColHtml(r, 1)
    ensures ColHtml(r, 1) == "" ==> h == ColHtml(r, 0)
  {
    OrElse(ColHtml(r, 1), ColHtml(r, 0))
  }

  function Panels(rows: seq<Row>): (r: seq<TabPanel>)
    ensures |r| == |rows|
    ensures forall i | 0 <= i < |rows| :: r[i] == TabPanel(PanelHtml(rows[i]), i)
  {
    seq(|rows|, i requires 0 <= i < |rows| => TabPanel(PanelHtml(rows[i]), i))
  }

  /** `decorate`: the buttons and panels, row by row, and the strip with the first tab active. */
  method Decorate(rows: seq<Row>) returns (buttons: seq<TabButton>, panels: seq<TabPanel>, strip: TabStrip)
    ensures buttons == TabButtons(rows) && panels == Panels(rows)
    ensures fresh(strip) && strip.Valid() && strip.Count() == |rows| && strip.OnlyActive(0)
  {
    buttons := [];
    panels := [];
    var index := 0;
    while index < |rows|
      invariant 0 <= index <= |rows|
      invariant buttons == TabButtons(rows)[..index] && panels == Panels(rows)[..index]
    {
      TakeSnoc(TabButtons(rows), index);
      TakeSnoc(Panels(rows), index);
      buttons := buttons + [TabButton(TabLabel(rows[index], index), index)];
      panels := panels + [TabPanel(PanelHtml(rows[index]), index)];
      index := index + 1;
    }
    assert TabButtons(rows)[..index] == TabButtons(rows) && Panels(rows)[..index] == Panels(rows);
    strip := new TabStrip(|rows|);
  }

  /** Button `i` and panel `i` come from row `i`. */
  lemma ButtonsMatchPanels(rows: seq<Row>)
    ensures |TabButtons(rows)| == |Panels(rows)|
    ensures forall i | 0 <= i < |rows| :: TabButtons(rows)[i].dataTab == Panels(rows)[i].dataTab == i
  {
  }
}
