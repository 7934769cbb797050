/**
 * The generic tabs block: a button and a panel per authored row, one click handler on
 * the button strip that reacts only to clicks on a tab button.
 */
module Tabs {
  import opened Wrappers
  import opened Scrape
  import opened Authored
  import opened TabState

  /** The panel is filled only when its row has more than one column, from the second column. */
  function PanelHtml(r: Row): string {
    if |r| > 1 then r[1].html else ""
  }

  function Panels(rows: seq<Row>): (r: seq<TabPanel>)
    ensures |r| == |rows|
    ensures forall i | 0 <= i < |rows| :: r[i] == TabPanel(PanelHtml(rows[i]), i)
  {
    seq(|rows|, i requires 0 <= i < |rows| => TabPanel(PanelHtml(rows[i]), i))
  }

  /** The decorated block: its `role` and its tab buttons and panels. */
  datatype TabsView = TabsView(role: string, buttons: seq<TabButton>, panels: seq<TabPanel>)

  /** `decorate`: the buttons and panels, row by row, the strip with the first tab active, and the block's role. */
  method Decorate(rows: seq<Row>) returns (view: TabsView, strip: TabStrip)
    ensures view == TabsView("tablist", TabButtons(rows), Panels(rows))
    ensures fresh(strip) && strip.Valid() && strip.Count() == |rows| && strip.OnlyActive(0)
  {
    var buttons, panels := BuildTabs(rows);
    strip := new TabStrip(|rows|);
    view := TabsView("tablist", buttons, panels);
  }

  /** The per-row loop. */
  method BuildTabs(rows: seq<Row>) returns (buttons: seq<TabButton>, panels: seq<TabPanel>)
    ensures buttons == TabButtons(rows) && panels == Panels(rows)
  {
    buttons := [];
    panels := [];
    var index := 0;
    while index < |rows|
      invariant 0 <= index <= |rows|
      invariant buttons == TabButtons(rows)[..index] && panels == Panels(rows)[..index]
    {
      TakeSnoc(TabButtons(rows), index);
      TakeSnoc(Panels(rows), index);
      buttons := buttons + [TabButton(TabLabel(rows[index], index), index)];
      panels := panels + [TabPanel(PanelHtml(rows[index]), index)];
      index := index + 1;
    }
    assert TabButtons(rows)[..index] == TabButtons(rows) && Panels(rows)[..index] == Panels(rows);
  }

  /**
   * The delegated click handler: `target` is the `data-tab` of the clicked tab button,
   * or `None` when the click landed on something else, which then changes nothing.
   */
  method Click(strip: TabStrip, target: Option<nat>)
    requires strip.Valid()
    requires target.Some? ==> target.value < strip.Count()
    modifies strip.buttonActive, strip.ariaSelected, strip.panelActive
    ensures strip.Valid()
    ensures target.Some? ==> strip.OnlyActive(target.value)
    ensures target.None? ==> unchanged(strip.buttonActive, strip.ariaSelected, strip.panelActive)
  {
    if target.Some? {
      strip.Select(target.value);
    }
  }
}
