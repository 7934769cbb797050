/**
 * The state of a strip of tabs as the click handlers leave it: for every tab, whether
 * its button has the class `active`, whether its `aria-selected` is `'true'`, and
 * whether its panel has the class `active`.
 */
module TabState {
  import opened Text
  import opened Authored

  /** A tab button as built: its caption and its `data-tab` index. */
  datatype TabButton = TabButton(caption: string, dataTab: nat)

  /** A tab panel as built: its inner HTML and its `data-tab` index. */
  datatype TabPanel = TabPanel(html: string, dataTab: nat)

  /** `cols[0]?.textContent?.trim() || `Tab ${index + 1}``. */
  function TabLabel(r: Row, index: nat): (caption: string)
    ensures caption != ""
    ensures ColText(r, 0) != "" ==> caption == ColText(r, 0)
    ensures ColText(r, 0) == "" ==> caption == "Tab " + NatToString(index + 1)
  {
    OrElse(ColText(r, 0), "Tab " + NatToString(index + 1))
  }

  /** One button per row, in row order, captioned by `TabLabel` and numbered by position. */
  function TabButtons(rows: seq<Row>): (r: seq<TabButton>)
    ensures |r| == |rows|
    ensures forall i | 0 <= i < |rows| :: r[i] == TabButton(TabLabel(rows[i], i), i)
  {
    seq(|rows|, i requires 0 <= i < |rows| => TabButton(TabLabel(rows[i], i), i))
  }

  class TabStrip {
    const buttonActive: array<bool>
    const ariaSelected: array<bool>
    const panelActive: array<bool>

    ghost predicate Valid()
      reads this
    {
      buttonActive.Length == ariaSelected.Length == panelActive.Length
      && buttonActive != ariaSelected && ariaSelected != panelActive && buttonActive != panelActive
    }

    function Count(): nat
      reads this
    {
      buttonActive.Length
    }

    /** Tab `k` alone is active: its button, its `aria-selected` and its panel, and no other tab's. */
    ghost predicate OnlyActive(k: nat)
      requires Valid()
      reads this, buttonActive, ariaSelected, panelActive
    {
      forall j | 0 <= j < Count() ::
        (buttonActive[j] <==> j == k) && (ariaSelected[j] <==> j == k) && (panelActive[j] <==> j == k)
    }

    /** The tabs as built: the first one active and selected, none of the others. */
    constructor (n: nat)
      ensures Valid() && Count() == n
      ensures fresh(buttonActive) && fresh(ariaSelected) && fresh(panelActive)
      ensures OnlyActive(0)
    {
      buttonActive := new bool[n](j => j == 0);
      ariaSelected := new bool[n](j => j == 0);
      panelActive := new bool[n](j => j == 0);
    }

    /** The click handler of tab `k`: deactivate every button and panel, then activate `k`'s. */
    method Select(k: nat)
      requires Valid() && k < Count()
      modifies buttonActive, ariaSelected, panelActive
      ensures Valid() && OnlyActive(k)
    {
      var j := 0;
      while j < buttonActive.Length
        invariant 0 <= j <= buttonActive.Length
        invariant forall i | 0 <= i < j :: !buttonActive[i] && !ariaSelected[i]
      {
        buttonActive[j] := false;
        ariaSelected[j] := false;
        j := j + 1;
      }
      j := 0;
      while j < panelActive.Length
        invariant 0 <= j <= panelActive.Length
        invariant forall i | 0 <= i < buttonActive.Length :: !buttonActive[i] && !ariaSelected[i]
        invariant forall i | 0 <= i < j :: !panelActive[i]
      {
        panelActive[j] := false;
        j := j + 1;
      }
      buttonActive[k] := true;
      ariaSelected[k] := true;
      panelActive[k] := true;
    }
  }

  /** A row of buttons of which the click handlers keep one `active`, with no panels. */
  class ChoiceBar {
    const active: array<bool>

    function Count(): nat
      reads this
    {
      active.Length
    }

    ghost predicate OnlyActive(k: nat)
      reads this, active
    {
      forall j | 0 <= j < active.Length :: active[j] <==> j == k
    }

    /** `n` buttons, the one at `initial` active. */
    constructor (n: nat, initial: nat)
      ensures Count() == n && fresh(active)
      ensures OnlyActive(initial)
    {
      active := new bool[n](j => j == initial);
    }

    /** A button's click handler: remove `active` from every button, then add it to button `k`. */
    method Choose(k: nat)
      requires k < Count()
      modifies active
      ensures OnlyActive(k)
    {
      var j := 0;
      while j < active.Length
        invariant 0 <= j <= active.Length
        invariant forall i | 0 <= i < j :: !active[i]
      {
        active[j] := false;
        j := j + 1;
      }
      active[k] := true;
    }
  }
}
