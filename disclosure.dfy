/**
 * The collapsible safety panel of the two branded hero blocks: whether the panel has
 * the class `collapsed`, whether its toggle's `aria-expanded` is `'true'`, and the text
 * of the toggle icon.
 */
module Disclosure {
  const PLUS := "+"

  /** The minus sign U+2212 the hero blocks show on an open panel. */
  const MINUS := "\U{2212}"

  class HeroPanel {
    var collapsed: bool
    var ariaExpanded: bool
    var icon: string

    /** Collapsed exactly when `aria-expanded` is `'false'`, exactly when the icon is `+`, and `−` otherwise. */
    ghost predicate Consistent()
      reads this
    {
      (collapsed <==> !ariaExpanded) && icon == (if collapsed then PLUS else MINUS)
    }

    /** The panel as built: collapsed, `aria-expanded="false"`, icon `+`. */
    constructor ()
      ensures collapsed && !ariaExpanded && icon == PLUS
      ensures Consistent()
    {
      collapsed := true;
      ariaExpanded := false;
      icon := PLUS;
    }

    /** The toggle's click handler: flip `collapsed`, and set the attribute and the icon from the state it had. */
    method Toggle()
      modifies this
      ensures collapsed == !old(collapsed)
      ensures ariaExpanded == old(collapsed) && icon == (if old(collapsed) then MINUS else PLUS)
      ensures Consistent()
    {
      var wasCollapsed := collapsed;
      collapsed := !collapsed;
      ariaExpanded := wasCollapsed;
      icon := if wasCollapsed then MINUS else PLUS;
    }

    /** A top-bar toggle's click handler: open the panel, whatever its state. */
    method Expand()
      modifies this
      ensures !collapsed && ariaExpanded && icon == MINUS
      ensures Consistent()
    {
      collapsed := false;
      ariaExpanded := true;
      icon := MINUS;
    }
  }
}
