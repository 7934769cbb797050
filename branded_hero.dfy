/**
 * What the two branded hero blocks share: the top bar of ISI lines, the collapsible
 * safety panel, and the hero wrapper with the logo. The blocks differ only in the
 * default lines of the top bar.
 */
module BrandedHero {
  import opened Authored
  import opened HeroLines
  import opened HeroLogo
  import opened Disclosure

  /** The block's children in order: top bar, safety panel (its state is the `HeroPanel`), hero wrapper's logo section. */
  datatype HeroView = HeroView(topBar: seq<TopBarLine>, logo: LogoSection)

  function HeroOf(rows: seq<Row>, defaults: seq<TopBarLine>): HeroView {
    HeroView(TopBar(rows, defaults), LogoSectionOf(rows))
  }

  /** `decorate`, given the block's default lines: the view, and the safety panel as built, collapsed. */
  method Decorate(rows: seq<Row>, defaults: seq<TopBarLine>) returns (view: HeroView, panel: HeroPanel)
    ensures view == HeroOf(rows, defaults)
    ensures fresh(panel) && panel.collapsed && !panel.ariaExpanded && panel.icon == PLUS
  {
    var bar := BuildTopBar(rows, defaults);
    panel := new HeroPanel();
    view := HeroView(bar, LogoSection(LogoOf(rows), SUBTITLE));
  }
}
