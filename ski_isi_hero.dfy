/**
 * The shared header block of the ISI pages: the top bar of ISI lines, the collapsible
 * safety panel, and the hero wrapper with the logo and the navigation icons.
 */
module SkiIsiHero {
  import opened Wrappers
  import opened Authored
  import opened HeroLines
  import opened HeroLogo
  import opened Disclosure
  import opened BrandedHero

  /** The one line shown when no row is a "tap" line. */
  const DEFAULT_LINES := [
    TopBarLine("Toggle SKYRIZI ISI", "Tap here", "for SKYRIZI Indications and additional Important Safety Information.",
               Some(Link("https://www.rxabbvie.com/pdf/skyrizi_pi.pdf", "See Full Prescribing Information")))]

  /** `decorate`: the shared branded hero with this block's default lines. */
  method Decorate(rows: seq<Row>) returns (view: HeroView, panel: HeroPanel)
    ensures view == HeroOf(rows, DEFAULT_LINES)
    ensures fresh(panel) && panel.collapsed && !panel.ariaExpanded && panel.icon == PLUS
  {
    view, panel := BrandedHero.Decorate(rows, DEFAULT_LINES);
  }

  /** Without "tap" rows the bar holds exactly the one default line, which links to the prescribing information. */
  lemma DefaultTopBar(rows: seq<Row>)
    requires forall k | 1 <= k < |rows| :: !IsLineRow(rows[k])
    ensures HeroOf(rows, DEFAULT_LINES).topBar == DEFAULT_LINES && |HeroOf(rows, DEFAULT_LINES).topBar| == 1
    ensures HeroOf(rows, DEFAULT_LINES).topBar[0].anchor.Some?
  {
    TopBarShape(rows, DEFAULT_LINES);
  }
}
