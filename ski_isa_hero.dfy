/**
 * The branded header block of the ISA page: the top bar of ISI lines, the collapsible
 * safety panel, and the hero wrapper with the logo and the navigation icons.
 */
module SkiIsaHero {
  import opened Wrappers
  import opened Authored
  import opened HeroLines
  import opened HeroLogo
  import opened Disclosure
  import opened BrandedHero

  /** The two lines shown when no row is a "tap" line: SKYRIZI, then HUMIRA. */
  const DEFAULT_LINES := [
    TopBarLine("Toggle SKYRIZI ISI", "Tap here", "for SKYRIZI Indications and additional Important Safety Information.",
               Some(Link("https://www.rxabbvie.com/pdf/skyrizi_pi.pdf", "See accompanying Full Prescribing Information"))),
    TopBarLine("Toggle HUMIRA ISI", "Tap here",
               "for HUMIRA Indications and Important Safety Information, including BOXED WARNING on Serious Infections and Malignancy.",
               Some(Link("https://www.rxabbvie.com/pdf/humira.pdf", "See accompanying Full Prescribing Information")))]

  /** `decorate`: the shared branded hero with this block's default lines. */
  method Decorate(rows: seq<Row>) returns (view: HeroView, panel: HeroPanel)
    ensures view == HeroOf(rows, DEFAULT_LINES)
    ensures fresh(panel) && panel.collapsed && !panel.ariaExpanded && panel.icon == PLUS
  {
    view, panel := BrandedHero.Decorate(rows, DEFAULT_LINES);
  }

  /** Without "tap" rows the bar holds exactly the two default lines, SKYRIZI then HUMIRA, each with its link. */
  lemma DefaultTopBar(rows: seq<Row>)
    requires forall k | 1 <= k < |rows| :: !IsLineRow(rows[k])
    ensures HeroOf(rows, DEFAULT_LINES).topBar == DEFAULT_LINES && |HeroOf(rows, DEFAULT_LINES).topBar| == 2
    ensures HeroOf(rows, DEFAULT_LINES).topBar[0].ariaLabel == "Toggle SKYRIZI ISI" && HeroOf(rows, DEFAULT_LINES).topBar[1].ariaLabel == "Toggle HUMIRA ISI"
    ensures HeroOf(rows, DEFAULT_LINES).topBar[0].anchor.Some? && HeroOf(rows, DEFAULT_LINES).topBar[1].anchor.Some?
  {
    TopBarShape(rows, DEFAULT_LINES);
  }
}
