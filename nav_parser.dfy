/**
 * The navigation parser of the ISA importer: links with a label and an `href` become
 * upper-cased items that remember whether they were marked current; the block is one
 * cell holding the anchors joined by spaces.
 */
module NavParser {
  import opened Wrappers
  import opened Text
  import opened Scrape
  import opened BlockTable

  datatype NavItem = NavItem(caption: string, link: string, active: bool)

  /** `link.classList.contains('active') || link.getAttribute('aria-current') === 'page'`. */
  predicate IsCurrent(a: Anchor) {
    a.activeClass || a.ariaCurrent == Some("page")
  }

  /** `label && href`: an empty `href` attribute fails the test as a missing one does. */
  predicate HasLabelAndHref(a: Anchor) {
    Trim(a.text) != "" && a.hrefAttr.Some? && a.hrefAttr.value != ""
  }

  function NavItemOf(a: Anchor): NavItem {
    NavItem(Upper(Trim(a.text)), GetOr(a.hrefAttr, ""), IsCurrent(a))
  }

  const DEFAULT_NAV := [
    NavItem("OVERVIEW", "/overview", false),
    NavItem("DRC", "/drc", false),
    NavItem("JOINTS", "/joints", false),
    NavItem("H2H/SWITCH DATA", "/h2h-switch-data", false),
    NavItem("DOSING", "/dosing", false),
    NavItem("SAFETY", "/safety", false),
    NavItem("ACCESS", "/access", true),
    NavItem("SUMMARY", "/summary", false)]

  /** `extractNavigation`: the qualifying links in document order, else the eight defaults. */
  function NavItems(links: seq<Anchor>): (r: seq<NavItem>)
    ensures (exists i | 0 <= i < |links| :: HasLabelAndHref(links[i])) ==> r == Keep(links, HasLabelAndHref, NavItemOf)
    ensures (forall i | 0 <= i < |links| :: !HasLabelAndHref(links[i])) ==> r == DEFAULT_NAV
  {
    OrDefaultsKeep(links, HasLabelAndHref, NavItemOf, DEFAULT_NAV);
    OrDefaults(Keep(links, HasLabelAndHref, NavItemOf), DEFAULT_NAV)
  }

  method ExtractNavigation(links: seq<Anchor>) returns (items: seq<NavItem>)
    ensures items == NavItems(links)
  {
    items := Collect(links, HasLabelAndHref, NavItemOf);
    if |items| == 0 {
      items := DEFAULT_NAV;
    }
  }

  /** A scraped item is active exactly when its link had the class or the `aria-current` marker. */
  lemma ActiveIffMarked(a: Anchor)
    ensures NavItemOf(a).active <==> (a.activeClass || a.ariaCurrent == Some("page"))
    ensures HasLabelAndHref(a) ==> NavItemOf(a).caption != "" && NavItemOf(a).link == a.hrefAttr.value
  {
  }

  /** Every scraped item has a caption and a link; a `#` link is not filtered out. */
  lemma ScrapedItemsFilled(links: seq<Anchor>)
    ensures forall j | 0 <= j < |Keep(links, HasLabelAndHref, NavItemOf)| ::
      Keep(links, HasLabelAndHref, NavItemOf)[j].caption != "" && Keep(links, HasLabelAndHref, NavItemOf)[j].link != ""
  {
    KeepAll(links, HasLabelAndHref, NavItemOf, (n: NavItem) => n.caption != "" && n.link != "");
  }

  /** The defaults have exactly one active item, ACCESS. */
  lemma DefaultsOneActive()
    ensures forall i | 0 <= i < |DEFAULT_NAV| :: DEFAULT_NAV[i].active <==> i == 6
    ensures DEFAULT_NAV[6].caption == "ACCESS"
  {
  }

  // ---------------------------------------------------------------------------
  // The navigation block's rows

  /** The `outerHTML` of the generated anchor; the item's `active` flag is not rendered. */
  function AnchorHtml(item: NavItem): string {
    "<a href=\"" + item.link + "\">" + item.caption + "</a>"
  }

  function NavCell(items: seq<NavItem>): string {
    Join(MapTo(items, AnchorHtml), " ")
  }

  /** `createNavBlock`: one row with one cell. */
  function NavRows(items: seq<NavItem>): (rows: seq<RowInput>)
    ensures |rows| == 1 && rows[0].Cells? && rows[0].entries == [Str(NavCell(items))]
  {
    [StrCells([NavCell(items)])]
  }

  function Inactive(item: NavItem): NavItem {
    item.(active := false)
  }

  /** Which items are active makes no difference to the block. */
  lemma ActiveNotRendered(items: seq<NavItem>)
    ensures NavRows(items) == NavRows(MapTo(items, Inactive))
  {
    assert MapTo(items, AnchorHtml) == MapTo(MapTo(items, Inactive), AnchorHtml);
  }
}
