/**
 * The page importer for the brand pages (access, head-to-head, overview, efficacy,
 * safety): scraped elements are reduced to records by filter-then-default extractors,
 * the page type is read off the URL, and the page body is rebuilt as a run of block
 * tables separated by section breaks, ending with the metadata table.
 */
module PageImport {
  import opened Wrappers
  import opened Text
  import opened Scrape
  import opened BlockTable

  // ---------------------------------------------------------------------------
  // Scraped elements and the records made from them

  /** A support card element: title, description and icon children, and the alt text of its image when it has one. */
  datatype CardEl = CardEl(title: Option<string>, desc: Option<string>, icon: Option<string>, imgAlt: Option<string>)

  datatype Brand = Brand(name: string, subtitle: string, logo: string)
  datatype IsiLine = IsiLine(toggle: string, text: string, linkText: string, linkHref: string)
  datatype Indication = Indication(condition: string, description: string)
  datatype Stat = Stat(caption: string, value: string, description: string)
  datatype Coverage = Coverage(title: string, tabs: seq<string>, stats: seq<Stat>, footnote: string)
  datatype Card = Card(icon: string, title: string, description: string)
  datatype Cta = Cta(caption: string, link: string)
  datatype Support = Support(title: string, cards: seq<Card>, cta: Cta, footnotes: string)
  datatype NavItem = NavItem(caption: string, link: string)
  datatype Section = Section(heading: string, content: string)
  datatype Efficacy = Efficacy(title: string, items: seq<Stat>)

  /** Everything the transform reads from the scraped document. */
  datatype Scraped = Scraped(
    logoSrc: Option<string>, subtitle: Option<string>,
    toggles: seq<ToggleEl>, indications: seq<PairEl>,
    coverageTitle: Option<string>, stats: seq<StatEl>, coverageFootnote: Option<string>,
    cards: seq<CardEl>, cta: Option<Anchor>, supportFootnotes: Option<string>,
    navLinks: seq<Anchor>, safety: seq<PairEl>, efficacy: seq<StatEl>)

  // ---------------------------------------------------------------------------
  // Brand

  const DEFAULT_SUBTITLE := "(risankizumab-rzaa)"
  const DEFAULT_LOGO := "./images/logo-skyrizi.svg"

  /** `extractBrandInfo`: a fixed name; the subtitle and logo fall back when not found or empty. */
  function BrandInfo(logoSrc: Option<string>, subtitle: Option<string>): (b: Brand)
    ensures b.name == "SKYRIZI"
    ensures TextOf(subtitle) != "" ==> b.subtitle == TextOf(subtitle)
    ensures TextOf(subtitle) == "" ==> b.subtitle == DEFAULT_SUBTITLE
    ensures (logoSrc.Some? && logoSrc.value != "") ==> b.logo == logoSrc.value
    ensures (logoSrc.None? || logoSrc.value == "") ==> b.logo == DEFAULT_LOGO
  {
    Brand("SKYRIZI", OrElse(TextOf(subtitle), DEFAULT_SUBTITLE), OrElse(GetOr(logoSrc, ""), DEFAULT_LOGO))
  }

  // ---------------------------------------------------------------------------
  // ISI lines

  const DEFAULT_ISI_LINE := IsiLine("Tap here",
    "for SKYRIZI Indications and additional Important Safety Information.",
    "See Full Prescribing Information", "https://www.rxabbvie.com/pdf/skyrizi_pi.pdf")

  predicate HasToggle(e: ToggleEl) {
    e.button.Some? || e.content.Some?
  }

  function IsiLineOf(e: ToggleEl): IsiLine {
    IsiLine(OrElse(TextOf(e.button), "Tap here"), TextOf(e.content),
            OrElse(AnchorText(e.link), "See Full Prescribing Information"),
            if e.link.Some? then e.link.value.href else "")
  }

  /** `extractISILines`: a line per toggle element that has a button or content, else the default line. */
  function IsiLines(els: seq<ToggleEl>): (r: seq<IsiLine>)
    ensures (exists i | 0 <= i < |els| :: HasToggle(els[i])) ==> r == Keep(els, HasToggle, IsiLineOf)
    ensures (forall i | 0 <= i < |els| :: !HasToggle(els[i])) ==> r == [DEFAULT_ISI_LINE]
  {
    OrDefaultsKeep(els, HasToggle, IsiLineOf, [DEFAULT_ISI_LINE]);
    OrDefaults(Keep(els, HasToggle, IsiLineOf), [DEFAULT_ISI_LINE])
  }

  method ExtractIsiLines(els: seq<ToggleEl>) returns (r: seq<IsiLine>)
    ensures r == IsiLines(els)
  {
    r := Collect(els, HasToggle, IsiLineOf);
    if |r| == 0 {
      r := [DEFAULT_ISI_LINE];
    }
  }

  // ---------------------------------------------------------------------------
  // Indications

  const DEFAULT_INDICATIONS := [
    Indication("Plaque Psoriasis:", "SKYRIZI is indicated for the treatment of moderate to severe plaque psoriasis in adults who are candidates for systemic therapy or phototherapy."),
    Indication("Psoriatic Arthritis:", "SKYRIZI is indicated for the treatment of active psoriatic arthritis in adults."),
    Indication("Crohn's Disease:", "SKYRIZI is indicated for the treatment of moderately to severely active Crohn's disease in adults.")]

  /** `condition || description`: either text is enough. */
  predicate HasEither(e: PairEl) {
    TextOf(e.first) != "" || TextOf(e.second) != ""
  }

  function IndicationOf(e: PairEl): Indication {
    Indication(TextOf(e.first), TextOf(e.second))
  }

  /** `extractIndications`: the elements with a condition or a description, else the three defaults. */
  function Indications(els: seq<PairEl>): (r: seq<Indication>)
    ensures (exists i | 0 <= i < |els| :: HasEither(els[i])) ==> r == Keep(els, HasEither, IndicationOf)
    ensures (forall i | 0 <= i < |els| :: !HasEither(els[i])) ==> r == DEFAULT_INDICATIONS
  {
    OrDefaultsKeep(els, HasEither, IndicationOf, DEFAULT_INDICATIONS);
    OrDefaults(Keep(els, HasEither, IndicationOf), DEFAULT_INDICATIONS)
  }

  method ExtractIndications(els: seq<PairEl>) returns (r: seq<Indication>)
    ensures r == Indications(els)
  {
    r := Collect(els, HasEither, IndicationOf);
    if |r| == 0 {
      r := DEFAULT_INDICATIONS;
    }
  }

  /** A kept indication always has a condition or a description. */
  lemma IndicationsNotBlank(els: seq<PairEl>)
    ensures forall j | 0 <= j < |Indications(els)| ::
      Indications(els)[j].condition != "" || Indications(els)[j].description != ""
  {
    KeepAll(els, HasEither, IndicationOf, (d: Indication) => d.condition != "" || d.description != "");
    var r := Indications(els);
    if forall i | 0 <= i < |els| :: !HasEither(els[i]) {
      assert r == DEFAULT_INDICATIONS;
      assert forall j | 0 <= j < |r| :: r[j].condition != "" by {
        assert DEFAULT_INDICATIONS[0].condition != "";
        assert DEFAULT_INDICATIONS[1].condition != "";
        assert DEFAULT_INDICATIONS[2].condition != "";
      }
    }
  }

  // ---------------------------------------------------------------------------
  // Coverage

  const DEFAULT_COVERAGE_TITLE := "for Ps & PsA SKYRIZI Patients: Preferred NATIONAL Coverage & Exceptional Support"
  const PREFERRED := "PREFERRED COVERAGE<sup>2</sup>*\U{2020}"
  const DEFAULT_STATS := [Stat("Commercial", "99", PREFERRED), Stat("Medicare Part D", "97", PREFERRED)]
  const DEFAULT_COVERAGE_FOOTNOTE := "**Preferred coverage means SKYRIZI is AVAILABLE:** With no advanced systemic failure required\U{2021} At the lowest branded co-pay/coinsurance tier."
  const COVERAGE_TABS := ["Overview", "National", "Local"]

  predicate HasLabelOrValue(e: StatEl) {
    TextOf(e.caption) != "" || TextOf(e.value) != ""
  }

  /** A stat record: the value loses its first `%`; a missing description is the preferred-coverage note. */
  function StatOf(e: StatEl): Stat {
    Stat(TextOf(e.caption), RemoveFirst(TextOf(e.value), "%"), OrElse(TextOf(e.desc), PREFERRED))
  }

  function Stats(els: seq<StatEl>): (r: seq<Stat>)
    ensures (exists i | 0 <= i < |els| :: HasLabelOrValue(els[i])) ==> r == Keep(els, HasLabelOrValue, StatOf)
    ensures (forall i | 0 <= i < |els| :: !HasLabelOrValue(els[i])) ==> r == DEFAULT_STATS
  {
    OrDefaultsKeep(els, HasLabelOrValue, StatOf, DEFAULT_STATS);
    OrDefaults(Keep(els, HasLabelOrValue, StatOf), DEFAULT_STATS)
  }

  /** `extractCoverage`: title and footnote fall back separately; the tabs are fixed. */
  function CoverageOf(title: Option<string>, els: seq<StatEl>, footnote: Option<string>): (c: Coverage)
    ensures c.tabs == COVERAGE_TABS && c.stats == Stats(els)
    ensures c.title == OrElse(TextOf(title), DEFAULT_COVERAGE_TITLE)
    ensures c.footnote == OrElse(TextOf(footnote), DEFAULT_COVERAGE_FOOTNOTE)
  {
    Coverage(OrElse(TextOf(title), DEFAULT_COVERAGE_TITLE), COVERAGE_TABS, Stats(els),
             OrElse(TextOf(footnote), DEFAULT_COVERAGE_FOOTNOTE))
  }

  method ExtractCoverage(title: Option<string>, els: seq<StatEl>, footnote: Option<string>) returns (c: Coverage)
    ensures c == CoverageOf(title, els, footnote)
  {
    c := Coverage("", COVERAGE_TABS, [], "");
    c := c.(title := OrElse(TextOf(title), DEFAULT_COVERAGE_TITLE));
    var stats := Collect(els, HasLabelOrValue, StatOf);
    c := c.(stats := stats);
    if |c.stats| == 0 {
      c := c.(stats := DEFAULT_STATS);
    }
    c := c.(footnote := OrElse(TextOf(footnote), DEFAULT_COVERAGE_FOOTNOTE));
  }

  // ---------------------------------------------------------------------------
  // Support

  const SUPPORT_TITLE := "Encourage your patients to enroll in"
  const DEFAULT_CTA := Cta("FIND OUT MORE", "/skyrizi-complete")
  const DEFAULT_CARDS := [
    Card("$5", "AFFORDABILITY", "Eligible commercially insured patients may pay as little as $5 per quarterly dose\U{00A7}"),
    Card("support", "ONE-TO-ONE SUPPORT", "Insurance Specialists to help navigate insurance and Nurse Ambassadors\U{2225} to help patients start and stay on therapy"),
    Card("bridge", "BRIDGE PROGRAM ELIGIBILITY", "No-cost product available for eligible patients in the event of a denial in coverage due to step-therapy requirement\U{00B6}")]
  const DEFAULT_SUPPORT_FOOTNOTES := "\U{2021}Advanced systemics inclusive of PDE4 inhibitors, JAK inhibitors, or biologics."

  predicate HasTitleOrDesc(e: CardEl) {
    TextOf(e.title) != "" || TextOf(e.desc) != ""
  }

  /** A card: icon text, else the image's alt text, else `$5`; the title upper-cased. */
  function CardOf(e: CardEl): Card {
    Card(OrElse(OrElse(TextOf(e.icon), GetOr(e.imgAlt, "")), "$5"), Upper(TextOf(e.title)), TextOf(e.desc))
  }

  function Cards(els: seq<CardEl>): (r: seq<Card>)
    ensures (exists i | 0 <= i < |els| :: HasTitleOrDesc(els[i])) ==> r == Keep(els, HasTitleOrDesc, CardOf)
    ensures (forall i | 0 <= i < |els| :: !HasTitleOrDesc(els[i])) ==> r == DEFAULT_CARDS
  {
    OrDefaultsKeep(els, HasTitleOrDesc, CardOf, DEFAULT_CARDS);
    OrDefaults(Keep(els, HasTitleOrDesc, CardOf), DEFAULT_CARDS)
  }

  /** The CTA is replaced only when a CTA element was found. */
  function CtaOf(el: Option<Anchor>): (c: Cta)
    ensures el.None? ==> c == DEFAULT_CTA
    ensures el.Some? ==> c.caption == OrElse(AnchorText(el), "FIND OUT MORE") && c.link == OrElse(el.value.href, "/skyrizi-complete")
  {
    match el
    case None => DEFAULT_CTA
    case Some(a) => Cta(OrElse(AnchorText(el), "FIND OUT MORE"), OrElse(a.href, "/skyrizi-complete"))
  }

  function SupportOf(els: seq<CardEl>, cta: Option<Anchor>, footnotes: Option<string>): Support {
    Support(SUPPORT_TITLE, Cards(els), CtaOf(cta), OrElse(TextOf(footnotes), DEFAULT_SUPPORT_FOOTNOTES))
  }

  method ExtractSupport(els: seq<CardEl>, cta: Option<Anchor>, footnotes: Option<string>) returns (s: Support)
    ensures s == SupportOf(els, cta, footnotes)
  {
    s := Support(SUPPORT_TITLE, [], DEFAULT_CTA, "");
    var cards := Collect(els, HasTitleOrDesc, CardOf);
    s := s.(cards := cards);
    if |s.cards| == 0 {
      s := s.(cards := DEFAULT_CARDS);
    }
    if cta.Some? {
      s := s.(cta := Cta(OrElse(AnchorText(cta), "FIND OUT MORE"), OrElse(cta.value.href, "/skyrizi-complete")));
    }
    s := s.(footnotes := OrElse(TextOf(footnotes), DEFAULT_SUPPORT_FOOTNOTES));
  }

  /** Every scraped card title is in upper case: upper-casing it again changes nothing. */
  lemma CardTitlesUpper(els: seq<CardEl>)
    ensures forall j | 0 <= j < |Keep(els, HasTitleOrDesc, CardOf)| ::
      Upper(Keep(els, HasTitleOrDesc, CardOf)[j].title) == Keep(els, HasTitleOrDesc, CardOf)[j].title
  {
    forall e: CardEl ensures Upper(CardOf(e).title) == CardOf(e).title {
      UpperIdempotent(TextOf(e.title));
    }
    KeepAll(els, HasTitleOrDesc, CardOf, (c: Card) => Upper(c.title) == c.title);
  }

  // ---------------------------------------------------------------------------
  // Navigation

  const DEFAULT_NAV := [
    NavItem("OVERVIEW", "/content/skyrizi/overview"),
    NavItem("H2H", "/content/skyrizi/h2h"),
    NavItem("PASI 90-100", "/content/skyrizi/pasi-90-100"),
    NavItem("SAFETY", "/content/skyrizi/safety"),
    NavItem("ACCESS", "/content/skyrizi/access")]

  /** `label && href && !href.startsWith('#')`. */
  predicate IsPageLink(a: Anchor) {
    Trim(a.text) != "" && a.hrefAttr.Some? && a.hrefAttr.value != "" && !StartsWith(a.hrefAttr.value, "#")
  }

  function NavItemOf(a: Anchor): NavItem {
    NavItem(Upper(Trim(a.text)), GetOr(a.hrefAttr, ""))
  }

  /** `extractNavigation`: labelled links that do not point into the page, in order, else the five defaults. */
  function NavItems(els: seq<Anchor>): (r: seq<NavItem>)
    ensures (exists i | 0 <= i < |els| :: IsPageLink(els[i])) ==> r == Keep(els, IsPageLink, NavItemOf)
    ensures (forall i | 0 <= i < |els| :: !IsPageLink(els[i])) ==> r == DEFAULT_NAV
  {
    OrDefaultsKeep(els, IsPageLink, NavItemOf, DEFAULT_NAV);
    OrDefaults(Keep(els, IsPageLink, NavItemOf), DEFAULT_NAV)
  }

  method ExtractNavigation(els: seq<Anchor>) returns (r: seq<NavItem>)
    ensures r == NavItems(els)
  {
    r := Collect(els, IsPageLink, NavItemOf);
    if |r| == 0 {
      r := DEFAULT_NAV;
    }
  }

  predicate GoodNavItem(n: NavItem) {
    n.caption != "" && n.link != "" && !StartsWith(n.link, "#")
  }

  /** No navigation item has an empty label, an empty link, or a link into the page itself. */
  lemma NavItemsAreLinks(els: seq<Anchor>)
    ensures forall j | 0 <= j < |NavItems(els)| :: GoodNavItem(NavItems(els)[j])
  {
    if exists i | 0 <= i < |els| :: IsPageLink(els[i]) {
      forall i | 0 <= i < |els| && IsPageLink(els[i]) ensures GoodNavItem(NavItemOf(els[i])) {
        PageLinkIsGood(els[i]);
      }
      KeepAll(els, IsPageLink, NavItemOf, GoodNavItem);
    } else {
      DefaultNavIsGood();
    }
  }

  lemma PageLinkIsGood(a: Anchor)
    requires IsPageLink(a)
    ensures GoodNavItem(NavItemOf(a))
  {
  }

  lemma DefaultNavIsGood()
    ensures forall j | 0 <= j < |DEFAULT_NAV| :: GoodNavItem(DEFAULT_NAV[j])
  {
    forall j | 0 <= j < |DEFAULT_NAV| ensures GoodNavItem(DEFAULT_NAV[j]) {
      assert DEFAULT_NAV[j].link[0] == '/';
    }
  }

  // ---------------------------------------------------------------------------
  // Safety and efficacy

  const DEFAULT_SECTIONS := [
    Section("CONTRAINDICATIONS", "SKYRIZI is contraindicated in patients with a history of serious hypersensitivity reaction to risankizumab-rzaa or any of the excipients."),
    Section("WARNINGS - Hypersensitivity", "Serious hypersensitivity reactions, including anaphylaxis, have been reported. If a serious hypersensitivity reaction occurs, discontinue SKYRIZI and initiate appropriate therapy immediately."),
    Section("WARNINGS - Infections", "SKYRIZI may increase the risk of infection. Instruct patients to report signs or symptoms of clinically important infection.")]

  function SectionOf(e: PairEl): Section {
    Section(TextOf(e.first), TextOf(e.second))
  }

  function SafetySections(els: seq<PairEl>): (r: seq<Section>)
    ensures (exists i | 0 <= i < |els| :: HasEither(els[i])) ==> r == Keep(els, HasEither, SectionOf)
    ensures (forall i | 0 <= i < |els| :: !HasEither(els[i])) ==> r == DEFAULT_SECTIONS
  {
    OrDefaultsKeep(els, HasEither, SectionOf, DEFAULT_SECTIONS);
    OrDefaults(Keep(els, HasEither, SectionOf), DEFAULT_SECTIONS)
  }

  method ExtractSafetyInfo(els: seq<PairEl>) returns (r: seq<Section>)
    ensures r == SafetySections(els)
  {
    r := Collect(els, HasEither, SectionOf);
    if |r| == 0 {
      r := DEFAULT_SECTIONS;
    }
  }

  const EFFICACY_TITLE := "PASI Response at Week 16"
  const DEFAULT_EFFICACY := [
    Stat("PASI 75", "91%", "Patients achieving PASI 75"),
    Stat("PASI 90", "75%", "Patients achieving PASI 90"),
    Stat("PASI 100", "51%", "Patients achieving complete skin clearance")]

  function EfficacyItemOf(e: StatEl): Stat {
    Stat(TextOf(e.caption), TextOf(e.value), TextOf(e.desc))
  }

  function EfficacyOf(els: seq<StatEl>): (d: Efficacy)
    ensures d.title == EFFICACY_TITLE
    ensures (exists i | 0 <= i < |els| :: HasLabelOrValue(els[i])) ==> d.items == Keep(els, HasLabelOrValue, EfficacyItemOf)
    ensures (forall i | 0 <= i < |els| :: !HasLabelOrValue(els[i])) ==> d.items == DEFAULT_EFFICACY
  {
    OrDefaultsKeep(els, HasLabelOrValue, EfficacyItemOf, DEFAULT_EFFICACY);
    Efficacy(EFFICACY_TITLE, OrDefaults(Keep(els, HasLabelOrValue, EfficacyItemOf), DEFAULT_EFFICACY))
  }

  method ExtractEfficacyData(els: seq<StatEl>) returns (d: Efficacy)
    ensures d == EfficacyOf(els)
  {
    d := Efficacy(EFFICACY_TITLE, []);
    var items := Collect(els, HasLabelOrValue, EfficacyItemOf);
    d := d.(items := items);
    if |d.items| == 0 {
      d := d.(items := DEFAULT_EFFICACY);
    }
  }

  // ---------------------------------------------------------------------------
  // Page type and output path

  datatype PageType = Access | HeadToHead | Overview | Pasi | Safety

  /** The lower-cased URL contains `k`. */
  predicate Mentions(url: string, k: string) {
    Contains(Lower(url), k)
  }

  /** `detectPageType`: the first keyword found, in the order access, h2h, overview, pasi, safety. */
  function DetectPageType(url: string): (t: PageType)
    ensures t == Access <==> Mentions(url, "access")
                             || (!Mentions(url, "h2h") && !Mentions(url, "head-to-head") && !Mentions(url, "overview")
                                 && !Mentions(url, "pasi") && !Mentions(url, "efficacy") && !Mentions(url, "safety"))
    ensures t == HeadToHead <==> !Mentions(url, "access") && (Mentions(url, "h2h") || Mentions(url, "head-to-head"))
    ensures t == Overview <==> !Mentions(url, "access") && !Mentions(url, "h2h") && !Mentions(url, "head-to-head")
                               && Mentions(url, "overview")
    ensures t == Pasi <==> !Mentions(url, "access") && !Mentions(url, "h2h") && !Mentions(url, "head-to-head")
                           && !Mentions(url, "overview") && (Mentions(url, "pasi") || Mentions(url, "efficacy"))
    ensures t == Safety <==> !Mentions(url, "access") && !Mentions(url, "h2h") && !Mentions(url, "head-to-head")
                             && !Mentions(url, "overview") && !Mentions(url, "pasi") && !Mentions(url, "efficacy")
                             && Mentions(url, "safety")
  {
    var u := Lower(url);
    if Contains(u, "access") then Access
    else if Contains(u, "h2h") || Contains(u, "head-to-head") then HeadToHead
    else if Contains(u, "overview") then Overview
    else if Contains(u, "pasi") || Contains(u, "efficacy") then Pasi
    else if Contains(u, "safety") then Safety
    else Access
  }

  /** Only the safety and efficacy pages get their own layout; every other type is built as the access page. */
  function PathOf(t: PageType): string {
    match t
    case Safety => "/skyrizi/safety"
    case Pasi => "/skyrizi/pasi-90-100"
    case _ => "/skyrizi/access"
  }

  /** The three output paths are distinct, so the path names the layout that was written. */
  lemma PathOfType(t: PageType)
    ensures PathOf(t) == "/skyrizi/safety" <==> t == Safety
    ensures PathOf(t) == "/skyrizi/pasi-90-100" <==> t == Pasi
    ensures PathOf(t) == "/skyrizi/access" <==> t != Safety && t != Pasi
  {
    assert "/skyrizi/safety"[9] == 's' && "/skyrizi/pasi-90-100"[9] == 'p' && "/skyrizi/access"[9] == 'a';
  }

  // ---------------------------------------------------------------------------
  // Rows and tables

  function LogoCell(logo: string): string {
    "<img src=\"" + logo + "\" alt=\"SKYRIZI Logo\">"
  }

  function HeroLineRow(l: IsiLine): RowInput {
    StrCells([l.toggle, l.text + " <a href=\"" + l.linkHref + "\">" + l.linkText + "</a>"])
  }

  function HeroRows(logo: string, lines: seq<IsiLine>): seq<RowInput> {
    [StrCells([LogoCell(logo), ""])] + MapTo(lines, HeroLineRow)
  }

  const PI_ROW := "Please see <a href=\"https://www.rxabbvie.com/pdf/skyrizi_pi.pdf\">Full Prescribing Information</a>."

  function IndicationRow(d: Indication): RowInput {
    StrCells([d.condition, d.description])
  }

  function IndicationRows(ds: seq<Indication>): seq<RowInput> {
    [StrCells(["INDICATIONS", ""])] + MapTo(ds, IndicationRow) + [StrCells([PI_ROW, ""])]
  }

  /** `[stat.caption, `${stat.value}%`, stat.description]`. */
  function StatRow(s: Stat): RowInput {
    StrCells([s.caption, s.value + "%", s.description])
  }

  function CoverageRows(c: Coverage): seq<RowInput> {
    [StrCells([c.title]), StrCells(c.tabs)] + MapTo(c.stats, StatRow) + [StrCells([c.footnote])]
  }

  function CardRow(c: Card): RowInput {
    StrCells([c.icon, "**" + c.title + "** " + c.description])
  }

  function SupportRows(s: Support): seq<RowInput> {
    [StrCells([s.title, ""])] + MapTo(s.cards, CardRow)
    + [StrCells(["<a href=\"" + s.cta.link + "\">" + s.cta.caption + "</a>", ""]), StrCells([s.footnotes, ""])]
  }

  function NavAnchor(n: NavItem): string {
    "<a href=\"" + n.link + "\">" + n.caption + "</a>"
  }

  /** The navigation block's single cell: every item's anchor, separated by single spaces. */
  function NavRows(items: seq<NavItem>): seq<RowInput> {
    [StrCells([Join(MapTo(items, NavAnchor), " ")])]
  }

  function SectionRow(s: Section): RowInput {
    StrCells([s.heading, s.content])
  }

  function SafetyRows(ss: seq<Section>): seq<RowInput> {
    [StrCells(["Important Safety Information", ""])] + MapTo(ss, SectionRow)
  }

  function EfficacyRow(s: Stat): RowInput {
    StrCells([s.caption, s.value, s.description])
  }

  function EfficacyRows(d: Efficacy): seq<RowInput> {
    [StrCells([d.title])] + MapTo(d.items, EfficacyRow)
  }

  /** The stats block lists value before label. */
  function StatsRow(s: Stat): RowInput {
    StrCells([s.value, s.caption, s.description])
  }

  /** The metadata each layout ends with. */
  const ACCESS_TITLE := "SKYRIZI Access - Coverage & Support"
  const ACCESS_DESCRIPTION := "Access information, coverage details, and patient support programs for SKYRIZI"
  const SAFETY_TITLE := "SKYRIZI Safety Information"
  const SAFETY_DESCRIPTION := "Important safety information, warnings, and adverse reactions for SKYRIZI"
  const PASI_TITLE := "SKYRIZI PASI 90-100 Clinical Results"
  const PASI_DESCRIPTION := "PASI efficacy results from SKYRIZI clinical trials"

  function MetadataRows(title: string, description: string): seq<RowInput> {
    [StrCells(["title", title]), StrCells(["description", description])]
  }

  /** `createBlock(doc, name, rows, columns)`: elements are moved in, rows are not padded. */
  function Block(name: string, rows: seq<RowInput>, columns: int): Table {
    TableOf(name, rows, columns, Move, 0)
  }

  // ---------------------------------------------------------------------------
  // Pages

  function AccessPage(brand: Brand, lines: seq<IsiLine>, inds: seq<Indication>, cov: Coverage,
                      sup: Support, nav: seq<NavItem>): seq<PageNode> {
    Page([Block(ISI_HERO, HeroRows(brand.logo, lines), 2),
          Block(ISI_INDICATIONS, IndicationRows(inds), 2),
          Block(ISI_COVERAGE, CoverageRows(cov), 3),
          Block(ISI_SUPPORT, SupportRows(sup), 2),
          Block(ISI_NAV, NavRows(nav), 1)],
         Block(METADATA, MetadataRows(ACCESS_TITLE, ACCESS_DESCRIPTION), 2))
  }

  function SafetyPage(brand: Brand, lines: seq<IsiLine>, sections: seq<Section>, nav: seq<NavItem>): seq<PageNode> {
    Page([Block(ISI_HERO, HeroRows(brand.logo, lines), 2),
          Block(ISI_SAFETY, SafetyRows(sections), 2),
          Block(ISI_NAV, NavRows(nav), 1)],
         Block(METADATA, MetadataRows(SAFETY_TITLE, SAFETY_DESCRIPTION), 2))
  }

  function PasiPage(brand: Brand, lines: seq<IsiLine>, data: Efficacy, nav: seq<NavItem>): seq<PageNode> {
    Page([Block(ISI_HERO, HeroRows(brand.logo, lines), 2),
          Block(ISI_EFFICACY, EfficacyRows(data), 3),
          Block(ISI_STATS, MapTo(data.items, StatsRow), 3),
          Block(ISI_NAV, NavRows(nav), 1)],
         Block(METADATA, MetadataRows(PASI_TITLE, PASI_DESCRIPTION), 2))
  }

  /** The access page: six blocks in a fixed order, a break after all but the metadata, and rows in proportion to the content. */
  lemma AccessPageLayout(brand: Brand, lines: seq<IsiLine>, inds: seq<Indication>, cov: Coverage, sup: Support, nav: seq<NavItem>)
    ensures Alternates(AccessPage(brand, lines, inds, cov, sup, nav))
    ensures Names(AccessPage(brand, lines, inds, cov, sup, nav))
      == [ISI_HERO, ISI_INDICATIONS, ISI_COVERAGE, ISI_SUPPORT, ISI_NAV, METADATA]
    ensures |AccessPage(brand, lines, inds, cov, sup, nav)[0].table.rows| == |lines| + 1
    ensures |AccessPage(brand, lines, inds, cov, sup, nav)[2].table.rows| == |inds| + 2
    ensures |AccessPage(brand, lines, inds, cov, sup, nav)[4].table.rows| == |cov.stats| + 3
    ensures |AccessPage(brand, lines, inds, cov, sup, nav)[6].table.rows| == |sup.cards| + 3
    ensures |AccessPage(brand, lines, inds, cov, sup, nav)[8].table.rows| == 1
  {
    var ts := [Block(ISI_HERO, HeroRows(brand.logo, lines), 2),
               Block(ISI_INDICATIONS, IndicationRows(inds), 2),
               Block(ISI_COVERAGE, CoverageRows(cov), 3),
               Block(ISI_SUPPORT, SupportRows(sup), 2),
               Block(ISI_NAV, NavRows(nav), 1)];
    var last := Block(METADATA, MetadataRows(ACCESS_TITLE, ACCESS_DESCRIPTION), 2);
    PageAlternates(ts, last);
    PageNames(ts, last);
    var p := Page(ts, last);
    assert p[0] == TableNode(ts[0]) && p[2] == TableNode(ts[1]) && p[4] == TableNode(ts[2]);
    assert p[6] == TableNode(ts[3]) && p[8] == TableNode(ts[4]);
  }

  lemma SafetyPageLayout(brand: Brand, lines: seq<IsiLine>, sections: seq<Section>, nav: seq<NavItem>)
    ensures Alternates(SafetyPage(brand, lines, sections, nav))
    ensures Names(SafetyPage(brand, lines, sections, nav)) == [ISI_HERO, ISI_SAFETY, ISI_NAV, METADATA]
    ensures |SafetyPage(brand, lines, sections, nav)[2].table.rows| == |sections| + 1
  {
    var ts := [Block(ISI_HERO, HeroRows(brand.logo, lines), 2),
               Block(ISI_SAFETY, SafetyRows(sections), 2),
               Block(ISI_NAV, NavRows(nav), 1)];
    var last := Block(METADATA, MetadataRows(SAFETY_TITLE, SAFETY_DESCRIPTION), 2);
    PageAlternates(ts, last);
    PageNames(ts, last);
    assert Page(ts, last)[2] == TableNode(ts[1]);
  }

  /** The efficacy page: its stats block has one row per efficacy item, the same items as the efficacy block. */
  lemma PasiPageLayout(brand: Brand, lines: seq<IsiLine>, data: Efficacy, nav: seq<NavItem>)
    ensures Alternates(PasiPage(brand, lines, data, nav))
    ensures Names(PasiPage(brand, lines, data, nav)) == [ISI_HERO, ISI_EFFICACY, ISI_STATS, ISI_NAV, METADATA]
    ensures |PasiPage(brand, lines, data, nav)[2].table.rows| == |data.items| + 1
    ensures |PasiPage(brand, lines, data, nav)[4].table.rows| == |data.items|
  {
    var ts := [Block(ISI_HERO, HeroRows(brand.logo, lines), 2),
               Block(ISI_EFFICACY, EfficacyRows(data), 3),
               Block(ISI_STATS, MapTo(data.items, StatsRow), 3),
               Block(ISI_NAV, NavRows(nav), 1)];
    var last := Block(METADATA, MetadataRows(PASI_TITLE, PASI_DESCRIPTION), 2);
    PageAlternates(ts, last);
    PageNames(ts, last);
    var p := Page(ts, last);
    assert p[2] == TableNode(ts[1]) && p[4] == TableNode(ts[2]);
  }

  /** A scraped value that ends in its only `%` is shown as it was scraped. */
  lemma StatValueRoundTrip(e: StatEl, v: string)
    requires TextOf(e.value) == v + "%" && '%' !in v
    ensures StatRow(StatOf(e)).entries[1] == Str(TextOf(e.value))
  {
    RemoveTrailingPercent(v);
  }

  // ---------------------------------------------------------------------------
  // Building the page body

  method BuildHero(brand: Brand, lines: seq<IsiLine>) returns (t: Table)
    ensures t == Block(ISI_HERO, HeroRows(brand.logo, lines), 2)
  {
    var lineRows := Each(lines, HeroLineRow);
    t := Build(ISI_HERO, [StrCells([LogoCell(brand.logo), ""])] + lineRows, 2, Move, 0);
  }

  method BuildNav(nav: seq<NavItem>) returns (t: Table)
    ensures t == Block(ISI_NAV, NavRows(nav), 1)
  {
    var anchors := Each(nav, NavAnchor);
    t := Build(ISI_NAV, [StrCells([Join(anchors, " ")])], 1, Move, 0);
  }

  method BuildIndications(inds: seq<Indication>) returns (t: Table)
    ensures t == Block(ISI_INDICATIONS, IndicationRows(inds), 2)
  {
    var rows := Each(inds, IndicationRow);
    t := Build(ISI_INDICATIONS, [StrCells(["INDICATIONS", ""])] + rows + [StrCells([PI_ROW, ""])], 2, Move, 0);
  }

  method BuildCoverage(cov: Coverage) returns (t: Table)
    ensures t == Block(ISI_COVERAGE, CoverageRows(cov), 3)
  {
    var rows := Each(cov.stats, StatRow);
    t := Build(ISI_COVERAGE, [StrCells([cov.title]), StrCells(cov.tabs)] + rows + [StrCells([cov.footnote])], 3, Move, 0);
  }

  method BuildSupport(sup: Support) returns (t: Table)
    ensures t == Block(ISI_SUPPORT, SupportRows(sup), 2)
  {
    var rows := Each(sup.cards, CardRow);
    t := Build(ISI_SUPPORT, [StrCells([sup.title, ""])] + rows
      + [StrCells(["<a href=\"" + sup.cta.link + "\">" + sup.cta.caption + "</a>", ""]), StrCells([sup.footnotes, ""])], 2, Move, 0);
  }

  /** `buildAccessPage`: clears the body and appends the access layout. */
  method BuildAccessPage(body: Body, brand: Brand, lines: seq<IsiLine>, inds: seq<Indication>, cov: Coverage,
                         sup: Support, nav: seq<NavItem>) returns (path: string)
    modifies body
    ensures body.children == AccessPage(brand, lines, inds, cov, sup, nav)
    ensures path == "/skyrizi/access"
  {
    var hero := BuildHero(brand, lines);
    var ind := BuildIndications(inds);
    var covT := BuildCoverage(cov);
    var supT := BuildSupport(sup);
    var navT := BuildNav(nav);
    var meta := Build(METADATA, MetadataRows(ACCESS_TITLE, ACCESS_DESCRIPTION), 2, Move, 0);
    WritePage5(body, hero, ind, covT, supT, navT, meta);
    path := "/skyrizi/access";
  }

  /** `buildSafetyPage`. */
  method BuildSafetyPage(body: Body, brand: Brand, lines: seq<IsiLine>, sections: seq<Section>, nav: seq<NavItem>)
    returns (path: string)
    modifies body
    ensures body.children == SafetyPage(brand, lines, sections, nav)
    ensures path == "/skyrizi/safety"
  {
    var hero := BuildHero(brand, lines);
    var secRows := Each(sections, SectionRow);
    var safety := Build(ISI_SAFETY, [StrCells(["Important Safety Information", ""])] + secRows, 2, Move, 0);
    var navT := BuildNav(nav);
    var meta := Build(METADATA, MetadataRows(SAFETY_TITLE, SAFETY_DESCRIPTION), 2, Move, 0);
    WritePage3(body, hero, safety, navT, meta);
    path := "/skyrizi/safety";
  }

  /** `buildPasiPage`. */
  method BuildPasiPage(body: Body, brand: Brand, lines: seq<IsiLine>, data: Efficacy, nav: seq<NavItem>)
    returns (path: string)
    modifies body
    ensures body.children == PasiPage(brand, lines, data, nav)
    ensures path == "/skyrizi/pasi-90-100"
  {
    var hero := BuildHero(brand, lines);
    var effRows := Each(data.items, EfficacyRow);
    var eff := Build(ISI_EFFICACY, [StrCells([data.title])] + effRows, 3, Move, 0);
    var statsRows := Each(data.items, StatsRow);
    var stats := Build(ISI_STATS, statsRows, 3, Move, 0);
    var navT := BuildNav(nav);
    var meta := Build(METADATA, MetadataRows(PASI_TITLE, PASI_DESCRIPTION), 2, Move, 0);
    WritePage4(body, hero, eff, stats, navT, meta);
    path := "/skyrizi/pasi-90-100";
  }

  /** What the extractors return, all together. */
  datatype Extracted = Extracted(brand: Brand, lines: seq<IsiLine>, inds: seq<Indication>, cov: Coverage,
                                 sup: Support, nav: seq<NavItem>, sections: seq<Section>, data: Efficacy)

  function ExtractedOf(d: Scraped): Extracted {
    Extracted(BrandInfo(d.logoSrc, d.subtitle), IsiLines(d.toggles), Indications(d.indications),
              CoverageOf(d.coverageTitle, d.stats, d.coverageFootnote), SupportOf(d.cards, d.cta, d.supportFootnotes),
              NavItems(d.navLinks), SafetySections(d.safety), EfficacyOf(d.efficacy))
  }

  /** The `switch (pageType)`: the safety and efficacy layouts, and the access layout for every other type. */
  function PageOf(t: PageType, x: Extracted): seq<PageNode> {
    match t
    case Safety => SafetyPage(x.brand, x.lines, x.sections, x.nav)
    case Pasi => PasiPage(x.brand, x.lines, x.data, x.nav)
    case _ => AccessPage(x.brand, x.lines, x.inds, x.cov, x.sup, x.nav)
  }

  /** The page the transform builds for a page type from the scraped document. */
  function PageFor(t: PageType, d: Scraped): seq<PageNode> {
    PageOf(t, ExtractedOf(d))
  }

  method ExtractAll(d: Scraped) returns (x: Extracted)
    ensures x == ExtractedOf(d)
  {
    var brand := BrandInfo(d.logoSrc, d.subtitle);
    var lines := ExtractIsiLines(d.toggles);
    var inds := ExtractIndications(d.indications);
    var cov := ExtractCoverage(d.coverageTitle, d.stats, d.coverageFootnote);
    var sup := ExtractSupport(d.cards, d.cta, d.supportFootnotes);
    var nav := ExtractNavigation(d.navLinks);
    var sections := ExtractSafetyInfo(d.safety);
    var data := ExtractEfficacyData(d.efficacy);
    x := Extracted(brand, lines, inds, cov, sup, nav, sections, data);
  }

  /** `transform`: every extractor runs, then the page type picks the layout and the output path. */
  method Transform(body: Body, url: string, d: Scraped) returns (path: string)
    modifies body
    ensures path == PathOf(DetectPageType(url))
    ensures body.children == PageFor(DetectPageType(url), d)
  {
    var pageType := DetectPageType(url);
    var x := ExtractAll(d);
    path := BuildPage(body, pageType, x);
  }

  method BuildPage(body: Body, pageType: PageType, x: Extracted) returns (path: string)
    modifies body
    ensures path == PathOf(pageType)
    ensures body.children == PageOf(pageType, x)
  {
    match pageType
    case Safety =>
      path := BuildSafetyPage(body, x.brand, x.lines, x.sections, x.nav);
    case Pasi =>
      path := BuildPasiPage(body, x.brand, x.lines, x.data, x.nav);
    case _ =>
      path := BuildAccessPage(body, x.brand, x.lines, x.inds, x.cov, x.sup, x.nav);
  }
}
