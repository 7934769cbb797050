/**
 * The importer for the ISA access presentation: it writes the page from a fixed content
 * record rather than from the scraped page. Its table builder takes the header span from
 * the first row, moves element cells into the table and does not pad.
 */
module SkyriziImport {
  import opened Text
  import opened Scrape
  import opened BlockTable

  datatype Brand = Brand(name: string, genericName: string, logo: string)
  datatype Condition = Condition(name: string, description: string)
  datatype Indications = Indications(title: string, conditions: seq<Condition>)
  datatype SafetySection = SafetySection(title: string, content: string)
  datatype Safety = Safety(title: string, sections: seq<SafetySection>, piLink: string)
  datatype Stat = Stat(caption: string, percentage: string, description: string)
  datatype Coverage = Coverage(title: string, commercial: Stat, medicare: Stat, benefits: seq<string>, footnote: string)
  datatype Card = Card(title: string, description: string)
  datatype Support = Support(title: string, cards: seq<Card>, ctaText: string, ctaLink: string)
  datatype NavLink = NavLink(caption: string, link: string, active: bool)
  datatype Content = Content(brand: Brand, indications: Indications, safety: Safety, coverage: Coverage,
                             support: Support, navigation: seq<NavLink>)

  const NAVIGATION: seq<NavLink> := [
    NavLink("OVERVIEW", "/overview", false),
    NavLink("DRC", "/drc", false),
    NavLink("JOINTS", "/joints", false),
    NavLink("H2H/SWITCH DATA", "/h2h-switch-data", false),
    NavLink("DOSING", "/dosing", false),
    NavLink("SAFETY", "/safety", false),
    NavLink("ACCESS", "/access", true),
    NavLink("SUMMARY", "/summary", false)
  ]

  /** `ISA_CONTENT`, the record every block is written from. */
  const ISA_CONTENT := Content(
    Brand("SKYRIZI", "risankizumab-rzaa", "/content/dam/skyrizi/logo-skyrizi-gray.png"),
    Indications("INDICATIONS AND IMPORTANT SAFETY INFORMATION FOR SKYRIZI", [
      Condition("Plaque Psoriasis", "SKYRIZI is indicated for the treatment of moderate to severe plaque psoriasis in adults who are candidates for systemic therapy or phototherapy."),
      Condition("Psoriatic Arthritis", "SKYRIZI is indicated for the treatment of active psoriatic arthritis in adults."),
      Condition("Crohn's Disease", "SKYRIZI is indicated for the treatment of moderately to severely active Crohn's disease in adults.")]),
    Safety("Important Safety Information", [
      SafetySection("Hypersensitivity Reactions", "SKYRIZI is contraindicated in patients with a history of serious hypersensitivity reaction to risankizumab-rzaa or any of the excipients. Serious hypersensitivity reactions, including anaphylaxis, have been reported with the use of SKYRIZI. If a serious hypersensitivity reaction occurs, discontinue SKYRIZI and initiate appropriate therapy immediately."),
      SafetySection("Infection", "SKYRIZI may increase the risk of infection. Do not initiate treatment with SKYRIZI in patients with a clinically important active infection until it resolves or is adequately treated. In patients with a chronic infection or a history of recurrent infection, consider the risks and benefits prior to prescribing SKYRIZI."),
      SafetySection("Tuberculosis (TB)", "Prior to initiating treatment with SKYRIZI, evaluate for TB infection and consider treatment in patients with latent or active TB for whom an adequate course of treatment cannot be confirmed. Monitor patients for signs and symptoms of active TB during and after SKYRIZI treatment. Do not administer SKYRIZI to patients with active TB."),
      SafetySection("Hepatotoxicity in Treatment of Crohn's Disease", "Drug-induced liver injury was reported in a patient with Crohn's disease who was hospitalized for a rash during induction dosing of SKYRIZI. For the treatment of Crohn's disease, evaluate liver enzymes and bilirubin at baseline and during induction (12 weeks); monitor thereafter according to routine patient management."),
      SafetySection("Administration of Vaccines", "Avoid use of live vaccines in patients treated with SKYRIZI. Medications that interact with the immune system may increase the risk of infection following administration of live vaccines. Prior to initiating SKYRIZI, complete all age-appropriate vaccinations according to current immunization guidelines."),
      SafetySection("Adverse Reactions", "Most common (\U{2265}1%) adverse reactions associated with SKYRIZI in plaque psoriasis and psoriatic arthritis include upper respiratory infections, headache, fatigue, injection site reactions, and tinea infections.")],
      "https://www.rxabbvie.com/pdf/skyrizi_pi.pdf"),
    Coverage("for Ps & PsA SKYRIZI Patients: Preferred NATIONAL Coverage & Exceptional Support",
      Stat("Commercial", "99%", "PREFERRED COVERAGE"),
      Stat("Medicare Part D", "97%", "PREFERRED COVERAGE"),
      ["With no advanced systemic failure required", "At the lowest branded co-pay/coinsurance tier"],
      "National Commercial and Medicare Part D Formulary coverage under the pharmacy benefit as of December 2023."),
    Support("Encourage your patients to enroll in", [
      Card("AFFORDABILITY", "Eligible commercially insured patients may pay as little as $5 per quarterly dose"),
      Card("One-to-one support", "Insurance Specialists to help navigate insurance and Nurse Ambassadors to help patients start and stay on therapy"),
      Card("BRIDGE PROGRAM ELIGIBILITY", "No-cost product available for eligible patients in the event of a denial in coverage due to step-therapy requirement")],
      "FIND OUT MORE", "/skyrizi-complete"),
    NAVIGATION)

  /**
   * `rows[0]?.length || 1`: the length of the first row, or 1 when there is no first row
   * or its length is missing or zero. A first row given as a lone string contributes the
   * string's length.
   */
  function HeaderSpan(rows: seq<RowInput>): (span: int)
    ensures span >= 1
    ensures rows == [] ==> span == 1
    ensures rows != [] && rows[0].Cells? ==> span == Max(|rows[0].entries|, 1)
  {
    if rows == [] then 1
    else match rows[0]
      case Cells(es) => if |es| > 0 then |es| else 1
      case Lone(e) => if e.Str? && |e.s| > 0 then |e.s| else 1
  }

  /** `createBlock(doc, name, rows)`. */
  function SkyBlock(name: string, rows: seq<RowInput>): Table {
    TableOf(name, rows, HeaderSpan(rows), Move, 0)
  }

  /** One generated row per input row, one cell per entry and no padding; elements are moved in. */
  lemma SkyBlockShape(name: string, rows: seq<RowInput>, i: nat)
    requires i < |rows|
    ensures SkyBlock(name, rows).colSpan >= 1 && |SkyBlock(name, rows).rows| == |rows|
    ensures |SkyBlock(name, rows).rows[i]| == |EntriesOf(rows[i])|
    ensures forall j | 0 <= j < |EntriesOf(rows[i])| :: SkyBlock(name, rows).rows[i][j] == TdOf(EntriesOf(rows[i])[j], Move)
  {
    UnpaddedRow(rows[i], Move);
  }

  method CreateBlock(name: string, rows: seq<RowInput>) returns (t: Table)
    ensures t == SkyBlock(name, rows)
  {
    var span := HeaderSpan(rows);
    t := Build(name, rows, span, Move, 0);
  }

  // ---------------------------------------------------------------------------
  // Row layouts

  function LogoImg(b: Brand): string {
    "<img src=\"" + b.logo + "\" alt=\"" + b.name + "\">"
  }

  function Headline(c: Content): string {
    "<div><h1>" + c.indications.title + " <span class=\"simple\">(" + c.brand.genericName + ")</span><sup>1</sup></h1></div>"
  }

  /** `buildHeroBlock`: the logo element and the headline element, one per row. */
  function HeroRows(c: Content): seq<RowInput> {
    [Cells([Element(LogoImg(c.brand))]), Cells([Element(Headline(c))])]
  }

  function SafetyRow(s: SafetySection): RowInput {
    StrCells([s.title, "<p>" + s.content + "</p>"])
  }

  /** `buildSafetyBlock`: the heading, then one row per section. */
  function SafetyRows(s: Safety): seq<RowInput> {
    [StrCells(["<h2>" + s.title + "</h2>"])] + MapTo(s.sections, SafetyRow)
  }

  function ConditionRow(c: Condition): RowInput {
    StrCells(["<strong>" + c.name + ":</strong>", "<p>" + c.description + "</p>"])
  }

  function PiParagraph(link: string): string {
    "<p>Please see <a href=\"" + link + "\">Full Prescribing Information</a>.</p>"
  }

  /** `buildIndicationsBlock`: the heading, one row per condition, then the prescribing-information link. */
  function IndicationRows(ind: Indications, piLink: string): seq<RowInput> {
    [StrCells(["<h2>INDICATIONS</h2>"])] + MapTo(ind.conditions, ConditionRow) + [StrCells([PiParagraph(piLink)])]
  }

  function StatRow(s: Stat): RowInput {
    StrCells([s.caption, s.percentage, s.description])
  }

  function Li(b: string): string {
    "<li>" + b + "</li>"
  }

  /** `benefits.map((b) => `<li>${b}</li>`).join('')`. */
  function BenefitItems(bs: seq<string>): string {
    Join(MapTo(bs, Li), "")
  }

  function BenefitsCell(c: Coverage): string {
    "<h2>Preferred coverage means SKYRIZI is AVAILABLE:</h2><ul>" + BenefitItems(c.benefits) + "</ul><p>" + c.footnote + "</p>"
  }

  /** `buildCoverageBlock`: title, commercial, medicare, then the benefits and footnote. */
  function CoverageRows(c: Coverage): seq<RowInput> {
    [StrCells(["<h2>" + c.title + "</h2>"]), StatRow(c.commercial), StatRow(c.medicare), StrCells([BenefitsCell(c)])]
  }

  function CardRow(c: Card): RowInput {
    StrCells(["", "<h5>" + c.title + "</h5><p>" + c.description + "</p>"])
  }

  /** `buildSupportBlock`: the heading, one row per card, then the call to action. */
  function SupportRows(s: Support): seq<RowInput> {
    [StrCells(["<h2>" + s.title + "</h2>"])] + MapTo(s.cards, CardRow)
    + [StrCells(["<a href=\"" + s.ctaLink + "\">" + s.ctaText + "</a>"])]
  }

  function NavAnchor(item: NavLink): string {
    if item.active then "<a href=\"" + item.link + "\" class=\"active\">" + item.caption + "</a>"
    else "<a href=\"" + item.link + "\">" + item.caption + "</a>"
  }

  /** `buildNavBlock`: every anchor, in order, joined by single spaces into one cell. */
  function NavCell(items: seq<NavLink>): string {
    Join(MapTo(items, NavAnchor), " ")
  }

  function NavRows(items: seq<NavLink>): seq<RowInput> {
    [StrCells([NavCell(items)])]
  }

  function MetadataRows(b: Brand): seq<RowInput> {
    [StrCells(["title", "SKYRIZI Access - US-SKZD-230597"]),
     StrCells(["description", "SKYRIZI access, coverage, and patient support information for healthcare providers"]),
     StrCells(["og:image", b.logo])]
  }

  // ---------------------------------------------------------------------------
  // Properties of the layouts

  /** The safety block has the heading row and then one two-cell row per section. */
  lemma SafetyBlockShape(s: Safety)
    ensures |SafetyRows(s)| == 1 + |s.sections|
    ensures HeaderSpan(SafetyRows(s)) == 1
    ensures forall i | 0 <= i < |s.sections| :: SafetyRows(s)[i + 1] == StrCells([s.sections[i].title, "<p>" + s.sections[i].content + "</p>"])
  {
  }

  /**
   * The indications block has the heading, one row per condition whose first cell is the
   * condition's name followed by a colon, and the link row last.
   */
  lemma IndicationsBlockShape(ind: Indications, piLink: string)
    ensures |IndicationRows(ind, piLink)| == |ind.conditions| + 2
    ensures forall i | 0 <= i < |ind.conditions| ::
      IndicationRows(ind, piLink)[i + 1].entries[0] == Str("<strong>" + ind.conditions[i].name + ":</strong>")
    ensures IndicationRows(ind, piLink)[|ind.conditions| + 1] == StrCells([PiParagraph(piLink)])
  {
  }

  /** The benefits list is one `<li>` per benefit, in order. */
  lemma BenefitsInOrder(bs: seq<string>)
    ensures BenefitItems(bs) == ConcatMap(bs, Li)
  {
    JoinMapped(bs, Li);
  }

  /**
   * The coverage block has four rows: the heading, the commercial and the Medicare
   * statistic as caption, percentage and description, and one cell listing every benefit
   * in order before the footnote; its header spans one column.
   */
  lemma CoverageBlockShape(c: Coverage)
    ensures |CoverageRows(c)| == 4 && HeaderSpan(CoverageRows(c)) == 1
    ensures CoverageRows(c)[1].entries == [Str(c.commercial.caption), Str(c.commercial.percentage), Str(c.commercial.description)]
    ensures CoverageRows(c)[2].entries == [Str(c.medicare.caption), Str(c.medicare.percentage), Str(c.medicare.description)]
    ensures CoverageRows(c)[3] == StrCells(["<h2>Preferred coverage means SKYRIZI is AVAILABLE:</h2><ul>" + ConcatMap(c.benefits, Li) + "</ul><p>" + c.footnote + "</p>"])
  {
    BenefitsInOrder(c.benefits);
  }

  /** The support block has the heading, one row per card, and the call to action last. */
  lemma SupportBlockShape(s: Support)
    ensures |SupportRows(s)| == |s.cards| + 2
    ensures forall i | 0 <= i < |s.cards| :: SupportRows(s)[i + 1] == CardRow(s.cards[i])
  {
    var head := [StrCells(["<h2>" + s.title + "</h2>"])];
    var cards := MapTo(s.cards, CardRow);
    var cta := [StrCells(["<a href=\"" + s.ctaLink + "\">" + s.ctaText + "</a>"])];
    assert SupportRows(s) == head + cards + cta;
    forall i | 0 <= i < |s.cards| ensures (head + cards + cta)[i + 1] == CardRow(s.cards[i]) {
      assert (head + cards + cta)[i + 1] == cards[i];
    }
  }

  /** Only an active item's anchor carries a class attribute after its link. */
  lemma ActiveMarked(item: NavLink)
    ensures item.active <==> StartsWith(NavAnchor(item), "<a href=\"" + item.link + "\" class=")
  {
    var p := "<a href=\"" + item.link + "\"";
    if !item.active {
      var a := NavAnchor(item);
      assert a == p + ">" + item.caption + "</a>";
      assert a[|p|] == '>';
      var q := p + " class=";
      assert q[|p|] == ' ';
      assert !StartsWith(a, q) by {
        if |q| <= |a| {
          assert a[..|q|][|p|] == '>';
        }
      }
    } else {
      assert NavAnchor(item) == p + " class=" + "\"active\">" + item.caption + "</a>";
    }
  }

  /** The fixed navigation has exactly one active item, ACCESS. */
  lemma OneActiveItem()
    ensures forall i | 0 <= i < |NAVIGATION| :: NAVIGATION[i].active <==> i == 6
    ensures NAVIGATION[6].caption == "ACCESS"
  {
  }

  // ---------------------------------------------------------------------------
  // Building the page

  method BuildSafetyBlock(s: Safety) returns (t: Table)
    ensures t == SkyBlock(ISA_SAFETY, SafetyRows(s))
  {
    var rows := [StrCells(["<h2>" + s.title + "</h2>"])];
    var more := Each(s.sections, SafetyRow);
    rows := rows + more;
    t := CreateBlock(ISA_SAFETY, rows);
  }

  method BuildIndicationsBlock(ind: Indications, piLink: string) returns (t: Table)
    ensures t == SkyBlock(ISA_INDICATIONS, IndicationRows(ind, piLink))
  {
    var rows := [StrCells(["<h2>INDICATIONS</h2>"])];
    var more := Each(ind.conditions, ConditionRow);
    rows := rows + more;
    rows := rows + [StrCells([PiParagraph(piLink)])];
    t := CreateBlock(ISA_INDICATIONS, rows);
  }

  method BuildSupportBlock(s: Support) returns (t: Table)
    ensures t == SkyBlock(ISA_SUPPORT, SupportRows(s))
  {
    var rows := [StrCells(["<h2>" + s.title + "</h2>"])];
    var more := Each(s.cards, CardRow);
    rows := rows + more;
    rows := rows + [StrCells(["<a href=\"" + s.ctaLink + "\">" + s.ctaText + "</a>"])];
    t := CreateBlock(ISA_SUPPORT, rows);
  }

  /** The framed blocks of the page, in order. */
  function SkyTables(c: Content): seq<Table> {
    [SkyBlock(ISA_HERO, HeroRows(c)),
     SkyBlock(ISA_SAFETY, SafetyRows(c.safety)),
     SkyBlock(ISA_INDICATIONS, IndicationRows(c.indications, c.safety.piLink)),
     SkyBlock(ISA_COVERAGE, CoverageRows(c.coverage)),
     SkyBlock(ISA_SUPPORT, SupportRows(c.support)),
     SkyBlock(ISA_NAV, NavRows(c.navigation))]
  }

  function SkyPage(c: Content): seq<PageNode> {
    Page(SkyTables(c), SkyBlock(METADATA, MetadataRows(c.brand)))
  }

  /** Seven tables, a section break after each but the last, in the fixed order. */
  lemma SkyPageLayout(c: Content)
    ensures Alternates(SkyPage(c))
    ensures |SkyPage(c)| == 13
    ensures Names(SkyPage(c)) == [ISA_HERO, ISA_SAFETY, ISA_INDICATIONS, ISA_COVERAGE,
                                  ISA_SUPPORT, ISA_NAV, METADATA]
    ensures SkyPage(c)[10].table.rows == [[HtmlTd(NavCell(c.navigation))]]
  {
    var ts := SkyTables(c);
    var last := SkyBlock(METADATA, MetadataRows(c.brand));
    PageAlternates(ts, last);
    PageNames(ts, last);
    assert Page(ts, last)[10] == TableNode(ts[5]);
    var nav := ts[5];
    assert |NavRows(c.navigation)| == 1;
    var tds := RowTds(NavRows(c.navigation)[0], Move, 0);
    assert |tds| == 1 && tds[0] == HtmlTd(NavCell(c.navigation));
    assert tds == [HtmlTd(NavCell(c.navigation))];
    assert nav.rows == [tds];
  }

  /** `transform`: clear the body, write the seven blocks, and target the access page. */
  method Transform(body: Body) returns (path: string)
    modifies body
    ensures body.children == SkyPage(ISA_CONTENT)
    ensures path == "/skyrizi/access"
  {
    WritePage(body, ISA_CONTENT);
    path := "/skyrizi/access";
  }

  /** The body of `transform`, for any content record: the seven blocks in order. */
  method WritePage(body: Body, c: Content)
    modifies body
    ensures body.children == SkyPage(c)
  {
    var hero := CreateBlock(ISA_HERO, HeroRows(c));
    var safety := BuildSafetyBlock(c.safety);
    var ind := BuildIndicationsBlock(c.indications, c.safety.piLink);
    var cov := CreateBlock(ISA_COVERAGE, CoverageRows(c.coverage));
    var sup := BuildSupportBlock(c.support);
    var nav := CreateBlock(ISA_NAV, NavRows(c.navigation));
    var meta := CreateBlock(METADATA, MetadataRows(c.brand));
    WritePage6(body, hero, safety, ind, cov, sup, nav, meta);
  }
}
