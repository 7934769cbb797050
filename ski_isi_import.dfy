/**
 * The fixed-content importer for the access page: apart from the logo source, every
 * block it writes carries hard-coded rows. Its table builder clones element cells and
 * pads every row with empty cells up to the column count.
 */
module SkiIsiImport {
  import opened Wrappers
  import opened BlockTable

  /** `createBlockTable(doc, name, rows, columns)`. */
  function IsiBlock(name: string, rows: seq<RowInput>, columns: int): (t: Table)
    ensures t.name == name && t.colSpan == columns && |t.rows| == |rows|
    ensures forall i | 0 <= i < |rows| :: |t.rows[i]| >= columns
    ensures FullWidth(t)
    ensures forall i, j | 0 <= i < |rows| && 0 <= j < |t.rows[i]| :: !t.rows[i][j].MovedTd?
  {
    var t := TableOf(name, rows, columns, Copy, columns);
    forall i | 0 <= i < |rows| ensures |t.rows[i]| >= columns {
      PaddedRowsAreFull(name, rows, columns, Copy, columns, i);
    }
    forall i, j | 0 <= i < |rows| && 0 <= j < |t.rows[i]| ensures !t.rows[i][j].MovedTd? {
      CopyMovesNothing(name, rows, columns, columns, i, j);
    }
    t
  }

  /** Every table's rows are at least as wide as its header span. */
  predicate FullWidth(t: Table) {
    forall i | 0 <= i < |t.rows| :: |t.rows[i]| >= t.colSpan
  }

  const DEFAULT_LOGO := "./images/logo-skyrizi.svg"

  /** `extractLogo`: the matched image's source, or the bundled logo when no image matches. */
  function ExtractLogo(found: Option<string>): (src: string)
    ensures found.Some? ==> src == found.value
    ensures found.None? ==> src == DEFAULT_LOGO
  {
    match found
    case Some(s) => s
    case None => DEFAULT_LOGO
  }

  function LogoImg(src: string): string {
    "<img src=\"" + src + "\" alt=\"SKYRIZI Logo\">"
  }

  const SEE_PI := "See Full Prescribing Information"
  const HERO_SKYRIZI := StrCells(["Tap here", "for SKYRIZI Indications and additional Important Safety Information. <a href=\"https://www.rxabbvie.com/pdf/skyrizi_pi.pdf\">" + SEE_PI + "</a>"])
  const HERO_HUMIRA := StrCells(["Tap here", "for HUMIRA Indications and Important Safety Information, including BOXED WARNING. <a href=\"https://www.rxabbvie.com/pdf/humira.pdf\">" + SEE_PI + "</a>"])

  /** The hero rows: the logo image, then the SKYRIZI and HUMIRA safety lines. */
  function HeroRows(logo: string): (rows: seq<RowInput>)
    ensures |rows| == 3
    ensures rows[0] == StrCells([LogoImg(logo), ""])
  {
    [StrCells([LogoImg(logo), ""]), HERO_SKYRIZI, HERO_HUMIRA]
  }

  const INDICATION_ROWS: seq<RowInput> := [
    StrCells(["INDICATIONS", ""]),
    StrCells(["Plaque Psoriasis:", "SKYRIZI is indicated for the treatment of moderate to severe plaque psoriasis in adults who are candidates for systemic therapy or phototherapy."]),
    StrCells(["Psoriatic Arthritis:", "SKYRIZI is indicated for the treatment of active psoriatic arthritis in adults."]),
    StrCells(["Crohn's Disease:", "SKYRIZI is indicated for the treatment of moderately to severely active Crohn's disease in adults."]),
    StrCells(["Please see <a href=\"https://www.rxabbvie.com/pdf/skyrizi_pi.pdf\">Full Prescribing Information</a>.", ""])
  ]

  const PREFERRED := "PREFERRED COVERAGE<sup>2</sup>*\U{2020}"

  const COVERAGE_ROWS: seq<RowInput> := [
    StrCells(["for Ps &amp; PsA SKYRIZI Patients: Preferred NATIONAL Coverage &amp; Exceptional Support", "", ""]),
    StrCells(["Overview", "National", "Local"]),
    StrCells(["Commercial", "99%", PREFERRED]),
    StrCells(["Medicare Part D", "97%", PREFERRED]),
    StrCells(["<strong>Preferred coverage means SKYRIZI is AVAILABLE:</strong> With no advanced systemic failure required\U{2021} At the lowest branded co-pay/coinsurance tier. National Commercial and Medicare Part D Formulary coverage under the pharmacy benefit as of December 2023.", "", ""])
  ]

  const SUPPORT_ROWS: seq<RowInput> := [
    StrCells(["Encourage your patients to enroll in", ""]),
    StrCells(["$5", "<strong>AFFORDABILITY</strong> Eligible commercially insured patients may pay as little as $5 per quarterly dose\U{00A7}"]),
    StrCells(["support", "<strong>ONE-TO-ONE SUPPORT</strong> Insurance Specialists to help navigate insurance and Nurse Ambassadors\U{2225} to help patients start and stay on therapy"]),
    StrCells(["bridge", "<strong>BRIDGE PROGRAM ELIGIBILITY</strong> No-cost product available for eligible patients in the event of a denial in coverage due to step-therapy requirement\U{00B6}"]),
    StrCells(["<a href=\"/skyrizi-complete\">FIND OUT MORE</a>", ""]),
    StrCells(["\U{2021}Advanced systemics inclusive of PDE4 inhibitors, JAK inhibitors, or biologics. \U{2225}Nurse Ambassadors are provided by AbbVie and do not provide medical advice.", ""])
  ]

  const NAV_ROWS: seq<RowInput> := [
    StrCells(["<a href=\"/content/skyrizi/overview\">OVERVIEW</a> <a href=\"/content/skyrizi/h2h\">H2H</a> <a href=\"/content/skyrizi/pasi-90-100\">PASI 90-100</a> <a href=\"/content/skyrizi/safety\">SAFETY</a> <a href=\"/content/skyrizi/access\">ACCESS</a>"])
  ]

  const METADATA_ROWS: seq<RowInput> := [
    StrCells(["title", "SKYRIZI Access - Coverage &amp; Support"]),
    StrCells(["description", "Access information, coverage details, and patient support programs for SKYRIZI"])
  ]

  /** The blocks that are each followed by a section break, in page order. */
  function IsiTables(logo: string): seq<Table> {
    [IsiBlock(ISI_HERO, HeroRows(logo), 2),
     IsiBlock(ISI_INDICATIONS, INDICATION_ROWS, 2),
     IsiBlock(ISI_COVERAGE, COVERAGE_ROWS, 3),
     IsiBlock(ISI_SUPPORT, SUPPORT_ROWS, 2),
     IsiBlock(ISI_NAV, NAV_ROWS, 1)]
  }

  function IsiPage(logo: string): seq<PageNode> {
    Page(IsiTables(logo), IsiBlock(METADATA, METADATA_ROWS, 2))
  }

  /**
   * The rebuilt page: Hero, Indications, Coverage, Support, Nav, then Metadata, with a
   * section break after every block but the last; every row is padded to its block's width.
   */
  lemma IsiPageLayout(logo: string)
    ensures Alternates(IsiPage(logo))
    ensures Names(IsiPage(logo))
      == [ISI_HERO, ISI_INDICATIONS, ISI_COVERAGE, ISI_SUPPORT, ISI_NAV, METADATA]
    ensures forall k | 0 <= k < |IsiPage(logo)| && IsiPage(logo)[k].TableNode? :: FullWidth(IsiPage(logo)[k].table)
    ensures IsiPage(logo)[0] == TableNode(IsiBlock(ISI_HERO, HeroRows(logo), 2))
    ensures IsiPage(logo)[0].table.rows[0][0] == HtmlTd(LogoImg(logo))
  {
    var ts := IsiTables(logo);
    var last := IsiBlock(METADATA, METADATA_ROWS, 2);
    PageAlternates(ts, last);
    PageNames(ts, last);
    PageKeeps(ts, last, FullWidth);
    assert Page(ts, last)[0] == TableNode(ts[0]);
    assert HeroRows(logo)[0].entries[0] == Str(LogoImg(logo));
  }

  /** `createBlockTable(doc, name, rows, columns)`, as the script runs it. */
  method BuildIsi(name: string, rows: seq<RowInput>, columns: int) returns (t: Table)
    ensures t == IsiBlock(name, rows, columns)
  {
    t := Build(name, rows, columns, Copy, columns);
  }

  /** `transform`: clear the body, write the six blocks, and target the access page. */
  method Transform(body: Body, logoMatch: Option<string>) returns (path: string)
    modifies body
    ensures body.children == IsiPage(ExtractLogo(logoMatch))
    ensures path == "/skyrizi/access"
  {
    var logo := ExtractLogo(logoMatch);
    var hero := BuildIsi(ISI_HERO, HeroRows(logo), 2);
    var ind := BuildIsi(ISI_INDICATIONS, INDICATION_ROWS, 2);
    var cov := BuildIsi(ISI_COVERAGE, COVERAGE_ROWS, 3);
    var sup := BuildIsi(ISI_SUPPORT, SUPPORT_ROWS, 2);
    var nav := BuildIsi(ISI_NAV, NAV_ROWS, 1);
    var meta := BuildIsi(METADATA, METADATA_ROWS, 2);
    WritePage5(body, hero, ind, cov, sup, nav, meta);
    path := "/skyrizi/access";
  }
}
