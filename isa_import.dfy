/**
 * The ISA page importer: it runs the five parsers over the scraped page and writes
 * their rows as block tables. Its table builder takes an explicit column count
 * (one by default), moves element cells into the table and does not pad.
 */
module IsaImport {
  import opened Wrappers
  import opened Scrape
  import opened BlockTable
  import HeroParser
  import IndicationsParser
  import CoverageParser
  import SupportParser
  import NavParser

  /** `createBlock(doc, name, rows, columns = 1)`. */
  function IsaBlock(name: string, rows: seq<RowInput>, columns: int): (t: Table)
    ensures t.name == name && t.colSpan == columns && |t.rows| == |rows|
    ensures forall i | 0 <= i < |rows| :: |t.rows[i]| == |EntriesOf(rows[i])|
  {
    var t := TableOf(name, rows, columns, Move, 0);
    forall i | 0 <= i < |rows| ensures |t.rows[i]| == |EntriesOf(rows[i])| {
      UnpaddedRow(rows[i], Move);
    }
    t
  }

  /** What the parsers read from the scraped document. */
  datatype IsaScraped = IsaScraped(
    logoSrc: Option<string>, subtitle: Option<string>, toggles: seq<ToggleEl>,
    indications: seq<PairEl>,
    coverageTitle: Option<string>, tabs: seq<string>, stats: seq<StatEl>, coverageFootnote: Option<string>,
    supportTitle: Option<string>, cards: seq<PairEl>, cta: Option<Anchor>, supportFootnotes: Option<string>,
    navLinks: seq<Anchor>)

  datatype IsaExtracted = IsaExtracted(
    brand: HeroParser.Brand, lines: seq<HeroParser.IsiLine>, inds: seq<IndicationsParser.Indication>,
    coverage: CoverageParser.Coverage, support: SupportParser.Support, nav: seq<NavParser.NavItem>)

  function ExtractedOf(d: IsaScraped): IsaExtracted {
    IsaExtracted(HeroParser.BrandInfo(d.logoSrc, d.subtitle), HeroParser.IsiLines(d.toggles),
                 IndicationsParser.Indications(d.indications),
                 CoverageParser.CoverageOf(d.coverageTitle, d.tabs, d.stats, d.coverageFootnote),
                 SupportParser.SupportOf(d.supportTitle, d.cards, d.cta, d.supportFootnotes),
                 NavParser.NavItems(d.navLinks))
  }

  /** The six extractor calls at the top of `transform`. */
  method ExtractAll(d: IsaScraped) returns (x: IsaExtracted)
    ensures x == ExtractedOf(d)
  {
    var brand := HeroParser.BrandInfo(d.logoSrc, d.subtitle);
    var lines := HeroParser.ExtractIsiLines(d.toggles);
    var inds := IndicationsParser.ExtractIndications(d.indications);
    var coverage := CoverageParser.ExtractCoverage(d.coverageTitle, d.tabs, d.stats, d.coverageFootnote);
    var support := SupportParser.ExtractSupport(d.supportTitle, d.cards, d.cta, d.supportFootnotes);
    var nav := NavParser.ExtractNavigation(d.navLinks);
    x := IsaExtracted(brand, lines, inds, coverage, support, nav);
  }

  const METADATA_ROWS: seq<RowInput> := [
    StrCells(["title", "SKYRIZI Access - Important Safety Information"]),
    StrCells(["description", "Access information, coverage details, and patient support programs for SKYRIZI (risankizumab-rzaa)"]),
    StrCells(["keywords", "SKYRIZI, risankizumab, psoriasis, psoriatic arthritis, Crohn's disease, AbbVie"])]

  /** The framed blocks, in page order, with their column counts. */
  function IsaTables(x: IsaExtracted): seq<Table> {
    [IsaBlock(ISA_HERO, HeroParser.HeroRows(x.brand, x.lines), 2),
     IsaBlock(ISA_INDICATIONS, IndicationsParser.IndicationRows(x.inds), 2),
     IsaBlock(ISA_COVERAGE, CoverageParser.CoverageRows(x.coverage), 3),
     IsaBlock(ISA_SUPPORT, SupportParser.SupportRows(x.support), 2),
     IsaBlock(ISA_NAV, NavParser.NavRows(x.nav), 1)]
  }

  function IsaPage(x: IsaExtracted): seq<PageNode> {
    Page(IsaTables(x), IsaBlock(METADATA, METADATA_ROWS, 2))
  }

  /**
   * Hero 2, Indications 2, Coverage 3, Support 2, Nav 1, Metadata 2 columns, a section
   * break after each block but the last; the row counts each parser's layout fixes.
   */
  lemma IsaPageLayout(x: IsaExtracted)
    ensures Alternates(IsaPage(x))
    ensures Names(IsaPage(x)) == [ISA_HERO, ISA_INDICATIONS, ISA_COVERAGE, ISA_SUPPORT, ISA_NAV, METADATA]
    ensures IsaPage(x)[0].table.colSpan == 2 && |IsaPage(x)[0].table.rows| == |x.lines| + 1
    ensures IsaPage(x)[2].table.colSpan == 2 && |IsaPage(x)[2].table.rows| == |x.inds| + 2
    ensures IsaPage(x)[4].table.colSpan == 3 && |IsaPage(x)[4].table.rows| == |x.coverage.stats| + 3
    ensures IsaPage(x)[6].table.colSpan == 2 && |IsaPage(x)[6].table.rows| == |x.support.cards| + 3
    ensures IsaPage(x)[8].table.colSpan == 1 && |IsaPage(x)[8].table.rows| == 1
    ensures IsaPage(x)[10].table.colSpan == 2 && |IsaPage(x)[10].table.rows| == 3
  {
    var ts := IsaTables(x);
    var last := IsaBlock(METADATA, METADATA_ROWS, 2);
    PageAlternates(ts, last);
    PageNames(ts, last);
    HeroParser.HeroRowsShape(x.brand, x.lines);
    IndicationsParser.IndicationRowsShape(x.inds);
    CoverageParser.CoverageRowsShape(x.coverage);
    SupportParser.SupportRowsShape(x.support);
    var p := Page(ts, last);
    assert p[0] == TableNode(ts[0]) && p[2] == TableNode(ts[1]) && p[4] == TableNode(ts[2]);
    assert p[6] == TableNode(ts[3]) && p[8] == TableNode(ts[4]) && p[10] == TableNode(last);
  }

  /** `transform`: extract, clear the body, write the six blocks, and target the access page. */
  method Transform(body: Body, d: IsaScraped) returns (path: string)
    modifies body
    ensures body.children == IsaPage(ExtractedOf(d))
    ensures path == "/skyrizi/access"
  {
    var x := ExtractAll(d);
    WritePage(body, x);
    path := "/skyrizi/access";
  }

  /** The body of `transform`: each block is built from its parser's rows, then the page is written. */
  method WritePage(body: Body, x: IsaExtracted)
    modifies body
    ensures body.children == IsaPage(x)
  {
    var heroRows := HeroParser.CreateHeroBlock(x.brand, x.lines);
    var hero := Build(ISA_HERO, heroRows, 2, Move, 0);
    var indRows := IndicationsParser.CreateIndicationsBlock(x.inds);
    var ind := Build(ISA_INDICATIONS, indRows, 2, Move, 0);
    var covRows := CoverageParser.CreateCoverageBlock(x.coverage);
    var cov := Build(ISA_COVERAGE, covRows, 3, Move, 0);
    var supRows := SupportParser.CreateSupportBlock(x.support);
    var sup := Build(ISA_SUPPORT, supRows, 2, Move, 0);
    var nav := Build(ISA_NAV, NavParser.NavRows(x.nav), 1, Move, 0);
    var meta := Build(METADATA, METADATA_ROWS, 2, Move, 0);
    WritePage5(body, hero, ind, cov, sup, nav, meta);
  }
}
