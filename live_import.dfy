/**
 * The live-page importer for the coverage and access page: it reads whatever the live
 * page offers, emits a block only when its content was found, pads every row to the
 * block's column count with cloned cells, and picks the output path from the URL.
 */
module LiveImport {
  import opened Wrappers
  import opened Text
  import opened Scrape
  import opened BlockTable

  // ---------------------------------------------------------------------------
  // Scraped elements

  /** A heading of the support area: its text and the text of the next paragraph in its container. */
  datatype HeadingEl = HeadingEl(text: string, description: Option<string>)

  /** An element of the safety region: its text and its next sibling's text. */
  datatype RegionEl = RegionEl(text: string, next: Option<string>)

  datatype LiveScraped = LiveScraped(
    logoSrc: Option<string>,
    h1: Option<string>, h2s: seq<string>, footnote: Option<string>,
    paragraphs: seq<string>,
    headings: seq<HeadingEl>,
    safetyRegion: Option<seq<RegionEl>>,
    title: string, description: Option<string>, keywords: Option<string>)

  datatype CoverageStats = CoverageStats(headline: string, commercial: string, medicare: string, footnote: string)
  datatype SupportCard = SupportCard(title: string, description: string)
  datatype SafetySection = SafetySection(title: string, content: string)
  datatype Metadata = Metadata(title: string, description: string, keywords: string)

  /** `createBlockTable`: element cells are cloned and every row is padded with empty cells to `columns`. */
  function LiveBlock(name: string, rows: seq<RowInput>, columns: int): Table {
    TableOf(name, rows, columns, Copy, columns)
  }

  /** `extractLogo`: the logo's source, or "" when there is no logo image. */
  function Logo(src: Option<string>): string {
    GetOr(src, "")
  }

  // ---------------------------------------------------------------------------
  // Coverage statistics

  /** The trimmed text of the last heading that contains `k`, or "" when none does. */
  function LastWith(hs: seq<string>, k: string): string {
    if hs == [] then ""
    else if Contains(hs[|hs| - 1], k) then Trim(hs[|hs| - 1])
    else LastWith(hs[..|hs| - 1], k)
  }

  /** No heading contains `k`: the value stays empty. */
  lemma {:induction false} LastWithNone(hs: seq<string>, k: string)
    requires forall i | 0 <= i < |hs| :: !Contains(hs[i], k)
    ensures LastWith(hs, k) == ""
  {
    if hs != [] {
      var init := hs[..|hs| - 1];
      assert forall i | 0 <= i < |init| :: init[i] == hs[i];
      LastWithNone(init, k);
    }
  }

  /** The value is the trimmed text of the last heading containing `k`: later headings overwrite earlier ones. */
  lemma {:induction false} LastWithIsLast(hs: seq<string>, k: string, i: nat)
    requires i < |hs| && Contains(hs[i], k)
    requires forall j | i < j < |hs| :: !Contains(hs[j], k)
    ensures LastWith(hs, k) == Trim(hs[i])
  {
    if i < |hs| - 1 {
      var init := hs[..|hs| - 1];
      assert init[i] == hs[i];
      assert forall j | i < j < |init| :: init[j] == hs[j];
      LastWithIsLast(init, k, i);
    }
  }

  function CoverageStatsOf(h1: Option<string>, h2s: seq<string>, footnote: Option<string>): CoverageStats {
    CoverageStats(TextOf(h1), LastWith(h2s, "99"), LastWith(h2s, "97"), TextOf(footnote))
  }

  /** `extractCoverageStats`: later headings overwrite earlier ones; one heading may set both values. */
  method ExtractCoverageStats(h1: Option<string>, h2s: seq<string>, footnote: Option<string>) returns (stats: CoverageStats)
    ensures stats == CoverageStatsOf(h1, h2s, footnote)
  {
    stats := CoverageStats("", "", "", "");
    if h1.Some? {
      stats := stats.(headline := Trim(h1.value));
    }
    var i := 0;
    while i < |h2s|
      invariant 0 <= i <= |h2s|
      invariant stats.headline == TextOf(h1) && stats.footnote == ""
      invariant stats.commercial == LastWith(h2s[..i], "99")
      invariant stats.medicare == LastWith(h2s[..i], "97")
    {
      var text := h2s[i];
      assert h2s[..i + 1][..i] == h2s[..i];
      if Contains(text, "99") {
        stats := stats.(commercial := Trim(text));
      }
      if Contains(text, "97") {
        stats := stats.(medicare := Trim(text));
      }
      i := i + 1;
    }
    assert h2s[..i] == h2s;
    if footnote.Some? {
      stats := stats.(footnote := Trim(footnote.value));
    }
  }

  // ---------------------------------------------------------------------------
  // Indications

  predicate NamesCondition(text: string) {
    Contains(text, "Plaque Psoriasis:") || Contains(text, "Psoriatic Arthritis:")
    || Contains(text, "Crohn's Disease:") || Contains(text, "Ulcerative Colitis:")
  }

  /** `extractIndications`: the trimmed paragraphs that name a condition, in order; no defaults. */
  function IndicationsOf(ps: seq<string>): seq<string> {
    Keep(ps, NamesCondition, Trim)
  }

  method ExtractIndications(ps: seq<string>) returns (r: seq<string>)
    ensures r == IndicationsOf(ps)
  {
    r := Collect(ps, NamesCondition, Trim);
  }

  /** An indication is split after its first colon, the remainder trimmed; without a colon the second cell is empty. */
  function ColonSplit(ind: string): (cells: seq<string>)
    ensures |cells| == 2
    ensures !Contains(ind, ":") ==> cells == [ind, ""]
    ensures Contains(ind, ":") ==>
      EndsWith(cells[0], ":") && !Contains(cells[0][..|cells[0]| - 1], ":")
      && StartsWith(ind, cells[0]) && cells[1] == Trim(ind[|cells[0]|..])
  {
    var c := IndexOf(ind, ":");
    if c > -1 then
      var head := ind[..c + 1];
      NoColonBefore(ind, c);
      assert head[c..] == ind[c..c + 1];
      assert head[..c] == ind[..c];
      assert head == ind[..|head|];
      [head, Trim(ind[c + 1..])]
    else [ind, ""]
  }

  lemma NoColonBefore(ind: string, c: int)
    requires 0 <= c < |ind| && c == IndexOf(ind, ":")
    ensures !Contains(ind[..c], ":")
  {
    var head := ind[..c];
    forall j | 0 <= j < c ensures head[j] != ':' {
      assert !StartsWith(ind[j..], ":");
      assert ind[j..][..1] == [ind[j]];
    }
    ContainsChar(head, ':');
  }

  // ---------------------------------------------------------------------------
  // Support cards

  /** The card a heading announces, by keyword in its upper-cased text, in this order of preference. */
  function CardTitle(text: string): (t: Option<string>)
    ensures t.Some? ==> t.value in {"AFFORDABILITY", "ACCESS SUPPORT", "BRIDGING PATIENTS"}
    ensures t.None? <==> !Contains(Upper(text), "AFFORDABILITY") && !Contains(Upper(text), "ACCESS SUPPORT")
                         && !Contains(Upper(text), "FIELD REIMBURSEMENT") && !Contains(Upper(text), "BRIDGING")
                         && !Contains(Upper(text), "BRIDGE PROGRAM")
    ensures Contains(Upper(text), "AFFORDABILITY") ==> t == Some("AFFORDABILITY")
    ensures !Contains(Upper(text), "AFFORDABILITY")
            && (Contains(Upper(text), "ACCESS SUPPORT") || Contains(Upper(text), "FIELD REIMBURSEMENT"))
            ==> t == Some("ACCESS SUPPORT")
    ensures !Contains(Upper(text), "AFFORDABILITY") && !Contains(Upper(text), "ACCESS SUPPORT")
            && !Contains(Upper(text), "FIELD REIMBURSEMENT")
            && (Contains(Upper(text), "BRIDGING") || Contains(Upper(text), "BRIDGE PROGRAM"))
            ==> t == Some("BRIDGING PATIENTS")
  {
    var u := Upper(text);
    if Contains(u, "AFFORDABILITY") then Some("AFFORDABILITY")
    else if Contains(u, "ACCESS SUPPORT") || Contains(u, "FIELD REIMBURSEMENT") then Some("ACCESS SUPPORT")
    else if Contains(u, "BRIDGING") || Contains(u, "BRIDGE PROGRAM") then Some("BRIDGING PATIENTS")
    else None
  }

  predicate AnnouncesCard(h: HeadingEl) {
    CardTitle(h.text).Some?
  }

  function CardOf(h: HeadingEl): SupportCard {
    SupportCard(GetOr(CardTitle(h.text), ""), Trim(GetOr(h.description, "")))
  }

  function SupportCardsOf(hs: seq<HeadingEl>): seq<SupportCard> {
    Keep(hs, AnnouncesCard, CardOf)
  }

  method ExtractSupportCards(hs: seq<HeadingEl>) returns (r: seq<SupportCard>)
    ensures r == SupportCardsOf(hs)
  {
    r := Collect(hs, AnnouncesCard, CardOf);
  }

  /** Every card carries one of the three fixed titles. */
  lemma CardTitlesFixed(hs: seq<HeadingEl>)
    ensures forall j | 0 <= j < |SupportCardsOf(hs)| ::
      SupportCardsOf(hs)[j].title in {"AFFORDABILITY", "ACCESS SUPPORT", "BRIDGING PATIENTS"}
  {
    KeepAll(hs, AnnouncesCard, CardOf, (c: SupportCard) => c.title in {"AFFORDABILITY", "ACCESS SUPPORT", "BRIDGING PATIENTS"});
  }

  // ---------------------------------------------------------------------------
  // Safety sections

  const SAFETY_KEYWORDS := ["Hypersensitivity", "Infection", "Tuberculosis", "Vaccines", "Adverse Reactions"]

  function SectionOf(e: RegionEl): SafetySection {
    SafetySection(Trim(e.text), TextOf(e.next))
  }

  function MentionsKeyword(k: string): RegionEl -> bool {
    (e: RegionEl) => Contains(e.text, k)
  }

  /** One pass over the region's elements per keyword, in keyword order. */
  function SectionsFor(ks: seq<string>, els: seq<RegionEl>): seq<SafetySection> {
    if ks == [] then []
    else SectionsFor(ks[..|ks| - 1], els) + Keep(els, MentionsKeyword(ks[|ks| - 1]), SectionOf)
  }

  /** `extractSafetyInfo`: nothing without a safety region. */
  function SafetyInfoOf(region: Option<seq<RegionEl>>): seq<SafetySection> {
    match region
    case None => []
    case Some(els) => SectionsFor(SAFETY_KEYWORDS, els)
  }

  method ExtractSafetyInfo(region: Option<seq<RegionEl>>) returns (sections: seq<SafetySection>)
    ensures sections == SafetyInfoOf(region)
  {
    sections := [];
    if region.None? {
      return;
    }
    sections := SectionsLoop(SAFETY_KEYWORDS, region.value);
  }

  /** `headings.forEach((keyword) => elements.forEach(...))`. */
  method SectionsLoop(ks: seq<string>, els: seq<RegionEl>) returns (sections: seq<SafetySection>)
    ensures sections == SectionsFor(ks, els)
  {
    sections := [];
    var n := 0;
    while n < |ks|
      invariant 0 <= n <= |ks|
      invariant sections == SectionsFor(ks[..n], els)
    {
      assert ks[..n + 1][..n] == ks[..n];
      var found := Collect(els, MentionsKeyword(ks[n]), SectionOf);
      sections := sections + found;
      n := n + 1;
    }
    assert ks[..n] == ks;
  }

  /** `s` is the section of a region element mentioning one of the keywords. */
  ghost predicate Sourced(ks: seq<string>, els: seq<RegionEl>, s: SafetySection) {
    exists m | 0 <= m < |ks| :: ComesFrom(els, MentionsKeyword(ks[m]), SectionOf, s)
  }

  /** Every safety section comes from a region element that mentions one of the keywords. */
  lemma {:induction false} SectionsSound(ks: seq<string>, els: seq<RegionEl>)
    ensures forall j | 0 <= j < |SectionsFor(ks, els)| :: Sourced(ks, els, SectionsFor(ks, els)[j])
  {
    if ks != [] {
      var init := ks[..|ks| - 1];
      var k := ks[|ks| - 1];
      SectionsSound(init, els);
      KeepSound(els, MentionsKeyword(k), SectionOf);
      var a := SectionsFor(init, els);
      var b := Keep(els, MentionsKeyword(k), SectionOf);
      var r := SectionsFor(ks, els);
      assert r == a + b;
      forall j | 0 <= j < |r| ensures Sourced(ks, els, r[j]) {
        if j < |a| {
          assert r[j] == a[j];
          SourcedWiden(ks, els, a[j]);
        } else {
          assert r[j] == b[j - |a|];
          SourcedLast(ks, els, r[j]);
        }
      }
    }
  }

  /** A section sourced by the keywords but the last is sourced by all of them. */
  lemma SourcedWiden(ks: seq<string>, els: seq<RegionEl>, s: SafetySection)
    requires ks != [] && Sourced(ks[..|ks| - 1], els, s)
    ensures Sourced(ks, els, s)
  {
    var init := ks[..|ks| - 1];
    var m :| 0 <= m < |init| && ComesFrom(els, MentionsKeyword(init[m]), SectionOf, s);
    assert ks[m] == init[m];
  }

  /** A section from an element mentioning the last keyword is sourced by the keywords. */
  lemma SourcedLast(ks: seq<string>, els: seq<RegionEl>, s: SafetySection)
    requires ks != [] && ComesFrom(els, MentionsKeyword(ks[|ks| - 1]), SectionOf, s)
    ensures Sourced(ks, els, s)
  {
  }

  /** An element is listed once for every keyword it mentions. */
  lemma {:induction false} SectionsCount(ks: seq<string>, els: seq<RegionEl>)
    ensures |SectionsFor(ks, els)| == SumKept(ks, els)
  {
    if ks != [] {
      SectionsCount(ks[..|ks| - 1], els);
    }
  }

  function SumKept(ks: seq<string>, els: seq<RegionEl>): nat {
    if ks == [] then 0 else SumKept(ks[..|ks| - 1], els) + |Keep(els, MentionsKeyword(ks[|ks| - 1]), SectionOf)|
  }

  // ---------------------------------------------------------------------------
  // Metadata

  function MetadataOf(title: string, description: Option<string>, keywords: Option<string>): Metadata {
    Metadata(title, GetOr(description, ""), GetOr(keywords, ""))
  }

  /** The metadata rows: title and description, then keywords only when there are any. */
  function MetadataRows(m: Metadata): (rows: seq<RowInput>)
    ensures |rows| == if m.keywords != "" then 3 else 2
    ensures rows[0] == StrCells(["title", m.title]) && rows[1] == StrCells(["description", m.description])
    ensures m.keywords != "" ==> rows[2] == StrCells(["keywords", m.keywords])
  {
    [StrCells(["title", m.title]), StrCells(["description", m.description])]
    + (if m.keywords != "" then [StrCells(["keywords", m.keywords])] else [])
  }

  // ---------------------------------------------------------------------------
  // Output path

  predicate Mentions(url: string, k: string) {
    Contains(Lower(url), k)
  }

  /** The output path: safety, then efficacy/pasi, then h2h/head-to-head, then overview, else access. */
  function LivePath(url: string): (p: string)
    ensures p == "/skyrizi/safety" <==> Mentions(url, "safety")
    ensures p == "/skyrizi/pasi-90-100" <==> !Mentions(url, "safety") && (Mentions(url, "efficacy") || Mentions(url, "pasi"))
    ensures p == "/skyrizi/h2h" <==> !Mentions(url, "safety") && !Mentions(url, "efficacy") && !Mentions(url, "pasi")
                                     && (Mentions(url, "h2h") || Mentions(url, "head-to-head"))
    ensures p == "/skyrizi/overview" <==> !Mentions(url, "safety") && !Mentions(url, "efficacy") && !Mentions(url, "pasi")
                                          && !Mentions(url, "h2h") && !Mentions(url, "head-to-head") && Mentions(url, "overview")
    ensures p == "/skyrizi/access" <==> !Mentions(url, "safety") && !Mentions(url, "efficacy") && !Mentions(url, "pasi")
                                        && !Mentions(url, "h2h") && !Mentions(url, "head-to-head") && !Mentions(url, "overview")
  {
    var u := Lower(url);
    if Contains(u, "safety") then "/skyrizi/safety"
    else if Contains(u, "efficacy") || Contains(u, "pasi") then "/skyrizi/pasi-90-100"
    else if Contains(u, "h2h") || Contains(u, "head-to-head") then "/skyrizi/h2h"
    else if Contains(u, "overview") then "/skyrizi/overview"
    else "/skyrizi/access"
  }

  method OutputPath(url: string) returns (path: string)
    ensures path == LivePath(url)
  {
    path := "/skyrizi/access";
    var urlLower := Lower(url);
    if Contains(urlLower, "safety") {
      path := "/skyrizi/safety";
    } else if Contains(urlLower, "efficacy") || Contains(urlLower, "pasi") {
      path := "/skyrizi/pasi-90-100";
    } else if Contains(urlLower, "h2h") || Contains(urlLower, "head-to-head") {
      path := "/skyrizi/h2h";
    } else if Contains(urlLower, "overview") {
      path := "/skyrizi/overview";
    }
  }

  // ---------------------------------------------------------------------------
  // The page

  const TAP_ROW := ["Tap here", "for SKYRIZI Indications and additional Important Safety Information. <a href=\"https://www.rxabbvie.com/pdf/skyrizi_pi.pdf\">See Full Prescribing Information</a>"]
  const PI_ROW := "Please see <a href=\"https://www.rxabbvie.com/pdf/skyrizi_pi.pdf\">Full Prescribing Information</a>."
  const NAV_CELL := "<a href=\"/content/skyrizi/overview\">OVERVIEW</a> <a href=\"/content/skyrizi/h2h\">H2H</a> <a href=\"/content/skyrizi/pasi-90-100\">PASI 90-100</a> <a href=\"/content/skyrizi/safety\">SAFETY</a> <a href=\"/content/skyrizi/access\">ACCESS</a>"

  const SUPPORT_HEADING := "Encourage your patients to enroll in"
  const CTA_CELL := "<a href=\"/skyrizi-complete\">FIND OUT MORE</a>"
  const SAFETY_HEADING := "IMPORTANT SAFETY INFORMATION"
  const COVERAGE_HEADLINE := "Preferred National Coverage"
  const PREFERRED := "PREFERRED COVERAGE"

  datatype LiveExtracted = LiveExtracted(logo: string, coverage: CoverageStats, indications: seq<string>,
                                         cards: seq<SupportCard>, safety: seq<SafetySection>, meta: Metadata)

  function LiveExtractedOf(d: LiveScraped): LiveExtracted {
    LiveExtracted(Logo(d.logoSrc), CoverageStatsOf(d.h1, d.h2s, d.footnote), IndicationsOf(d.paragraphs),
                  SupportCardsOf(d.headings), SafetyInfoOf(d.safetyRegion), MetadataOf(d.title, d.description, d.keywords))
  }

  function HeroRows(logo: string): seq<RowInput> {
    (if logo != "" then [StrCells(["<img src=\"" + logo + "\" alt=\"SKYRIZI Logo\">", ""])] else []) + [StrCells(TAP_ROW)]
  }

  function IndicationRow(ind: string): RowInput {
    StrCells(ColonSplit(ind))
  }

  function IndicationRows(inds: seq<string>): seq<RowInput> {
    [StrCells(["INDICATIONS", ""])] + MapTo(inds, IndicationRow) + [StrCells([PI_ROW, ""])]
  }

  /** The coverage rows: a missing value is shown as N/A. */
  function CoverageRows(c: CoverageStats): seq<RowInput> {
    [StrCells([OrElse(c.headline, COVERAGE_HEADLINE), "", ""]),
     StrCells(["Overview", "National", "Local"]),
     StrCells(["Commercial", OrElse(c.commercial, "N/A"), PREFERRED]),
     StrCells(["Medicare Part D", OrElse(c.medicare, "N/A"), PREFERRED]),
     StrCells([c.footnote, "", ""])]
  }

  /** The hero has the logo row only when a logo was found, and always ends with the fixed ISI line. */
  lemma HeroRowsShape(logo: string)
    ensures |HeroRows(logo)| == if logo != "" then 2 else 1
    ensures HeroRows(logo)[|HeroRows(logo)| - 1] == StrCells(TAP_ROW)
  {
  }

  /** The coverage block shows each found value, `N/A` for a missing one, and the default headline when none was found. */
  lemma CoverageShowsValues(c: CoverageStats)
    ensures |CoverageRows(c)| == 5
    ensures CoverageRows(c)[0].entries[0] == Str(if c.headline != "" then c.headline else COVERAGE_HEADLINE)
    ensures CoverageRows(c)[2].entries[1] == Str(if c.commercial != "" then c.commercial else "N/A")
    ensures CoverageRows(c)[3].entries[1] == Str(if c.medicare != "" then c.medicare else "N/A")
  {
  }

  function CardRow(c: SupportCard): RowInput {
    StrCells(["<strong>" + c.title + "</strong>", c.description])
  }

  function SupportRows(cs: seq<SupportCard>): seq<RowInput> {
    [StrCells([SUPPORT_HEADING, ""])] + MapTo(cs, CardRow)
    + [StrCells([CTA_CELL, ""])]
  }

  function SafetyRow(s: SafetySection): RowInput {
    StrCells(["<strong>" + s.title + "</strong>", s.content])
  }

  function SafetyRows(ss: seq<SafetySection>): seq<RowInput> {
    [StrCells([SAFETY_HEADING, ""])] + MapTo(ss, SafetyRow)
  }

  function When(c: bool, t: Table): seq<Table> {
    if c then [t] else []
  }

  predicate HasCoverage(c: CoverageStats) {
    c.commercial != "" || c.medicare != ""
  }

  /** The hero, then each optional block whose content was found, in the fixed order. */
  function Guarded(x: LiveExtracted): seq<Table> {
    [LiveBlock(ISI_HERO, HeroRows(x.logo), 2)]
    + When(|x.indications| > 0, LiveBlock(ISI_INDICATIONS, IndicationRows(x.indications), 2))
    + When(HasCoverage(x.coverage), LiveBlock(ISI_COVERAGE, CoverageRows(x.coverage), 3))
    + When(|x.cards| > 0, LiveBlock(ISI_SUPPORT, SupportRows(x.cards), 2))
    + When(|x.safety| > 0, LiveBlock(ISI_SAFETY, SafetyRows(x.safety), 2))
  }

  /** The framed tables: the guarded blocks, then the navigation. */
  function LiveTables(x: LiveExtracted): seq<Table> {
    Guarded(x) + [LiveBlock(ISI_NAV, [StrCells([NAV_CELL])], 1)]
  }

  function LivePage(x: LiveExtracted): seq<PageNode> {
    Page(LiveTables(x), LiveBlock(METADATA, MetadataRows(x.meta), 2))
  }

  function NameWhen(c: bool, n: string): seq<string> {
    if c then [n] else []
  }

  /** Blocks appear in a fixed order, each optional one exactly when its content was found. */
  lemma LivePageLayout(x: LiveExtracted)
    ensures Alternates(LivePage(x))
    ensures Names(LivePage(x)) == [ISI_HERO]
      + NameWhen(|x.indications| > 0, ISI_INDICATIONS)
      + NameWhen(HasCoverage(x.coverage), ISI_COVERAGE)
      + NameWhen(|x.cards| > 0, ISI_SUPPORT)
      + NameWhen(|x.safety| > 0, ISI_SAFETY)
      + [ISI_NAV, METADATA]
  {
    var h := LiveBlock(ISI_HERO, HeroRows(x.logo), 2);
    var a := LiveBlock(ISI_INDICATIONS, IndicationRows(x.indications), 2);
    var b := LiveBlock(ISI_COVERAGE, CoverageRows(x.coverage), 3);
    var c := LiveBlock(ISI_SUPPORT, SupportRows(x.cards), 2);
    var d := LiveBlock(ISI_SAFETY, SafetyRows(x.safety), 2);
    var n := LiveBlock(ISI_NAV, [StrCells([NAV_CELL])], 1);
    var last := LiveBlock(METADATA, MetadataRows(x.meta), 2);
    PageAlternates(LiveTables(x), last);
    OptionalPageNames(h, |x.indications| > 0, a, HasCoverage(x.coverage), b, |x.cards| > 0, c, |x.safety| > 0, d, n, last);
  }

  /** The names on a page of a first table, four optional ones, a last framed one and a closing one. */
  lemma OptionalPageNames(h: Table, ca: bool, a: Table, cb: bool, b: Table, cc: bool, c: Table, cd: bool, d: Table,
                          n: Table, last: Table)
    ensures Names(Page([h] + When(ca, a) + When(cb, b) + When(cc, c) + When(cd, d) + [n], last))
      == [h.name] + NameWhen(ca, a.name) + NameWhen(cb, b.name) + NameWhen(cc, c.name) + NameWhen(cd, d.name)
         + [n.name, last.name]
  {
    var ts := [h] + When(ca, a) + When(cb, b) + When(cc, c) + When(cd, d) + [n];
    PageNames(ts, last);
    OptionalNames(h, ca, a, cb, b, cc, c, cd, d, n);
    var ns := [h.name] + NameWhen(ca, a.name) + NameWhen(cb, b.name) + NameWhen(cc, c.name) + NameWhen(cd, d.name);
    assert ns + [n.name] + [last.name] == ns + [n.name, last.name];
  }

  /** The names of a first table, four optional ones and a last one, in order. */
  lemma OptionalNames(h: Table, ca: bool, a: Table, cb: bool, b: Table, cc: bool, c: Table, cd: bool, d: Table, n: Table)
    ensures TableNames([h] + When(ca, a) + When(cb, b) + When(cc, c) + When(cd, d) + [n])
      == [h.name] + NameWhen(ca, a.name) + NameWhen(cb, b.name) + NameWhen(cc, c.name) + NameWhen(cd, d.name) + [n.name]
  {
    var s1 := [h] + When(ca, a);
    var s2 := s1 + When(cb, b);
    var s3 := s2 + When(cc, c);
    var s4 := s3 + When(cd, d);
    TableNamesAppend([h], When(ca, a));
    TableNamesAppend(s1, When(cb, b));
    TableNamesAppend(s2, When(cc, c));
    TableNamesAppend(s3, When(cd, d));
    TableNamesAppend(s4, [n]);
    WhenNames(ca, a);
    WhenNames(cb, b);
    WhenNames(cc, c);
    WhenNames(cd, d);
    WhenNames(true, h);
    WhenNames(true, n);
  }

  lemma WhenNames(c: bool, t: Table)
    ensures TableNames(When(c, t)) == NameWhen(c, t.name)
  {
  }

  /** The indications block, when present, has a row per indication plus the title and link rows. */
  lemma IndicationsBlockRows(inds: seq<string>)
    ensures |LiveBlock(ISI_INDICATIONS, IndicationRows(inds), 2).rows| == |inds| + 2
    ensures forall i | 1 <= i <= |inds| :: |LiveBlock(ISI_INDICATIONS, IndicationRows(inds), 2).rows[i]| == 2
  {
  }

  /** Every row of a live block has at least the block's column count of cells. */
  lemma LiveRowsFull(name: string, rows: seq<RowInput>, columns: int, i: nat)
    requires i < |rows|
    ensures |LiveBlock(name, rows, columns).rows[i]| >= columns
    ensures forall j | 0 <= j < |LiveBlock(name, rows, columns).rows[i]| :: !LiveBlock(name, rows, columns).rows[i][j].MovedTd?
  {
    PaddedRowsAreFull(name, rows, columns, Copy, columns, i);
  }

  method ExtractAll(d: LiveScraped) returns (x: LiveExtracted)
    ensures x == LiveExtractedOf(d)
  {
    var logo := Logo(d.logoSrc);
    var coverage := ExtractCoverageStats(d.h1, d.h2s, d.footnote);
    var indications := ExtractIndications(d.paragraphs);
    var cards := ExtractSupportCards(d.headings);
    var safety := ExtractSafetyInfo(d.safetyRegion);
    var meta := MetadataOf(d.title, d.description, d.keywords);
    x := LiveExtracted(logo, coverage, indications, cards, safety, meta);
  }

  method BuildIndications(inds: seq<string>) returns (t: Table)
    ensures t == LiveBlock(ISI_INDICATIONS, IndicationRows(inds), 2)
  {
    var rows := Each(inds, IndicationRow);
    t := Build(ISI_INDICATIONS, [StrCells(["INDICATIONS", ""])] + rows + [StrCells([PI_ROW, ""])], 2, Copy, 2);
  }

  method BuildSupport(cards: seq<SupportCard>) returns (t: Table)
    ensures t == LiveBlock(ISI_SUPPORT, SupportRows(cards), 2)
  {
    var rows := Each(cards, CardRow);
    t := Build(ISI_SUPPORT, [StrCells([SUPPORT_HEADING, ""])] + rows
      + [StrCells([CTA_CELL, ""])], 2, Copy, 2);
  }

  method BuildSafety(sections: seq<SafetySection>) returns (t: Table)
    ensures t == LiveBlock(ISI_SAFETY, SafetyRows(sections), 2)
  {
    var rows := Each(sections, SafetyRow);
    t := Build(ISI_SAFETY, [StrCells([SAFETY_HEADING, ""])] + rows, 2, Copy, 2);
  }

  /** `transform`: the body is cleared and rebuilt; the path comes from the URL alone. */
  method Transform(body: Body, url: string, d: LiveScraped) returns (path: string)
    modifies body
    ensures body.children == LivePage(LiveExtractedOf(d))
    ensures path == LivePath(url)
  {
    var x := ExtractAll(d);
    BuildBody(body, x);
    path := OutputPath(url);
  }

  /** The blocks, each optional one behind its guard. */
  method BuildBody(body: Body, x: LiveExtracted)
    modifies body
    ensures body.children == LivePage(x)
  {
    body.Clear();
    var hero := Build(ISI_HERO, HeroRows(x.logo), 2, Copy, 2);
    ghost var done: seq<Table> := [];
    body.AppendSection(done, hero);
    done := done + [hero];
    AppendOptional(body, done, x);
    done := Guarded(x);
    var nav := Build(ISI_NAV, [StrCells([NAV_CELL])], 1, Copy, 1);
    body.AppendSection(done, nav);
    done := done + [nav];
    var meta := Build(METADATA, MetadataRows(x.meta), 2, Copy, 2);
    body.Append(TableNode(meta));
  }

  /** The four blocks that are written only when something was extracted for them. */
  method AppendOptional(body: Body, ghost done: seq<Table>, x: LiveExtracted)
    requires done == [LiveBlock(ISI_HERO, HeroRows(x.logo), 2)]
    requires body.children == Framed(done)
    modifies body
    ensures body.children == Framed(Guarded(x))
  {
    ghost var d := done;
    ghost var ti := LiveBlock(ISI_INDICATIONS, IndicationRows(x.indications), 2);
    ghost var tc := LiveBlock(ISI_COVERAGE, CoverageRows(x.coverage), 3);
    ghost var ts := LiveBlock(ISI_SUPPORT, SupportRows(x.cards), 2);
    ghost var tf := LiveBlock(ISI_SAFETY, SafetyRows(x.safety), 2);
    AppendIndications(body, d, x.indications);
    d := d + When(|x.indications| > 0, ti);
    AppendCoverage(body, d, x.coverage);
    d := d + When(HasCoverage(x.coverage), tc);
    AppendSupport(body, d, x.cards);
    d := d + When(|x.cards| > 0, ts);
    AppendSafety(body, d, x.safety);
    d := d + When(|x.safety| > 0, tf);
  }

  /** `if (indications.length > 0) { ... }`. */
  method AppendIndications(body: Body, ghost done: seq<Table>, inds: seq<string>)
    requires body.children == Framed(done)
    modifies body
    ensures body.children == Framed(done + When(|inds| > 0, LiveBlock(ISI_INDICATIONS, IndicationRows(inds), 2)))
  {
    if |inds| > 0 {
      var t := BuildIndications(inds);
      body.AppendSection(done, t);
    } else {
      assert done + [] == done;
    }
  }

  /** `if (coverage.commercial || coverage.medicare) { ... }`. */
  method AppendCoverage(body: Body, ghost done: seq<Table>, c: CoverageStats)
    requires body.children == Framed(done)
    modifies body
    ensures body.children == Framed(done + When(HasCoverage(c), LiveBlock(ISI_COVERAGE, CoverageRows(c), 3)))
  {
    if c.commercial != "" || c.medicare != "" {
      var t := Build(ISI_COVERAGE, CoverageRows(c), 3, Copy, 3);
      body.AppendSection(done, t);
    } else {
      assert done + [] == done;
    }
  }

  /** `if (supportCards.length > 0) { ... }`. */
  method AppendSupport(body: Body, ghost done: seq<Table>, cards: seq<SupportCard>)
    requires body.children == Framed(done)
    modifies body
    ensures body.children == Framed(done + When(|cards| > 0, LiveBlock(ISI_SUPPORT, SupportRows(cards), 2)))
  {
    if |cards| > 0 {
      var t := BuildSupport(cards);
      body.AppendSection(done, t);
    } else {
      assert done + [] == done;
    }
  }

  /** `if (safetyInfo.length > 0) { ... }`. */
  method AppendSafety(body: Body, ghost done: seq<Table>, sections: seq<SafetySection>)
    requires body.children == Framed(done)
    modifies body
    ensures body.children == Framed(done + When(|sections| > 0, LiveBlock(ISI_SAFETY, SafetyRows(sections), 2)))
  {
    if |sections| > 0 {
      var t := BuildSafety(sections);
      body.AppendSection(done, t);
    } else {
      assert done + [] == done;
    }
  }
}
