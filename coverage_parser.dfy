/**
 * The coverage parser of the ISA importer: title, tab captions, statistics and footnote,
 * each with its own fallback; the block has the title, the tabs, one row per statistic
 * and the footnote.
 */
module CoverageParser {
  import opened Wrappers
  import opened Text
  import opened Scrape
  import opened BlockTable

  datatype Stat = Stat(caption: string, value: string, description: string)
  datatype Coverage = Coverage(title: string, tabs: seq<string>, stats: seq<Stat>, footnote: string)

  const DEFAULT_TITLE := "for Ps & PsA SKYRIZI Patients: Preferred NATIONAL Coverage & Exceptional Support"
  const DEFAULT_TABS := ["Overview", "National", "Local"]
  const PREFERRED := "PREFERRED COVERAGE<sup>2</sup>*\U{2020}"
  const DEFAULT_STATS := [Stat("Commercial", "99", PREFERRED), Stat("Medicare Part D", "97", PREFERRED)]
  const DEFAULT_FOOTNOTE := "**Preferred coverage means SKYRIZI is AVAILABLE:** With no advanced systemic failure required\U{2021} At the lowest branded co-pay/coinsurance tier. National Commercial and Medicare Part D Formulary coverage under the pharmacy benefit as of December 2023."

  /** The value text with its first `%` removed. */
  function ValueOf(e: StatEl): string {
    RemoveFirst(TextOf(e.value), "%")
  }

  /** `label && value`, the value checked after the `%` is removed. */
  predicate HasLabelAndValue(e: StatEl) {
    TextOf(e.caption) != "" && ValueOf(e) != ""
  }

  function StatOf(e: StatEl): Stat {
    Stat(TextOf(e.caption), ValueOf(e), OrElse(TextOf(e.desc), PREFERRED))
  }

  function Stats(els: seq<StatEl>): (r: seq<Stat>)
    ensures (exists i | 0 <= i < |els| :: HasLabelAndValue(els[i])) ==> r == Keep(els, HasLabelAndValue, StatOf)
    ensures (forall i | 0 <= i < |els| :: !HasLabelAndValue(els[i])) ==> r == DEFAULT_STATS
  {
    OrDefaultsKeep(els, HasLabelAndValue, StatOf, DEFAULT_STATS);
    OrDefaults(Keep(els, HasLabelAndValue, StatOf), DEFAULT_STATS)
  }

  /** `Array.from(tabEls).map((t) => getText(t))` when any tab element exists. */
  function Tabs(tabEls: seq<string>): (r: seq<string>)
    ensures |tabEls| > 0 ==> r == MapTo(tabEls, Trim)
    ensures |tabEls| == 0 ==> r == DEFAULT_TABS
  {
    if |tabEls| > 0 then MapTo(tabEls, Trim) else DEFAULT_TABS
  }

  /** `extractCoverage`: each part falls back on its own. */
  function CoverageOf(title: Option<string>, tabEls: seq<string>, els: seq<StatEl>, footnote: Option<string>): (c: Coverage)
    ensures c.title == OrElse(TextOf(title), DEFAULT_TITLE) && c.tabs == Tabs(tabEls)
    ensures c.stats == Stats(els) && c.footnote == OrElse(TextOf(footnote), DEFAULT_FOOTNOTE)
  {
    Coverage(OrElse(TextOf(title), DEFAULT_TITLE), Tabs(tabEls), Stats(els), OrElse(TextOf(footnote), DEFAULT_FOOTNOTE))
  }

  method ExtractCoverage(title: Option<string>, tabEls: seq<string>, els: seq<StatEl>, footnote: Option<string>)
    returns (c: Coverage)
    ensures c == CoverageOf(title, tabEls, els, footnote)
  {
    c := Coverage("", DEFAULT_TABS, [], "");
    c := c.(title := OrElse(TextOf(title), DEFAULT_TITLE));
    if |tabEls| > 0 {
      var tabs := Each(tabEls, Trim);
      c := c.(tabs := tabs);
    }
    var stats := Collect(els, HasLabelAndValue, StatOf);
    c := c.(stats := stats);
    if |c.stats| == 0 {
      c := c.(stats := DEFAULT_STATS);
    }
    c := c.(footnote := OrElse(TextOf(footnote), DEFAULT_FOOTNOTE));
  }

  /** Every statistic, scraped or default, has a label and a value. */
  lemma StatsFilled(els: seq<StatEl>)
    ensures forall j | 0 <= j < |Stats(els)| :: Stats(els)[j].caption != "" && Stats(els)[j].value != ""
  {
    KeepAll(els, HasLabelAndValue, StatOf, (s: Stat) => s.caption != "" && s.value != "");
    if forall i | 0 <= i < |els| :: !HasLabelAndValue(els[i]) {
      assert Stats(els) == DEFAULT_STATS;
      assert DEFAULT_STATS[0].caption != "" && DEFAULT_STATS[0].value != "";
      assert DEFAULT_STATS[1].caption != "" && DEFAULT_STATS[1].value != "";
    }
  }

  // ---------------------------------------------------------------------------
  // The coverage block's rows

  function StatRow(s: Stat): RowInput {
    StrCells([s.caption, s.value + "%", s.description])
  }

  /** `createCoverageBlock`: the title, the tab captions as one row, the statistics, the footnote. */
  function CoverageRows(c: Coverage): seq<RowInput> {
    [StrCells([c.title]), StrCells(c.tabs)] + MapTo(c.stats, StatRow) + [StrCells([c.footnote])]
  }

  method CreateCoverageBlock(c: Coverage) returns (rows: seq<RowInput>)
    ensures rows == CoverageRows(c)
  {
    rows := [StrCells([c.title]), StrCells(c.tabs)];
    var more := Each(c.stats, StatRow);
    rows := rows + more;
    rows := rows + [StrCells([c.footnote])];
  }

  /** stats + 3 rows: title, tabs, one `[label, value%, description]` row per statistic in order, footnote. */
  lemma CoverageRowsShape(c: Coverage)
    ensures |CoverageRows(c)| == |c.stats| + 3
    ensures CoverageRows(c)[0] == StrCells([c.title]) && CoverageRows(c)[1] == StrCells(c.tabs)
    ensures CoverageRows(c)[|c.stats| + 2] == StrCells([c.footnote])
    ensures forall i | 0 <= i < |c.stats| ::
              CoverageRows(c)[i + 2].entries == [Str(c.stats[i].caption), Str(c.stats[i].value + "%"), Str(c.stats[i].description)]
  {
    var rows := CoverageRows(c);
    forall i | 0 <= i < |c.stats|
      ensures rows[i + 2].entries == [Str(c.stats[i].caption), Str(c.stats[i].value + "%"), Str(c.stats[i].description)]
    {
      assert rows[i + 2] == StatRow(c.stats[i]);
    }
  }

  /** A scraped value with one trailing `%` loses it on extraction and gets it back in its row. */
  lemma StatValueRoundTrip(e: StatEl, v: string)
    requires TextOf(e.value) == v + "%" && '%' !in v
    ensures StatRow(StatOf(e)).entries[1] == Str(TextOf(e.value))
  {
    RemoveTrailingPercent(v);
  }
}
