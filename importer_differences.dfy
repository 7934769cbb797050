/**
 * Where the brand-page importer and the ISA importer's parsers, or the brand-page
 * importer and the live-page importer, read the same input differently: the order in
 * which the URL keywords are tried, and whether an indication or a statistic needs
 * one field or both.
 */
module ImporterDifferences {
  import opened Wrappers
  import opened Text
  import opened Scrape
  import PageImport
  import LiveImport
  import IndicationsParser
  import CoverageParser

  /**
   * A URL that mentions both `access` and `safety` is written to the access page by the
   * brand-page importer, which tries `access` first, and to the safety page by the live
   * importer, which tries `safety` first.
   */
  lemma AccessSafetyUrlSplits(url: string)
    requires Contains(Lower(url), "access") && Contains(Lower(url), "safety")
    ensures PageImport.PathOf(PageImport.DetectPageType(url)) == "/skyrizi/access"
    ensures LiveImport.LivePath(url) == "/skyrizi/safety"
  {
    assert PageImport.Mentions(url, "access");
    assert LiveImport.Mentions(url, "safety");
  }

  /**
   * A URL that names the head-to-head page and no other keyword gets its own path from
   * the live importer, but is built as the access page by the brand-page importer.
   */
  lemma HeadToHeadUrlSplits(url: string)
    requires Contains(Lower(url), "h2h")
    requires !Contains(Lower(url), "access") && !Contains(Lower(url), "safety")
    requires !Contains(Lower(url), "efficacy") && !Contains(Lower(url), "pasi")
    ensures PageImport.DetectPageType(url) == PageImport.HeadToHead
    ensures PageImport.PathOf(PageImport.DetectPageType(url)) == "/skyrizi/access"
    ensures LiveImport.LivePath(url) == "/skyrizi/h2h"
  {
    assert PageImport.Mentions(url, "h2h");
    assert LiveImport.Mentions(url, "h2h");
  }

  /**
   * An element with a condition and no description is an indication for the brand-page
   * importer, which needs either field, and is dropped by the indications parser, which
   * needs both, so that a page with only such elements gets the parser's defaults.
   */
  lemma ConditionOnlyIndication(c: string)
    requires Trim(c) != ""
    ensures PageImport.Indications([PairEl(Some(c), None)]) == [PageImport.Indication(Trim(c), "")]
    ensures IndicationsParser.Indications([PairEl(Some(c), None)]) == IndicationsParser.DEFAULT_INDICATIONS
  {
    var els := [PairEl(Some(c), None)];
    assert PageImport.HasEither(els[0]);
    assert !IndicationsParser.HasBoth(els[0]);
    assert els[1..] == [];
  }

  /**
   * A statistic with a caption and no value is kept, with an empty value, by the
   * brand-page importer and dropped by the coverage parser, which then shows its two
   * default statistics.
   */
  lemma CaptionOnlyStat(c: string)
    requires Trim(c) != ""
    ensures PageImport.Stats([StatEl(Some(c), None, None)]) == [PageImport.Stat(Trim(c), "", PageImport.PREFERRED)]
    ensures CoverageParser.Stats([StatEl(Some(c), None, None)]) == CoverageParser.DEFAULT_STATS
  {
    var els := [StatEl(Some(c), None, None)];
    assert PageImport.HasLabelOrValue(els[0]);
    assert !StartsWith("", "%");
    assert !CoverageParser.HasLabelAndValue(els[0]);
    assert els[1..] == [];
  }
}
