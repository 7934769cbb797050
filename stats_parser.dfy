/**
 * The statistics parser of the slide importer: a fixed three-row skeleton for manual
 * entry, and a survival record whose missing fields take defaults.
 */
module StatsParser {
  import opened Wrappers
  import opened Text
  import opened ParsedBlock

  /** What `parseStatsBlock` could consult: whether the slide has a statistics container. */
  datatype StatsSlide = StatsSlide(hasStatsContainer: bool)

  const STATS_ROWS: seq<seq<string>> := [
    ["Treatment", "Value", "CI"],
    ["Comparator", "Value", "CI"],
    ["Hazard Ratio / P-value"]]

  /** `parseStatsBlock`: the skeleton, whatever the slide holds. */
  function StatsBlock(s: StatsSlide): (b: Parsed)
    ensures b.name == "Stats" && |b.rows| == 3
    ensures |b.rows[0]| == 3 && |b.rows[1]| == 3 && |b.rows[2]| == 1
    ensures b.rows[0][0] == "Treatment" && b.rows[1][0] == "Comparator"
  {
    Parsed("Stats", STATS_ROWS)
  }

  /** The slide makes no difference to the block. */
  lemma StatsBlockIgnoresSlide(s: StatsSlide, t: StatsSlide)
    ensures StatsBlock(s) == StatsBlock(t)
  {
  }

  /** The structured survival data; a field that is absent is `None`. */
  datatype SurvivalData = SurvivalData(
    treatmentLabel: Option<string>, treatmentValue: Option<string>, treatmentCI: Option<string>,
    comparatorLabel: Option<string>, comparatorValue: Option<string>, comparatorCI: Option<string>,
    hr: Option<string>, pValue: Option<string>)

  datatype Arm = Arm(caption: string, value: string, ci: string)
  datatype Survival = Survival(treatment: Arm, comparator: Arm, hazardRatio: string, pValue: string)

  /** `field || fallback` on an optional string field. */
  function FieldOr(f: Option<string>, fallback: string): (r: string)
    ensures f.Some? && f.value != "" ==> r == f.value
    ensures (f.None? || f.value == "") ==> r == fallback
  {
    OrElse(GetOr(f, ""), fallback)
  }

  /** `parseSurvivalStats`. */
  function SurvivalStats(data: Option<SurvivalData>): (r: Option<Survival>)
    ensures r.None? <==> data.None?
  {
    match data
    case None => None
    case Some(d) =>
      Some(Survival(
        Arm(FieldOr(d.treatmentLabel, "Treatment"), FieldOr(d.treatmentValue, ""), FieldOr(d.treatmentCI, "")),
        Arm(FieldOr(d.comparatorLabel, "Comparator"), FieldOr(d.comparatorValue, ""), FieldOr(d.comparatorCI, "")),
        FieldOr(d.hr, ""), FieldOr(d.pValue, "")))
  }

  /** Every provided field passes through unchanged; the labels are never empty. */
  lemma SurvivalStatsFields(d: SurvivalData)
    ensures var r := SurvivalStats(Some(d)).value;
      r.treatment.caption != "" && r.comparator.caption != ""
      && (d.treatmentLabel.None? || d.treatmentLabel.value == "" ==> r.treatment.caption == "Treatment")
      && (d.comparatorLabel.None? || d.comparatorLabel.value == "" ==> r.comparator.caption == "Comparator")
      && r.treatment.value == GetOr(d.treatmentValue, "") && r.treatment.ci == GetOr(d.treatmentCI, "")
      && r.comparator.value == GetOr(d.comparatorValue, "") && r.comparator.ci == GetOr(d.comparatorCI, "")
      && r.hazardRatio == GetOr(d.hr, "") && r.pValue == GetOr(d.pValue, "")
    ensures d.treatmentLabel.Some? && d.treatmentLabel.value != "" ==>
              SurvivalStats(Some(d)).value.treatment.caption == d.treatmentLabel.value
    ensures d.comparatorLabel.Some? && d.comparatorLabel.value != "" ==>
              SurvivalStats(Some(d)).value.comparator.caption == d.comparatorLabel.value
  {
  }
}
