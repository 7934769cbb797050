/**
 * The indications parser of the ISA importer: an indication is kept only when both its
 * condition and its description were found; the block has a heading row, one row per
 * indication and the prescribing-information row.
 */
module IndicationsParser {
  import opened Text
  import opened Scrape
  import opened BlockTable

  datatype Indication = Indication(condition: string, description: string)

  const DEFAULT_INDICATIONS := [
    Indication("Plaque Psoriasis:", "SKYRIZI is indicated for the treatment of moderate to severe plaque psoriasis in adults who are candidates for systemic therapy or phototherapy."),
    Indication("Psoriatic Arthritis:", "SKYRIZI is indicated for the treatment of active psoriatic arthritis in adults."),
    Indication("Crohn's Disease:", "SKYRIZI is indicated for the treatment of moderately to severely active Crohn's disease in adults.")]

  /** `condition && description`. */
  predicate HasBoth(e: PairEl) {
    TextOf(e.first) != "" && TextOf(e.second) != ""
  }

  function IndicationOf(e: PairEl): Indication {
    Indication(TextOf(e.first), TextOf(e.second))
  }

  /** `extractIndications`: the complete indications in document order, else the three defaults. */
  function Indications(els: seq<PairEl>): (r: seq<Indication>)
    ensures (exists i | 0 <= i < |els| :: HasBoth(els[i])) ==> r == Keep(els, HasBoth, IndicationOf)
    ensures (forall i | 0 <= i < |els| :: !HasBoth(els[i])) ==> r == DEFAULT_INDICATIONS
  {
    OrDefaultsKeep(els, HasBoth, IndicationOf, DEFAULT_INDICATIONS);
    OrDefaults(Keep(els, HasBoth, IndicationOf), DEFAULT_INDICATIONS)
  }

  method ExtractIndications(els: seq<PairEl>) returns (r: seq<Indication>)
    ensures r == Indications(els)
  {
    r := Collect(els, HasBoth, IndicationOf);
    if |r| == 0 {
      r := DEFAULT_INDICATIONS;
    }
  }

  /** Every indication, scraped or default, has both a condition and a description. */
  lemma IndicationsComplete(els: seq<PairEl>)
    ensures forall j | 0 <= j < |Indications(els)| ::
      Indications(els)[j].condition != "" && Indications(els)[j].description != ""
  {
    var r := Indications(els);
    if exists i | 0 <= i < |els| :: HasBoth(els[i]) {
      KeepAll(els, HasBoth, IndicationOf, (d: Indication) => d.condition != "" && d.description != "");
    } else {
      DefaultsComplete();
    }
  }

  lemma DefaultsComplete()
    ensures forall j | 0 <= j < |DEFAULT_INDICATIONS| ::
      DEFAULT_INDICATIONS[j].condition != "" && DEFAULT_INDICATIONS[j].description != ""
  {
    var d := DEFAULT_INDICATIONS;
    assert |d| == 3;
    assert d[0].condition != "" && d[0].description != "";
    assert d[1].condition != "" && d[1].description != "";
    assert d[2].condition != "" && d[2].description != "";
  }

  const PI_ROW := StrCells(["Please see <a href=\"https://www.rxabbvie.com/pdf/skyrizi_pi.pdf\">Full Prescribing Information</a>."])

  function IndicationRow(ind: Indication): RowInput {
    StrCells([ind.condition, ind.description])
  }

  /** `createIndicationsBlock`. */
  function IndicationRows(inds: seq<Indication>): seq<RowInput> {
    [StrCells(["INDICATIONS"])] + MapTo(inds, IndicationRow) + [PI_ROW]
  }

  method CreateIndicationsBlock(inds: seq<Indication>) returns (rows: seq<RowInput>)
    ensures rows == IndicationRows(inds)
  {
    rows := [StrCells(["INDICATIONS"])];
    var more := Each(inds, IndicationRow);
    rows := rows + more;
    rows := rows + [PI_ROW];
  }

  /** The one-cell heading first, one two-cell row per indication in order, the one-cell link row last. */
  lemma IndicationRowsShape(inds: seq<Indication>)
    ensures |IndicationRows(inds)| == |inds| + 2
    ensures IndicationRows(inds)[0] == StrCells(["INDICATIONS"]) && |IndicationRows(inds)[0].entries| == 1
    ensures IndicationRows(inds)[|inds| + 1] == PI_ROW && |PI_ROW.entries| == 1
    ensures forall i | 0 <= i < |inds| ::
              IndicationRows(inds)[i + 1].entries == [Str(inds[i].condition), Str(inds[i].description)]
  {
    var rows := IndicationRows(inds);
    forall i | 0 <= i < |inds| ensures rows[i + 1].entries == [Str(inds[i].condition), Str(inds[i].description)] {
      assert rows[i + 1] == IndicationRow(inds[i]);
    }
  }
}
