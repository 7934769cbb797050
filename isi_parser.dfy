/**
 * The safety-information parser of the slide importer: an image-based block gets the
 * six default sections to fill in by hand; a structured one gets a `[title, content]`
 * row per section that has either.
 */
module IsiParser {
  import opened Wrappers
  import opened Scrape
  import opened ParsedBlock

  /** A section (or warning) element: its title's text content and its body's inner HTML, neither trimmed. */
  datatype SectionEl = SectionEl(title: Option<string>, content: Option<string>)

  /** The block element: whether it holds an `isi` image, and its sections in document order. */
  datatype IsiEl = IsiEl(hasImage: bool, sections: seq<SectionEl>)

  /** `getDefaultISISections`. */
  const DEFAULT_SECTIONS: seq<seq<string>> := [
    ["Indication", "VENCLEXTA is indicated in combination with azacitidine, or decitabine, or low-dose cytarabine for the treatment of newly diagnosed acute myeloid leukemia (AML) in adults 75 years or older, or who have comorbidities that preclude use of intensive induction chemotherapy."],
    ["Tumor Lysis Syndrome", "Tumor lysis syndrome (TLS), including fatal events and renal failure requiring dialysis, has occurred in patients treated with VENCLEXTA."],
    ["Neutropenia", "Grade 3 or 4 neutropenia occurred in patients treated with VENCLEXTA in combination with azacitidine or decitabine. Monitor blood counts and for signs of infection; manage as medically appropriate."],
    ["Infections", "Fatal and serious infections such as pneumonia and sepsis have occurred in patients treated with VENCLEXTA. Monitor patients for signs and symptoms of infection and treat promptly."],
    ["Embryo-Fetal Toxicity", "VENCLEXTA may cause embryo-fetal harm when administered to a pregnant woman. Advise females of reproductive potential to use effective contraception during treatment and for at least 30 days after the last dose."],
    ["Drug Interactions", "Concomitant use with strong or moderate CYP3A inhibitors or P-gp inhibitors increases VENCLEXTA exposure, which may increase VENCLEXTA toxicities, including risk of TLS. Consider alternatives or adjust VENCLEXTA dosage."]]

  function SectionRow(e: SectionEl): seq<string> {
    [GetOr(e.title, ""), GetOr(e.content, "")]
  }

  /** `title || content`. */
  predicate HasTitleOrContent(e: SectionEl) {
    GetOr(e.title, "") != "" || GetOr(e.content, "") != ""
  }

  /** `parseISIBlock`. */
  function IsiBlock(el: IsiEl): Parsed {
    if el.hasImage then Parsed("ISI", DEFAULT_SECTIONS)
    else Parsed("ISI", OrDefaults(Keep(el.sections, HasTitleOrContent, SectionRow), DEFAULT_SECTIONS))
  }

  method ParseIsiBlock(el: IsiEl) returns (b: Parsed)
    ensures b == IsiBlock(el)
  {
    b := Parsed("ISI", []);
    if el.hasImage {
      b := b.(rows := DEFAULT_SECTIONS);
      return;
    }
    var rows := Collect(el.sections, HasTitleOrContent, SectionRow);
    b := b.(rows := rows);
    if |b.rows| == 0 {
      b := b.(rows := DEFAULT_SECTIONS);
    }
  }

  /** A row of two cells, at least one of them non-empty. */
  predicate FilledRow(row: seq<string>) {
    |row| == 2 && (row[0] != "" || row[1] != "")
  }

  lemma DefaultsFilled()
    ensures |DEFAULT_SECTIONS| == 6
    ensures forall j | 0 <= j < 6 :: |DEFAULT_SECTIONS[j]| == 2 && DEFAULT_SECTIONS[j][0] != "" && DEFAULT_SECTIONS[j][1] != ""
  {
    var d := DEFAULT_SECTIONS;
    assert |d[0]| == 2 && d[0][0] != "" && d[0][1] != "";
    assert |d[1]| == 2 && d[1][0] != "" && d[1][1] != "";
    assert |d[2]| == 2 && d[2][0] != "" && d[2][1] != "";
    assert |d[3]| == 2 && d[3][0] != "" && d[3][1] != "";
    assert |d[4]| == 2 && d[4][0] != "" && d[4][1] != "";
    assert |d[5]| == 2 && d[5][0] != "" && d[5][1] != "";
  }

  /**
   * An image means the six defaults whatever the sections hold; otherwise the rows of
   * the sections with a title or content, in order, and the defaults when there are
   * none. Every row has two cells, at least one of them non-empty.
   */
  lemma IsiBlockShape(el: IsiEl)
    ensures IsiBlock(el).name == "ISI"
    ensures el.hasImage ==> IsiBlock(el).rows == DEFAULT_SECTIONS
    ensures !el.hasImage && (exists i | 0 <= i < |el.sections| :: HasTitleOrContent(el.sections[i])) ==>
              IsiBlock(el).rows == Keep(el.sections, HasTitleOrContent, SectionRow)
    ensures !el.hasImage && (forall i | 0 <= i < |el.sections| :: !HasTitleOrContent(el.sections[i])) ==>
              IsiBlock(el).rows == DEFAULT_SECTIONS
    ensures forall j | 0 <= j < |IsiBlock(el).rows| :: FilledRow(IsiBlock(el).rows[j])
  {
    OrDefaultsKeep(el.sections, HasTitleOrContent, SectionRow, DEFAULT_SECTIONS);
    if el.hasImage || forall i | 0 <= i < |el.sections| :: !HasTitleOrContent(el.sections[i]) {
      DefaultsFilled();
    } else {
      KeepAll(el.sections, HasTitleOrContent, SectionRow, FilledRow);
    }
  }

  // ---------------------------------------------------------------------------
  // Indication and warnings

  /** The indication section: its inner HTML and its text content. */
  datatype IndicationEl = IndicationEl(innerHtml: string, textContent: string)

  datatype TitledText = TitledText(title: string, content: string)

  /** `parseIndication`: null without a section; the title is fixed, the content its HTML or else its text. */
  function ParseIndication(el: Option<IndicationEl>): (r: Option<TitledText>)
    ensures r.None? <==> el.None?
    ensures r.Some? ==> r.value.title == "Indication"
    ensures r.Some? && el.value.innerHtml != "" ==> r.value.content == el.value.innerHtml
    ensures r.Some? && el.value.innerHtml == "" ==> r.value.content == el.value.textContent
  {
    match el
    case None => None
    case Some(e) => Some(TitledText("Indication", if e.innerHtml != "" then e.innerHtml else e.textContent))
  }

  function WarningOf(e: SectionEl): TitledText {
    TitledText(GetOr(e.title, ""), GetOr(e.content, ""))
  }

  /** `parseSafetyWarnings`: one entry per warning element, in order, none skipped. */
  function SafetyWarnings(els: seq<SectionEl>): (r: seq<TitledText>)
    ensures |r| == |els|
    ensures forall i | 0 <= i < |els| :: r[i].title == GetOr(els[i].title, "") && r[i].content == GetOr(els[i].content, "")
  {
    MapTo(els, WarningOf)
  }

  method ParseSafetyWarnings(els: seq<SectionEl>) returns (r: seq<TitledText>)
    ensures r == SafetyWarnings(els)
  {
    r := Each(els, WarningOf);
  }
}
