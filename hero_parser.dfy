/**
 * The hero parser of the ISA importer: the brand record, the safety-information lines
 * of the top bar, and the hero block's rows (logo, then one row per line).
 */
module HeroParser {
  import opened Wrappers
  import opened Text
  import opened Scrape
  import opened BlockTable

  datatype Brand = Brand(name: string, subtitle: string, logo: string)
  datatype IsiLine = IsiLine(toggle: string, text: string, linkText: string, linkHref: string)

  const DEFAULT_SUBTITLE := "(risankizumab-rzaa)"
  const DEFAULT_LOGO := "/content/skyrizi/images/logo-skyrizi.svg"
  const SEE_PI := "See accompanying Full Prescribing Information"

  /** `extractBrandInfo`: the name is fixed; subtitle and logo fall back separately. */
  function BrandInfo(logoSrc: Option<string>, subtitle: Option<string>): (b: Brand)
    ensures b.name == "SKYRIZI"
    ensures TextOf(subtitle) != "" ==> b.subtitle == TextOf(subtitle)
    ensures TextOf(subtitle) == "" ==> b.subtitle == DEFAULT_SUBTITLE
    ensures logoSrc.Some? && logoSrc.value != "" ==> b.logo == logoSrc.value
    ensures (logoSrc.None? || logoSrc.value == "") ==> b.logo == DEFAULT_LOGO
  {
    Brand("SKYRIZI", OrElse(TextOf(subtitle), DEFAULT_SUBTITLE), OrElse(GetOr(logoSrc, ""), DEFAULT_LOGO))
  }

  /** One line per toggle element: the button text (else `Tap here`), the content text, the link. */
  function IsiLineOf(e: ToggleEl): IsiLine {
    IsiLine(OrElse(TextOf(e.button), "Tap here"), TextOf(e.content),
            OrElse(AnchorText(e.link), SEE_PI),
            if e.link.Some? then e.link.value.href else "")
  }

  const DEFAULT_LINES := [
    IsiLine("Tap here", "for SKYRIZI Indications and additional Important Safety Information.", SEE_PI,
            "https://www.rxabbvie.com/pdf/skyrizi_pi.pdf"),
    IsiLine("Tap here", "for HUMIRA Indications and Important Safety Information, including BOXED WARNING on Serious Infections and Malignancy.", SEE_PI,
            "https://www.rxabbvie.com/pdf/humira.pdf")]

  /** `extractISILines`: every matched element gives a line, unfiltered; the two defaults only when none matched. */
  function IsiLines(els: seq<ToggleEl>): (r: seq<IsiLine>)
    ensures |els| > 0 ==> |r| == |els| && forall i | 0 <= i < |els| :: r[i] == IsiLineOf(els[i])
    ensures |els| == 0 ==> r == DEFAULT_LINES
  {
    OrDefaults(MapTo(els, IsiLineOf), DEFAULT_LINES)
  }

  method ExtractIsiLines(els: seq<ToggleEl>) returns (lines: seq<IsiLine>)
    ensures lines == IsiLines(els)
  {
    lines := Each(els, IsiLineOf);
    if |lines| == 0 {
      lines := DEFAULT_LINES;
    }
  }

  /** Every line carries a toggle caption and a link caption, whether scraped or default. */
  lemma LinesCaptioned(els: seq<ToggleEl>)
    ensures forall i | 0 <= i < |IsiLines(els)| :: IsiLines(els)[i].toggle != "" && IsiLines(els)[i].linkText != ""
  {
    var r := IsiLines(els);
    if |els| > 0 {
      forall i | 0 <= i < |r| ensures r[i].toggle != "" && r[i].linkText != "" {
        var e := els[i];
        assert r[i] == IsiLineOf(e);
      }
    }
  }

  // ---------------------------------------------------------------------------
  // The hero block's rows

  function LogoImg(logo: string): string {
    "<img src=\"" + logo + "\" alt=\"SKYRIZI Logo\">"
  }

  function LineRow(isi: IsiLine): RowInput {
    StrCells([isi.toggle, isi.text + " <a href=\"" + isi.linkHref + "\">" + isi.linkText + "</a>"])
  }

  /** `createHeroBlock`: the logo element beside an empty cell, then one row per line. */
  function HeroRows(b: Brand, lines: seq<IsiLine>): seq<RowInput> {
    [Cells([Element(LogoImg(b.logo)), Str("")])] + MapTo(lines, LineRow)
  }

  method CreateHeroBlock(b: Brand, lines: seq<IsiLine>) returns (rows: seq<RowInput>)
    ensures rows == HeroRows(b, lines)
  {
    rows := [Cells([Element(LogoImg(b.logo)), Str("")])];
    var more := Each(lines, LineRow);
    rows := rows + more;
  }

  /** One logo row, then for each line its toggle and its text followed by the link, in order. */
  lemma HeroRowsShape(b: Brand, lines: seq<IsiLine>)
    ensures |HeroRows(b, lines)| == 1 + |lines|
    ensures HeroRows(b, lines)[0] == Cells([Element(LogoImg(b.logo)), Str("")])
    ensures forall i | 0 <= i < |lines| ::
              HeroRows(b, lines)[i + 1].entries ==
              [Str(lines[i].toggle), Str(lines[i].text + " <a href=\"" + lines[i].linkHref + "\">" + lines[i].linkText + "</a>")]
  {
    forall i | 0 <= i < |lines|
      ensures HeroRows(b, lines)[i + 1].entries ==
        [Str(lines[i].toggle), Str(lines[i].text + " <a href=\"" + lines[i].linkHref + "\">" + lines[i].linkText + "</a>")]
    {
      assert HeroRows(b, lines)[i + 1] == LineRow(lines[i]);
    }
  }
}
