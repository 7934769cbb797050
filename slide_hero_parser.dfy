/**
 * The hero parser of the slide importer: a background-image row, a text row built from
 * the content mapping or the slide's own text, and a row of call-to-action links.
 */
module SlideHeroParser {
  import opened Wrappers
  import opened Text
  import opened Scrape
  import opened ParsedBlock

  /** The slide's `img.slide`: its `src` property and its `data-src` attribute. */
  datatype SlideImage = SlideImage(src: string, dataSrc: Option<string>)

  /** What the parser reads from the slide: the image, and the text contents of its headings and paragraphs in order. */
  datatype Slide = Slide(image: Option<SlideImage>, texts: seq<string>)

  predicate NonBlank(t: string) {
    Trim(t) != ""
  }

  /** `extractOverlayText`: the trimmed non-blank texts, in order, one per line. */
  function OverlayText(texts: seq<string>): string {
    Join(Keep(texts, NonBlank, Trim), "\n")
  }

  method ExtractOverlayText(texts: seq<string>) returns (t: string)
    ensures t == OverlayText(texts)
  {
    var kept := Collect(texts, NonBlank, Trim);
    t := Join(kept, "\n");
  }

  /** A non-empty string with nothing to trim. */
  predicate Clean(t: string) {
    t != "" && Trim(t) == t
  }

  /** The kept texts are all clean. */
  lemma KeptClean(texts: seq<string>)
    ensures forall j | 0 <= j < |Keep(texts, NonBlank, Trim)| :: Clean(Keep(texts, NonBlank, Trim)[j])
  {
    forall i | 0 <= i < |texts| && NonBlank(texts[i]) ensures Clean(Trim(texts[i])) {
      TrimIdempotent(texts[i]);
    }
    KeepAll(texts, NonBlank, Trim, Clean);
  }

  /** The overlay text is empty exactly when every text is blank, and it never starts or ends with white space. */
  lemma OverlayTextShape(texts: seq<string>)
    ensures OverlayText(texts) == "" <==> forall i | 0 <= i < |texts| :: !NonBlank(texts[i])
    ensures Trim(OverlayText(texts)) == OverlayText(texts)
  {
    var kept := Keep(texts, NonBlank, Trim);
    KeepNone(texts, NonBlank, Trim);
    if |kept| > 0 {
      KeptClean(texts);
      JoinEnds(kept, "\n");
      TrimKeepsInner(OverlayText(texts));
    }
  }

  /** A join of clean pieces is not empty and neither starts nor ends with white space. */
  lemma {:induction false} JoinEnds(parts: seq<string>, sep: string)
    requires |parts| > 0
    requires forall i | 0 <= i < |parts| :: Clean(parts[i])
    ensures Join(parts, sep) != ""
    ensures !IsJsSpace(Join(parts, sep)[0]) && !IsJsSpace(Join(parts, sep)[|Join(parts, sep)| - 1])
  {
    var p := parts[0];
    assert Clean(p);
    assert p != "" && !IsJsSpace(p[0]) && !IsJsSpace(p[|p| - 1]);
    if |parts| > 1 {
      assert forall i | 0 <= i < |parts[1..]| :: parts[1..][i] == parts[i + 1];
      JoinEnds(parts[1..], sep);
      var r := Join(parts[1..], sep);
      assert Join(parts, sep) == p + sep + r;
      assert (p + sep + r)[0] == p[0];
      assert (p + sep + r)[|p + sep + r| - 1] == r[|r| - 1];
    }
  }

  /** `heroImage.src || heroImage.dataset.src`. */
  function ImageSrc(img: SlideImage): string {
    OrElse(img.src, GetOr(img.dataSrc, ""))
  }

  /** `viewContent.heroText || overlayText || ''`. */
  function BodyText(vc: ViewContent, overlay: string): string {
    OrElse(GetOr(vc.heroText, ""), overlay)
  }

  /** The text accumulated with `+=` before trimming; each part only when its value is non-empty. */
  function TextContent(headline: string, subhead: string, body: string): (t: string)
    ensures t == "" <==> headline == "" && subhead == "" && body == ""
  {
    (if headline != "" then "**" + headline + "**\n" else "")
    + (if subhead != "" then "# " + subhead + "\n" else "")
    + (if body != "" then "\n" + body else "")
  }

  method BuildTextContent(headline: string, subhead: string, body: string) returns (t: string)
    ensures t == TextContent(headline, subhead, body)
  {
    t := "";
    if headline != "" {
      t := t + "**" + headline + "**\n";
    }
    if subhead != "" {
      t := t + "# " + subhead + "\n";
    }
    if body != "" {
      t := t + "\n" + body;
    }
  }

  function ButtonLink(b: CtaButton): string {
    "[" + b.caption + "](" + b.link + ")"
  }

  /** The block's name. */
  const HERO := "Hero"

  const BACKGROUND_ALT := "![Hero Background]("

  /** The background row's Markdown image. */
  function Background(src: string): string {
    BACKGROUND_ALT + src + ")"
  }

  /** The rows once an image source was found. */
  function HeroRows(src: string, vc: ViewContent, overlay: string): seq<seq<string>> {
    var t := TextContent(GetOr(vc.heroHeadline, ""), GetOr(vc.heroSubhead, ""), BodyText(vc, overlay));
    [[Background(src)]]
    + (if t != "" then [[Trim(t)]] else [])
    + (if |vc.buttons| > 0 then [[Join(MapTo(vc.buttons, ButtonLink), "\n")]] else [])
  }

  /** `parseHeroBlock`. */
  function HeroBlock(s: Slide, vc: ViewContent): Option<Parsed> {
    match s.image
    case None => None
    case Some(img) =>
      if ImageSrc(img) == "" then Some(Parsed(HERO, []))
      else Some(Parsed(HERO, HeroRows(ImageSrc(img), vc, OverlayText(s.texts))))
  }

  method ParseHeroBlock(s: Slide, vc: ViewContent) returns (r: Option<Parsed>)
    ensures r == HeroBlock(s, vc)
  {
    if s.image.None? {
      return None;
    }
    var rows: seq<seq<string>> := [];
    var src := ImageSrc(s.image.value);
    if src != "" {
      var bg := [Background(src)];
      rows := rows + [bg];
      var overlay := ExtractOverlayText(s.texts);
      var t := BuildTextContent(GetOr(vc.heroHeadline, ""), GetOr(vc.heroSubhead, ""), BodyText(vc, overlay));
      if t != "" {
        rows := rows + [[Trim(t)]];
      }
      ghost var textRows := if t != "" then [[Trim(t)]] else [];
      assert rows == [bg] + textRows;
      if |vc.buttons| > 0 {
        var links := Each(vc.buttons, ButtonLink);
        rows := rows + [[Join(links, "\n")]];
      }
      ghost var buttonRows := if |vc.buttons| > 0 then [[Join(MapTo(vc.buttons, ButtonLink), "\n")]] else [];
      assert rows == [bg] + textRows + buttonRows;
      SplitRows(src, vc, overlay, bg, textRows, buttonRows);
    }
    r := Some(Parsed(HERO, rows));
  }

  lemma SplitRows(src: string, vc: ViewContent, overlay: string, bg: seq<string>,
                  textRows: seq<seq<string>>, buttonRows: seq<seq<string>>)
    requires bg == [Background(src)]
    requires var t := TextContent(GetOr(vc.heroHeadline, ""), GetOr(vc.heroSubhead, ""), BodyText(vc, overlay));
             textRows == if t != "" then [[Trim(t)]] else []
    requires buttonRows == if |vc.buttons| > 0 then [[Join(MapTo(vc.buttons, ButtonLink), "\n")]] else []
    ensures HeroRows(src, vc, overlay) == [bg] + textRows + buttonRows
  {
  }

  /**
   * No block without a slide image; no rows without an image source; otherwise the
   * background row first, a text row exactly when some text part is non-empty, a
   * buttons row exactly when the mapping has buttons, and so at most three rows.
   */
  lemma HeroBlockShape(s: Slide, vc: ViewContent)
    ensures HeroBlock(s, vc).None? <==> s.image.None?
    ensures s.image.Some? && ImageSrc(s.image.value) == "" ==> HeroBlock(s, vc) == Some(Parsed(HERO, []))
    ensures s.image.Some? && ImageSrc(s.image.value) != "" ==>
      var rows := HeroBlock(s, vc).value.rows;
      var hasText := GetOr(vc.heroHeadline, "") != "" || GetOr(vc.heroSubhead, "") != ""
                     || BodyText(vc, OverlayText(s.texts)) != "";
      1 <= |rows| <= 3 && rows[0] == [Background(ImageSrc(s.image.value))]
      && |rows| == 1 + (if hasText then 1 else 0) + (if |vc.buttons| > 0 then 1 else 0)
      && (|vc.buttons| > 0 ==> rows[|rows| - 1] == [Join(MapTo(vc.buttons, ButtonLink), "\n")])
  {
  }

  /** With only a body text, the text row is the trimmed body: the leading line break is trimmed away. */
  lemma BodyOnlyRow(body: string)
    requires body != ""
    ensures Trim(TextContent("", "", body)) == Trim(body)
  {
    assert TextContent("", "", body) == "\n" + body;
    assert ("\n" + body)[1..] == body;
  }
}
