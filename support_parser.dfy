/**
 * The support parser of the ISA importer: title, cards, call to action and footnotes,
 * each with its own fallback; the block puts an icon key beside each card by position.
 */
module SupportParser {
  import opened Wrappers
  import opened Text
  import opened Scrape
  import opened BlockTable

  datatype Card = Card(title: string, description: string)
  datatype Cta = Cta(caption: string, link: string)
  datatype Support = Support(title: string, programName: string, cards: seq<Card>, cta: Cta, footnotes: string)

  const DEFAULT_TITLE := "Encourage your patients to enroll in"
  const DEFAULT_CTA := Cta("FIND OUT MORE", "/skyrizi-complete")
  const DEFAULT_CARDS := [
    Card("AFFORDABILITY", "Eligible commercially insured patients may pay as little as $5 per quarterly dose\U{00A7}"),
    Card("ONE-TO-ONE SUPPORT", "Insurance Specialists to help navigate insurance and Nurse Ambassadors\U{2225} to help patients start and stay on therapy"),
    Card("BRIDGE PROGRAM ELIGIBILITY", "No-cost product available for eligible patients in the event of a denial in coverage due to step-therapy requirement\U{00B6}")]
  const DEFAULT_FOOTNOTES := "\U{2021}Advanced systemics inclusive of phosphodiesterase-4 (PDE4) inhibitors, Janus kinase (JAK) inhibitors, or biologics. \U{2225}Nurse Ambassadors are provided by AbbVie and do not provide medical advice or work under the direction of the prescribing health care professional (HCP). They are trained to direct patients to speak with their HCP about any treatment-related questions, including further referrals."

  /** A card element is kept when its title text is non-empty (`first` is the title, `second` the description). */
  predicate HasTitle(e: PairEl) {
    TextOf(e.first) != ""
  }

  function CardOf(e: PairEl): Card {
    Card(Upper(TextOf(e.first)), TextOf(e.second))
  }

  function Cards(els: seq<PairEl>): (r: seq<Card>)
    ensures (exists i | 0 <= i < |els| :: HasTitle(els[i])) ==> r == Keep(els, HasTitle, CardOf)
    ensures (forall i | 0 <= i < |els| :: !HasTitle(els[i])) ==> r == DEFAULT_CARDS
  {
    OrDefaultsKeep(els, HasTitle, CardOf, DEFAULT_CARDS);
    OrDefaults(Keep(els, HasTitle, CardOf), DEFAULT_CARDS)
  }

  /** The call to action is replaced only when a matching link exists; its link falls back on its own. */
  function CtaOf(el: Option<Anchor>): (c: Cta)
    ensures el.None? ==> c == DEFAULT_CTA
    ensures el.Some? ==> c.caption == Trim(el.value.text) && c.link == OrElse(el.value.href, "/skyrizi-complete")
  {
    match el
    case None => DEFAULT_CTA
    case Some(a) => Cta(AnchorText(el), OrElse(a.href, "/skyrizi-complete"))
  }

  /** `extractSupport`. */
  function SupportOf(title: Option<string>, els: seq<PairEl>, cta: Option<Anchor>, footnotes: Option<string>): Support {
    Support(OrElse(TextOf(title), DEFAULT_TITLE), "SKYRIZI Complete", Cards(els), CtaOf(cta),
            OrElse(TextOf(footnotes), DEFAULT_FOOTNOTES))
  }

  method ExtractSupport(title: Option<string>, els: seq<PairEl>, cta: Option<Anchor>, footnotes: Option<string>)
    returns (s: Support)
    ensures s == SupportOf(title, els, cta, footnotes)
  {
    s := Support("", "SKYRIZI Complete", [], DEFAULT_CTA, "");
    s := s.(title := OrElse(TextOf(title), DEFAULT_TITLE));
    var cards := Collect(els, HasTitle, CardOf);
    s := s.(cards := cards);
    if |s.cards| == 0 {
      s := s.(cards := DEFAULT_CARDS);
    }
    if cta.Some? {
      s := s.(cta := Cta(AnchorText(cta), OrElse(cta.value.href, "/skyrizi-complete")));
    }
    s := s.(footnotes := OrElse(TextOf(footnotes), DEFAULT_FOOTNOTES));
  }

  /** Scraped card titles are non-empty and already in upper case. */
  lemma ScrapedTitlesUpper(els: seq<PairEl>)
    ensures forall j | 0 <= j < |Keep(els, HasTitle, CardOf)| ::
      Keep(els, HasTitle, CardOf)[j].title != "" && Upper(Keep(els, HasTitle, CardOf)[j].title) == Keep(els, HasTitle, CardOf)[j].title
  {
    forall e: PairEl | HasTitle(e) ensures CardOf(e).title != "" && Upper(CardOf(e).title) == CardOf(e).title {
      UpperIdempotent(TextOf(e.first));
    }
    KeepAll(els, HasTitle, CardOf, (c: Card) => c.title != "" && Upper(c.title) == c.title);
  }

  // ---------------------------------------------------------------------------
  // The support block's rows

  const CARD_ICONS := ["$5", "support", "bridge"]

  /** `cardIcons[idx] || ''`: the icon key by position, empty past the third card. */
  function IconAt(i: nat): (k: string)
    ensures i == 0 ==> k == "$5"
    ensures i == 1 ==> k == "support"
    ensures i == 2 ==> k == "bridge"
    ensures i >= 3 ==> k == ""
  {
    if i < |CARD_ICONS| then CARD_ICONS[i] else ""
  }

  function CardRow(i: nat, c: Card): RowInput {
    StrCells([IconAt(i), "**" + c.title + "** " + c.description])
  }

  function CardRows(cards: seq<Card>): (r: seq<RowInput>)
    ensures |r| == |cards| && forall i | 0 <= i < |cards| :: r[i] == CardRow(i, cards[i])
  {
    seq(|cards|, i requires 0 <= i < |cards| => CardRow(i, cards[i]))
  }

  function CtaRow(c: Cta): RowInput {
    StrCells(["<a href=\"" + c.link + "\">" + c.caption + "</a>", ""])
  }

  /** `createSupportBlock`. */
  function SupportRows(s: Support): seq<RowInput> {
    [StrCells([s.title, ""])] + CardRows(s.cards) + [CtaRow(s.cta), StrCells([s.footnotes, ""])]
  }

  method CreateSupportBlock(s: Support) returns (rows: seq<RowInput>)
    ensures rows == SupportRows(s)
  {
    var head := StrCells([s.title, ""]);
    rows := [head];
    var i := 0;
    while i < |s.cards|
      invariant 0 <= i <= |s.cards| && |rows| == i + 1 && rows[0] == head
      invariant forall k | 0 <= k < i :: rows[k + 1] == CardRow(k, s.cards[k])
    {
      rows := rows + [CardRow(i, s.cards[i])];
      i := i + 1;
    }
    assert rows == [head] + CardRows(s.cards);
    rows := rows + [CtaRow(s.cta)];
    rows := rows + [StrCells([s.footnotes, ""])];
  }

  /** cards + 3 rows: title first, card i beside its positional icon, the call to action, the footnotes last. */
  lemma SupportRowsShape(s: Support)
    ensures |SupportRows(s)| == |s.cards| + 3
    ensures SupportRows(s)[0] == StrCells([s.title, ""])
    ensures SupportRows(s)[|s.cards| + 1] == CtaRow(s.cta)
    ensures SupportRows(s)[|s.cards| + 2] == StrCells([s.footnotes, ""])
    ensures forall i | 0 <= i < |s.cards| ::
              SupportRows(s)[i + 1].entries == [Str(IconAt(i)), Str("**" + s.cards[i].title + "** " + s.cards[i].description)]
  {
    var rows := SupportRows(s);
    forall i | 0 <= i < |s.cards|
      ensures rows[i + 1].entries == [Str(IconAt(i)), Str("**" + s.cards[i].title + "** " + s.cards[i].description)]
    {
      assert rows[i + 1] == CardRow(i, s.cards[i]);
    }
  }
}
