/**
 * The cards parser of the slide importer: every `data-goto-view` button of every
 * navigation section becomes a `[label, /venclexta/<view>]` row, the view cut at its
 * first comma; view identifiers double as labels in title case.
 */
module CardsParser {
  import opened Wrappers
  import opened Text
  import opened Scrape
  import opened ParsedBlock

  /** A `button[data-goto-view]`: its text content and its `data-goto-view` value. */
  datatype GotoButton = GotoButton(text: string, gotoView: Option<string>)

  /** `targetView?.split(',')[0] || ''`: the view up to its first comma. */
  function CleanView(v: Option<string>): (r: string)
    ensures ',' !in r
    ensures v.None? ==> r == ""
    ensures v.Some? ==> StartsWith(v.value, r) && (|r| < |v.value| ==> v.value[|r|] == ',')
  {
    match v
    case None => ""
    case Some(s) => SplitHead(s, ','); Split(s, ',')[0]
  }

  // ---------------------------------------------------------------------------
  // View identifiers as labels

  /** `word.charAt(0).toUpperCase() + word.slice(1)`. */
  function Capitalize(w: string): string {
    if w == "" then "" else [UpperChar(w[0])] + w[1..]
  }

  /** `extractViewName`: the `-`-separated words, capitalised, joined by spaces. */
  function ExtractViewName(v: string): string {
    if v == "" then "" else Join(MapTo(Split(v, '-'), Capitalize), " ")
  }

  /**
   * The same label read character by character: a hyphen becomes a space, and a
   * character at the start or right after a hyphen is upper-cased.
   */
  function TitleCase(s: string, atStart: bool): (r: string)
    ensures |r| == |s|
    ensures forall i | 0 <= i < |s| && s[i] == '-' :: r[i] == ' '
    ensures forall i | 0 <= i < |s| && s[i] != '-' ::
              r[i] == (if (i == 0 && atStart) || (i > 0 && s[i - 1] == '-') then UpperChar(s[i]) else s[i])
  {
    if s == [] then ""
    else if s[0] == '-' then " " + TitleCase(s[1..], true)
    else [if atStart then UpperChar(s[0]) else s[0]] + TitleCase(s[1..], false)
  }

  /** The split pieces joined with only the first one left as it is. */
  function RestTitled(parts: seq<string>): string
    requires |parts| >= 1
  {
    Join([parts[0]] + MapTo(parts[1..], Capitalize), " ")
  }

  lemma {:induction false} TitleCaseSplit(s: string)
    ensures Join(MapTo(Split(s, '-'), Capitalize), " ") == TitleCase(s, true)
    ensures RestTitled(Split(s, '-')) == TitleCase(s, false)
  {
    if s != [] {
      TitleCaseSplit(s[1..]);
      if s[0] == '-' {
        DashStep(s);
      } else {
        LetterStep(s);
      }
    }
  }

  /** A leading hyphen opens an empty first word, and the next word is capitalised either way. */
  lemma DashStep(s: string)
    requires s != [] && s[0] == '-'
    requires Join(MapTo(Split(s[1..], '-'), Capitalize), " ") == TitleCase(s[1..], true)
    ensures Join(MapTo(Split(s, '-'), Capitalize), " ") == TitleCase(s, true)
    ensures RestTitled(Split(s, '-')) == TitleCase(s, false)
  {
    var rest := Split(s[1..], '-');
    var caps := MapTo(rest, Capitalize);
    var parts := [[]] + rest;
    assert Split(s, '-') == parts;
    assert parts[1..] == rest;
    MapToCons(parts, Capitalize);
    assert MapTo(parts, Capitalize) == [""] + caps;
    var joined := [""] + caps;
    assert joined[1..] == caps;
    assert Join(joined, " ") == "" + " " + Join(caps, " ");
  }

  /** A leading letter joins the first word, upper-cased only at the start. */
  lemma LetterStep(s: string)
    requires s != [] && s[0] != '-'
    requires RestTitled(Split(s[1..], '-')) == TitleCase(s[1..], false)
    ensures Join(MapTo(Split(s, '-'), Capitalize), " ") == TitleCase(s, true)
    ensures RestTitled(Split(s, '-')) == TitleCase(s, false)
  {
    var rest := Split(s[1..], '-');
    var more := MapTo(rest[1..], Capitalize);
    var tail := [rest[0]] + more;
    var parts := [[s[0]] + rest[0]] + rest[1..];
    assert Split(s, '-') == parts;
    assert parts[1..] == rest[1..];
    assert tail[0] == rest[0] && tail[1..] == more;
    assert RestTitled(rest) == Join(tail, " ");
    assert Capitalize([s[0]] + rest[0]) == [UpperChar(s[0])] + rest[0] by {
      assert (([s[0]] + rest[0])[1..]) == rest[0];
    }
    MapToCons(parts, Capitalize);
    assert MapTo(parts, Capitalize) == [[UpperChar(s[0])] + rest[0]] + more;
    JoinCons([UpperChar(s[0])], tail, " ");
    JoinCons([s[0]], tail, " ");
    assert RestTitled(parts) == Join([[s[0]] + rest[0]] + more, " ");
  }

  /** The label of a view is its identifier in title case, of the same length, hyphens as spaces. */
  lemma ViewNameIsTitleCase(v: string)
    ensures ExtractViewName(v) == TitleCase(v, true)
    ensures |ExtractViewName(v)| == |v|
    ensures v != "" ==> ExtractViewName(v) != ""
  {
    TitleCaseSplit(v);
  }

  // ---------------------------------------------------------------------------
  // The cards block

  /** `button.textContent.trim() || extractViewName(cleanView)`. */
  function ButtonLabel(b: GotoButton): string {
    OrElse(Trim(b.text), ExtractViewName(CleanView(b.gotoView)))
  }

  predicate HasView(b: GotoButton) {
    CleanView(b.gotoView) != ""
  }

  function CardRow(b: GotoButton): seq<string> {
    [ButtonLabel(b), "/venclexta/" + CleanView(b.gotoView)]
  }

  /** The buttons of all navigation sections, sections in order. */
  function Flat<T>(xss: seq<seq<T>>): seq<T> {
    if xss == [] then [] else Flat(xss[..|xss| - 1]) + xss[|xss| - 1]
  }

  /** `parseCardsBlock`, given the content-mapping buttons and each section's goto buttons. */
  function CardsBlock(buttons: seq<CtaButton>, navs: seq<seq<GotoButton>>): Option<Parsed> {
    if |buttons| > 0 then None
    else if |navs| == 0 then None
    else
      var rows := Keep(Flat(navs), HasView, CardRow);
      if |rows| > 0 then Some(Parsed("Cards", rows)) else None
  }

  method ParseCardsBlock(buttons: seq<CtaButton>, navs: seq<seq<GotoButton>>) returns (r: Option<Parsed>)
    ensures r == CardsBlock(buttons, navs)
  {
    if |buttons| > 0 {
      return None;
    }
    if |navs| == 0 {
      return None;
    }
    var rows: seq<seq<string>> := [];
    var i := 0;
    while i < |navs|
      invariant 0 <= i <= |navs|
      invariant rows == Keep(Flat(navs[..i]), HasView, CardRow)
    {
      var more := Collect(navs[i], HasView, CardRow);
      assert navs[..i + 1][..i] == navs[..i];
      KeepAppend(Flat(navs[..i]), navs[i], HasView, CardRow);
      rows := rows + more;
      i := i + 1;
    }
    assert navs[..i] == navs;
    if |rows| > 0 {
      r := Some(Parsed("Cards", rows));
    } else {
      r := None;
    }
  }

  /** A row: a non-empty label and the view's path, the view non-empty and free of commas. */
  predicate WellFormedRow(row: seq<string>) {
    |row| == 2 && row[0] != "" && StartsWith(row[1], "/venclexta/") && |row[1]| > 11 && ',' !in row[1][11..]
  }

  /**
   * A block comes back exactly when there are no content-mapping buttons and some
   * button names a view; its rows are those buttons' rows, in order, all well formed.
   */
  lemma CardsBlockShape(buttons: seq<CtaButton>, navs: seq<seq<GotoButton>>)
    ensures CardsBlock(buttons, navs).Some? <==>
              |buttons| == 0 && exists i | 0 <= i < |Flat(navs)| :: HasView(Flat(navs)[i])
    ensures CardsBlock(buttons, navs).Some? ==>
              CardsBlock(buttons, navs).value.name == "Cards" &&
              CardsBlock(buttons, navs).value.rows == Keep(Flat(navs), HasView, CardRow)
    ensures CardsBlock(buttons, navs).Some? ==>
              forall j | 0 <= j < |CardsBlock(buttons, navs).value.rows| :: WellFormedRow(CardsBlock(buttons, navs).value.rows[j])
  {
    var all := Flat(navs);
    BlockPresent(buttons, navs);
    AnyView(all);
    forall i | 0 <= i < |all| && HasView(all[i]) ensures WellFormedRow(CardRow(all[i])) {
      RowWellFormed(all[i]);
    }
    KeepAll(all, HasView, CardRow, WellFormedRow);
  }

  lemma BlockPresent(buttons: seq<CtaButton>, navs: seq<seq<GotoButton>>)
    ensures CardsBlock(buttons, navs).Some? <==>
              |buttons| == 0 && |navs| > 0 && |Keep(Flat(navs), HasView, CardRow)| > 0
  {
  }

  lemma AnyView(all: seq<GotoButton>)
    ensures |Keep(all, HasView, CardRow)| > 0 <==> exists i | 0 <= i < |all| :: HasView(all[i])
  {
    KeepNone(all, HasView, CardRow);
  }

  lemma RowWellFormed(b: GotoButton)
    requires HasView(b)
    ensures WellFormedRow(CardRow(b))
  {
    var v := CleanView(b.gotoView);
    ViewNameIsTitleCase(v);
    var p := "/venclexta/" + v;
    assert p[11..] == v;
    assert p[..11] == "/venclexta/";
  }

  // ---------------------------------------------------------------------------
  // Navigation cards

  /** A navigation element: its title's text, its anchor's `href`, its `data-goto-view` and its image's `src`. */
  datatype NavCardEl = NavCardEl(title: Option<string>, href: Option<string>, gotoView: Option<string>, image: Option<string>)

  datatype NavCard = NavCard(title: string, link: string, image: string)

  /** `href || gotoView || ''`: the anchor's link when it has one, else the goto view; the title is not trimmed. */
  function NavCardOf(e: NavCardEl): (c: NavCard)
    ensures e.href.Some? && e.href.value != "" ==> c.link == e.href.value
    ensures (e.href.None? || e.href.value == "") ==> c.link == GetOr(e.gotoView, "")
    ensures c.title == GetOr(e.title, "")
  {
    NavCard(GetOr(e.title, ""), OrElse(GetOr(e.href, ""), GetOr(e.gotoView, "")), GetOr(e.image, ""))
  }

  predicate HasTitleOrLink(e: NavCardEl) {
    NavCardOf(e).title != "" || NavCardOf(e).link != ""
  }

  function NavigationCards(els: seq<NavCardEl>): seq<NavCard> {
    Keep(els, HasTitleOrLink, NavCardOf)
  }

  method ParseNavigationCards(els: seq<NavCardEl>) returns (cards: seq<NavCard>)
    ensures cards == NavigationCards(els)
  {
    cards := Collect(els, HasTitleOrLink, NavCardOf);
  }

  /**
   * Every card has a title or a link, the anchor's link preferred to the goto view;
   * the list is empty only when no element has either.
   */
  lemma NavigationCardsShape(els: seq<NavCardEl>)
    ensures forall j | 0 <= j < |NavigationCards(els)| ::
              NavigationCards(els)[j].title != "" || NavigationCards(els)[j].link != ""
    ensures NavigationCards(els) == [] <==> forall i | 0 <= i < |els| :: !HasTitleOrLink(els[i])
    ensures forall i | 0 <= i < |els| && HasTitleOrLink(els[i]) :: NavCardOf(els[i]) in NavigationCards(els)
  {
    KeepAll(els, HasTitleOrLink, NavCardOf, (c: NavCard) => c.title != "" || c.link != "");
    KeepNone(els, HasTitleOrLink, NavCardOf);
    KeepComplete(els, HasTitleOrLink, NavCardOf);
  }
}
