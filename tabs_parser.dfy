/**
 * The tabs parser of the slide importer: indication elements first, then buttons that
 * go to an AML or CLL view, then generic tabs; the first kind present decides the rows.
 */
module TabsParser {
  import opened Wrappers
  import opened Text
  import opened Scrape
  import opened ParsedBlock

  /** A `[data-indication]` element: the attribute's value and its inner HTML. */
  datatype IndicationTabEl = IndicationTabEl(indication: string, innerHtml: string)

  /** A button: its text content and its `data-goto-view` attribute. */
  datatype TabButton = TabButton(text: string, gotoView: Option<string>)

  /** A `.tab` or `[role="tab"]` element: its text, its `aria-label`, and the inner HTML of the panel labelled by it, if any. */
  datatype GenericTab = GenericTab(text: string, ariaLabel: Option<string>, panelHtml: Option<string>)

  datatype TabsContainer = TabsContainer(indications: seq<IndicationTabEl>, buttons: seq<TabButton>, tabs: seq<GenericTab>)

  /** `button[data-goto-view*="aml"], button[data-goto-view*="cll"]`. */
  predicate TargetsAmlCll(b: TabButton) {
    b.gotoView.Some? && (Contains(b.gotoView.value, "aml") || Contains(b.gotoView.value, "cll"))
  }

  function Self<T>(x: T): T {
    x
  }

  function IndicationRow(e: IndicationTabEl): seq<string> {
    [e.indication, e.innerHtml]
  }

  /** `[textContent.trim() || gotoView, gotoView || '']`. */
  function ButtonRow(b: TabButton): seq<string> {
    [OrElse(Trim(b.text), GetOr(b.gotoView, "")), GetOr(b.gotoView, "")]
  }

  /** `[textContent.trim() || aria-label || '', panel?.innerHTML || '']`. */
  function GenericRow(t: GenericTab): seq<string> {
    [OrElse(Trim(t.text), GetOr(t.ariaLabel, "")), GetOr(t.panelHtml, "")]
  }

  function TabButtons(c: TabsContainer): seq<TabButton> {
    Keep(c.buttons, TargetsAmlCll, Self)
  }

  /** `parseTabsBlock`. */
  function TabsBlock(c: TabsContainer): Option<Parsed> {
    if |c.indications| > 0 then Some(Parsed("Tabs", MapTo(c.indications, IndicationRow)))
    else if |TabButtons(c)| > 0 then Some(Parsed("Tabs", MapTo(TabButtons(c), ButtonRow)))
    else if |c.tabs| > 0 then Some(Parsed("Tabs", MapTo(c.tabs, GenericRow)))
    else None
  }

  method ParseTabsBlock(c: TabsContainer) returns (r: Option<Parsed>)
    ensures r == TabsBlock(c)
  {
    var rows: seq<seq<string>> := [];
    if |c.indications| > 0 {
      rows := Each(c.indications, IndicationRow);
      return Some(Parsed("Tabs", rows));
    }
    var tabButtons := TabButtons(c);
    if |tabButtons| > 0 {
      rows := Each(tabButtons, ButtonRow);
      return Some(Parsed("Tabs", rows));
    }
    rows := Each(c.tabs, GenericRow);
    r := if |rows| > 0 then Some(Parsed("Tabs", rows)) else None;
  }

  /**
   * Indication elements win over everything else; AML/CLL buttons win over generic tabs;
   * a block always has a row, and there is none only when all three lists are empty.
   * Every button row targets an AML or CLL view.
   */
  lemma TabsPriority(c: TabsContainer)
    ensures |c.indications| > 0 ==> TabsBlock(c) == Some(Parsed("Tabs", MapTo(c.indications, IndicationRow)))
    ensures |c.indications| == 0 && |TabButtons(c)| > 0 ==> TabsBlock(c) == Some(Parsed("Tabs", MapTo(TabButtons(c), ButtonRow)))
    ensures |c.indications| == 0 && |TabButtons(c)| == 0 ==>
              TabsBlock(c) == if |c.tabs| > 0 then Some(Parsed("Tabs", MapTo(c.tabs, GenericRow))) else None
    ensures TabsBlock(c).None? <==>
              (|c.indications| == 0 && |c.tabs| == 0 && forall i | 0 <= i < |c.buttons| :: !TargetsAmlCll(c.buttons[i]))
    ensures TabsBlock(c).Some? ==> TabsBlock(c).value.name == "Tabs" && |TabsBlock(c).value.rows| >= 1
    ensures forall j | 0 <= j < |TabButtons(c)| :: TargetsAmlCll(TabButtons(c)[j]) && |ButtonRow(TabButtons(c)[j])| == 2
  {
    KeepNone(c.buttons, TargetsAmlCll, Self);
    KeepAll(c.buttons, TargetsAmlCll, Self, TargetsAmlCll);
  }

  // ---------------------------------------------------------------------------
  // Indication tabs

  const PATTERNS := ["aml", "cll", "mds", "all", "cml"]

  datatype IndicationTab = IndicationTab(name: string, active: bool)

  /**
   * `parseIndicationTabs`, given the element found for each pattern: a pattern maps to
   * whether its element has the class `active`, and is absent when no element was found.
   */
  function IndicationTabOf(found: map<string, bool>, p: string): IndicationTab {
    IndicationTab(Upper(p), if p in found then found[p] else false)
  }

  /** The test of the `forEach` over the patterns: an element was found for the pattern. */
  function IsFound(found: map<string, bool>): string -> bool {
    p => p in found
  }

  function TabMaker(found: map<string, bool>): string -> IndicationTab {
    p => IndicationTabOf(found, p)
  }

  function IndicationTabs(found: map<string, bool>): seq<IndicationTab> {
    Keep(PATTERNS, IsFound(found), TabMaker(found))
  }

  method ParseIndicationTabs(found: map<string, bool>) returns (tabs: seq<IndicationTab>)
    ensures tabs == IndicationTabs(found)
  {
    tabs := Collect(PATTERNS, IsFound(found), TabMaker(found));
  }

  /** The tab a found pattern yields, under its upper-case name. */
  function TabIfFound(found: map<string, bool>, p: string, name: string): seq<IndicationTab> {
    if p in found then [IndicationTab(name, found[p])] else []
  }

  /**
   * One tab at most per pattern, in the fixed order AML, CLL, MDS, ALL, CML, each
   * present exactly when its element was found and carrying that element's active flag.
   */
  lemma IndicationTabsInOrder(found: map<string, bool>)
    ensures IndicationTabs(found) ==
      TabIfFound(found, "aml", "AML") + TabIfFound(found, "cll", "CLL") + TabIfFound(found, "mds", "MDS")
      + TabIfFound(found, "all", "ALL") + TabIfFound(found, "cml", "CML")
    ensures |IndicationTabs(found)| <= 5
  {
    var p := IsFound(found);
    var f := TabMaker(found);
    assert PATTERNS == ["aml", "cll", "mds", "all"] + ["cml"];
    assert ["aml", "cll", "mds", "all"] == ["aml", "cll", "mds"] + ["all"];
    assert ["aml", "cll", "mds"] == ["aml", "cll"] + ["mds"];
    assert ["aml", "cll"] == ["aml"] + ["cll"];
    KeepAppend(["aml", "cll", "mds", "all"], ["cml"], p, f);
    KeepAppend(["aml", "cll", "mds"], ["all"], p, f);
    KeepAppend(["aml", "cll"], ["mds"], p, f);
    KeepAppend(["aml"], ["cll"], p, f);
    PatternNames();
    OneTab(found, "aml", "AML");
    OneTab(found, "cll", "CLL");
    OneTab(found, "mds", "MDS");
    OneTab(found, "all", "ALL");
    OneTab(found, "cml", "CML");
  }

  /** The tab names are the patterns in upper case. */
  lemma PatternNames()
    ensures Upper("aml") == "AML" && Upper("cll") == "CLL" && Upper("mds") == "MDS"
    ensures Upper("all") == "ALL" && Upper("cml") == "CML"
  {
    UpperThree('a', 'm', 'l');
    UpperThree('c', 'l', 'l');
    UpperThree('m', 'd', 's');
    UpperThree('a', 'l', 'l');
    UpperThree('c', 'm', 'l');
  }

  lemma UpperThree(a: char, b: char, c: char)
    requires 'a' <= a <= 'z' && 'a' <= b <= 'z' && 'a' <= c <= 'z'
    ensures Upper([a, b, c]) == [UpperChar(a), UpperChar(b), UpperChar(c)]
  {
  }

  /** A single pattern yields its tab exactly when it was found. */
  lemma OneTab(found: map<string, bool>, q: string, name: string)
    requires Upper(q) == name
    ensures Keep([q], IsFound(found), TabMaker(found)) == TabIfFound(found, q, name)
  {
    assert [q][..0] == [];
  }
}
