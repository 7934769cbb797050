/**
 * The coverage block of the ISA page: rows are routed by position to the title, the
 * three tabs, the commercial and the Medicare Part D statistic, and the benefits list.
 */
module SkiIsaCoverage {
  import opened Wrappers
  import opened Text
  import opened Authored
  import opened TabState

  /** A statistic card: its kind (`commercial` or `medicare`), label, number and description. */
  datatype StatCard = StatCard(kind: string, caption: string, number: string, description: string)

  /** What the row loop fills in; `tabs` stays `None` when row 1 does not have three columns. */
  datatype Found = Found(title: Option<string>, tabs: Option<seq<string>>, stats: seq<StatCard>, benefits: Option<string>)

  datatype CoverageView = CoverageView(title: Option<string>, tabs: seq<string>, stats: seq<StatCard>, benefits: Option<string>)

  const DEFAULT_TABS := ["Overview", "National", "Local"]

  /** The position of the `national` tab, the one active at first. */
  const NATIONAL := 1

  // ---------------------------------------------------------------------------
  // `description.replace(/<sup>.*?<\/sup>/g, '')`

  predicate IsLineBreak(c: char) {
    c == '\n' || c == '\r' || c == '\U{2028}' || c == '\U{2029}'
  }

  /** `<sup>.*?<\/sup>` can match `s[..m]`: `.` matches anything but a line break. */
  predicate SupMatch(s: string, m: int) {
    StartsWith(s, "<sup>") && 11 <= m <= |s| && s[m - 6..m] == "</sup>"
    && forall k | 5 <= k < m - 6 :: !IsLineBreak(s[k])
  }

  /** The length of the shortest `<sup>…</sup>` at the start of `s`, or 0 when there is none. */
  function SupAt(s: string): (n: nat)
    ensures n > 0 ==> SupMatch(s, n) && forall m | 0 <= m < n :: !SupMatch(s, m)
    ensures n == 0 ==> forall m :: !SupMatch(s, m)
  {
    if StartsWith(s, "<sup>") then
      NoEarlierClose(s);
      if Contains(s[5..], "</sup>") then
        var i := IndexOf(s[5..], "</sup>");
        assert s[5 + i..5 + i + 6] == s[5..][i..i + 6];
        if forall k | 5 <= k < 5 + i :: !IsLineBreak(s[k]) then 5 + i + 6 else 0
      else 0
    else 0
  }

  /** Every `</sup>` that ends a match lies at or after the first `</sup>` past the opening tag. */
  lemma NoEarlierClose(s: string)
    requires StartsWith(s, "<sup>")
    ensures forall m | SupMatch(s, m) :: Contains(s[5..], "</sup>") && IndexOf(s[5..], "</sup>") <= m - 11
  {
    forall m | SupMatch(s, m)
      ensures Contains(s[5..], "</sup>") && IndexOf(s[5..], "</sup>") <= m - 11
    {
      assert s[5..][m - 11..m - 5] == "</sup>";
      ContainsAt(s[5..], "</sup>", m - 11);
      if IndexOf(s[5..], "</sup>") > m - 11 {
        assert StartsWith(s[5..][m - 11..], "</sup>");
      }
    }
  }

  /** Every shortest `<sup>…</sup>` removed, scanning from the left as a global regular-expression replace does. */
  function StripSups(s: string): string
    decreases |s|
  {
    if s == [] then []
    else if SupAt(s) > 0 then StripSups(s[SupAt(s)..])
    else [s[0]] + StripSups(s[1..])
  }

  /** Nothing is removed at a position that does not start with `<`. */
  lemma NoSupAt(s: string)
    requires s != [] && s[0] != '<'
    ensures StripSups(s) == [s[0]] + StripSups(s[1..])
  {
    assert !StartsWith(s, "<sup>") by {
      if |s| >= 5 {
        assert s[..5][0] == s[0];
      }
    }
    assert SupAt(s) == 0;
  }

  /** A description without `<` is left as it is. */
  lemma {:induction false} StripSupsPlain(s: string)
    requires '<' !in s
    ensures StripSups(s) == s
  {
    if s != [] {
      NoSupAt(s);
      StripSupsPlain(s[1..]);
    }
  }

  /** A `<sup>` footnote marker at the very end of a plain description is dropped. */
  lemma StripTrailingSup(a: string, x: string)
    requires '<' !in a && '<' !in x
    requires forall k | 0 <= k < |x| :: !IsLineBreak(x[k])
    ensures StripSups(a + "<sup>" + x + "</sup>") == a
  {
    var t := "<sup>" + x + "</sup>";
    SupWhole(x);
    assert StripSups(t) == StripSups(t[|t|..]);
    assert t[|t|..] == [];
    StripPrefix(a, t);
    Regroup(a, "<sup>", x, "</sup>");
    assert a + [] == a;
  }

  lemma Regroup(a: string, b: string, c: string, d: string)
    ensures a + b + c + d == a + (b + c + d)
  {
  }

  lemma SupWhole(x: string)
    requires '<' !in x
    requires forall k | 0 <= k < |x| :: !IsLineBreak(x[k])
    ensures SupAt("<sup>" + x + "</sup>") == |x| + 11
  {
    var t := "<sup>" + x + "</sup>";
    assert t[..5] == "<sup>";
    assert t[5..] == x + "</sup>";
    IndexOfInfix(x, "</sup>", "");
    assert x + "</sup>" + "" == t[5..];
    assert forall k | 5 <= k < 5 + |x| :: t[k] == x[k - 5];
  }

  /** Stripping a plain prefix strips nothing from it. */
  lemma {:induction false} StripPrefix(a: string, t: string)
    requires '<' !in a
    ensures StripSups(a + t) == a + StripSups(t)
  {
    if a == [] {
      assert a + t == t;
    } else {
      var c, b := a[0], a[1..];
      assert '<' !in b;
      StripPrefix(b, t);
      ConsSplit(a, t);
      StripCons(c, b + t);
      ConsSplit(a, StripSups(t));
    }
  }

  lemma ConsSplit(a: string, t: string)
    requires a != []
    ensures a + t == [a[0]] + (a[1..] + t)
  {
    assert a == [a[0]] + a[1..];
  }

  lemma StripCons(c: char, u: string)
    requires c != '<'
    ensures StripSups([c] + u) == [c] + StripSups(u)
  {
    var s := [c] + u;
    assert s[1..] == u;
    NoSupAt(s);
  }

  // ---------------------------------------------------------------------------
  // Rows by position

  function TitleOf(r: Row): Option<string> {
    if |r| > 0 then Some(ColText(r, 0)) else None
  }

  /** Row 1 gives the tabs only with at least three columns, each caption falling back on its own. */
  function TabsOf(r: Row): Option<seq<string>> {
    if |r| >= 3 then Some([OrElse(ColText(r, 0), "Overview"), OrElse(ColText(r, 1), "National"), OrElse(ColText(r, 2), "Local")])
    else None
  }

  /** A statistic row, with the defaults of its kind; the number is the percentage with its first `%` removed. */
  function StatOf(r: Row, kind: string, caption: string, percent: string): StatCard {
    StatCard(kind, OrElse(ColText(r, 0), caption), RemoveFirst(OrElse(ColText(r, 1), percent), "%"),
             StripSups(OrElse(ColText(r, 2), "Preferred Coverage")))
  }

  function Commercial(r: Row): StatCard {
    StatOf(r, "commercial", "Commercial", "99%")
  }

  function Medicare(r: Row): StatCard {
    StatOf(r, "medicare", "Medicare Part D", "97%")
  }

  function BenefitsOf(r: Row): Option<string> {
    if |r| > 0 then Some(r[0].html) else None
  }

  /** One pass of the `forEach` body: row `index` goes where its position sends it. */
  function Step(f: Found, index: nat, r: Row): Found {
    if index == 0 && |r| > 0 then f.(title := Some(ColText(r, 0)))
    else if index == 1 && |r| >= 3 then f.(tabs := TabsOf(r))
    else if index == 2 then f.(stats := f.stats + [Commercial(r)])
    else if index == 3 then f.(stats := f.stats + [Medicare(r)])
    else if index == 4 && |r| > 0 then f.(benefits := Some(r[0].html))
    else f
  }

  const NOTHING_FOUND := Found(None, None, [], None)

  /** The loop's result after the rows `rows`, one step per row. */
  function Routed(rows: seq<Row>): Found {
    if rows == [] then NOTHING_FOUND
    else Step(Routed(rows[..|rows| - 1]), |rows| - 1, rows[|rows| - 1])
  }

  /** What each position contributes, read off the rows directly. */
  function FoundIn(rows: seq<Row>): Found {
    Found(if |rows| > 0 then TitleOf(rows[0]) else None,
          if |rows| > 1 then TabsOf(rows[1]) else None,
          (if |rows| > 2 then [Commercial(rows[2])] else []) + (if |rows| > 3 then [Medicare(rows[3])] else []),
          if |rows| > 4 then BenefitsOf(rows[4]) else None)
  }

  /** Rows are routed by position alone: row 0 to the title, 1 to the tabs, 2 and 3 to the statistics, 4 to the benefits, the rest nowhere. */
  lemma {:induction false} RoutedByPosition(rows: seq<Row>)
    ensures Routed(rows) == FoundIn(rows)
  {
    if rows != [] {
      RoutedByPosition(rows[..|rows| - 1]);
      StepExtends(rows);
    }
  }

  /** One more row changes only the field its position routes to. */
  lemma StepExtends(rows: seq<Row>)
    requires rows != []
    ensures Step(FoundIn(rows[..|rows| - 1]), |rows| - 1, rows[|rows| - 1]) == FoundIn(rows)
  {
    var init := rows[..|rows| - 1];
    assert forall k | 0 <= k < |init| :: init[k] == rows[k];
    var n := |rows| - 1;
    if n == 0 {
    } else if n == 1 {
    } else if n == 2 {
    } else if n == 3 {
      assert FoundIn(init).stats == [Commercial(rows[2])];
    } else if n == 4 {
    } else {
      assert FoundIn(init) == FoundIn(rows);
    }
  }

  /** `decorate`, as the view it builds: the tabs default as a whole when row 1 gave none. */
  function CoverageOf(rows: seq<Row>): CoverageView {
    var f := Routed(rows);
    CoverageView(f.title, GetOr(f.tabs, DEFAULT_TABS), f.stats, f.benefits)
  }

  method Route(f: Found, index: nat, r: Row) returns (g: Found)
    ensures g == Step(f, index, r)
  {
    g := f;
    if index == 0 && |r| > 0 {
      g := g.(title := Some(ColText(r, 0)));
    }
    if index == 1 && |r| >= 3 {
      g := g.(tabs := TabsOf(r));
    }
    if index == 2 {
      g := g.(stats := g.stats + [Commercial(r)]);
    }
    if index == 3 {
      g := g.(stats := g.stats + [Medicare(r)]);
    }
    if index == 4 && |r| > 0 {
      g := g.(benefits := Some(r[0].html));
    }
  }

  /** `decorate`: the row loop, the default tabs, and the tab buttons with `national` active. */
  method Decorate(rows: seq<Row>) returns (view: CoverageView, tabs: ChoiceBar)
    ensures view == CoverageOf(rows)
    ensures fresh(tabs) && tabs.Count() == 3 && tabs.OnlyActive(NATIONAL)
  {
    var f := NOTHING_FOUND;
    var index := 0;
    while index < |rows|
      invariant 0 <= index <= |rows|
      invariant f == Routed(rows[..index])
    {
      assert rows[..index + 1][..index] == rows[..index];
      f := Route(f, index, rows[index]);
      index := index + 1;
    }
    assert rows[..index] == rows;
    var shown := if f.tabs.Some? then f.tabs.value else DEFAULT_TABS;
    tabs := new ChoiceBar(3, NATIONAL);
    view := CoverageView(f.title, shown, f.stats, f.benefits);
  }

  /**
   * Exactly three tabs, from row 1 when it has three columns and the defaults otherwise;
   * at most two statistics, commercial before medicare, with the defaults of their kind.
   */
  lemma CoverageTabs(rows: seq<Row>)
    ensures |CoverageOf(rows).tabs| == 3
    ensures (|rows| <= 1 || |rows[1]| < 3) ==> CoverageOf(rows).tabs == DEFAULT_TABS
    ensures |rows| > 1 && |rows[1]| >= 3 ==> CoverageOf(rows).tabs == TabsOf(rows[1]).value
  {
    RoutedByPosition(rows);
  }

  lemma CoverageStats(rows: seq<Row>)
    ensures |CoverageOf(rows).stats| == (if |rows| >= 4 then 2 else if |rows| == 3 then 1 else 0)
    ensures |rows| > 2 ==> CoverageOf(rows).stats[0] == Commercial(rows[2]) && CoverageOf(rows).stats[0].kind == "commercial"
    ensures |rows| > 3 ==> CoverageOf(rows).stats[1] == Medicare(rows[3]) && CoverageOf(rows).stats[1].kind == "medicare"
  {
    RoutedByPosition(rows);
    var stats := FoundIn(rows).stats;
    assert CoverageOf(rows).stats == stats;
  }

  /** A statistic row with an empty caption or number shows its kind's default. */
  lemma StatDefaults(r: Row)
    ensures ColText(r, 0) == "" ==> Commercial(r).caption == "Commercial" && Medicare(r).caption == "Medicare Part D"
    ensures ColText(r, 1) == "" ==> Commercial(r).number == "99" && Medicare(r).number == "97"
  {
    DefaultNumbers();
  }

  lemma DefaultNumbers()
    ensures RemoveFirst("99%", "%") == "99" && RemoveFirst("97%", "%") == "97"
  {
    RemoveTrailingPercent("99");
    RemoveTrailingPercent("97");
    assert "99" + "%" == "99%";
    assert "97" + "%" == "97%";
  }
}
