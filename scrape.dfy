/**
 * What the importers read from a scraped page, and the one loop shape they all use:
 * walk the matched elements in document order and push a record for each element
 * that passes a test (`forEach` with a guarded `push`).
 */
module Scrape {
  import opened Wrappers
  import opened Text

  /** An anchor found by a query: its text content, its resolved `href` property
   *  ("" when the attribute is absent), its raw `href` attribute, whether it carries
   *  the class `active`, and its `aria-current` attribute. */
  datatype Anchor = Anchor(text: string, href: string, hrefAttr: Option<string>,
                           activeClass: bool, ariaCurrent: Option<string>)

  /** A header toggle element: its button's text, its content's text and its first anchor. */
  datatype ToggleEl = ToggleEl(button: Option<string>, content: Option<string>, link: Option<Anchor>)

  /** An element with a heading-like and a body-like child (indications, safety sections). */
  datatype PairEl = PairEl(first: Option<string>, second: Option<string>)

  /** A statistic element: label, value and description children. */
  datatype StatEl = StatEl(caption: Option<string>, value: Option<string>, desc: Option<string>)

  /** `getText(el)`: the trimmed text content of an element, "" when the query found none. */
  function TextOf(el: Option<string>): (r: string)
    ensures el.None? ==> r == ""
    ensures el.Some? ==> r == Trim(el.value)
  {
    match el
    case None => ""
    case Some(t) => Trim(t)
  }

  function AnchorText(a: Option<Anchor>): string {
    match a
    case None => ""
    case Some(x) => Trim(x.text)
  }

  /** The records pushed by the loop: `f(x)` for every `x` that passes `p`, in order. */
  function Keep<A, B>(xs: seq<A>, p: A -> bool, f: A -> B): (r: seq<B>)
    ensures |r| <= |xs|
  {
    if xs == [] then []
    else Keep(xs[..|xs| - 1], p, f) + (if p(xs[|xs| - 1]) then [f(xs[|xs| - 1])] else [])
  }

  /** The test that lets every element through (a plain `forEach`/`map`). */
  function Always<A>(x: A): bool {
    true
  }

  /** `found.length > 0 ? found : defaults`, the fallback every extractor uses. */
  function OrDefaults<B>(found: seq<B>, defaults: seq<B>): seq<B> {
    if |found| == 0 then defaults else found
  }

  /** The loop itself: one pass over the elements, pushing the records that qualify. */
  method Collect<A, B>(xs: seq<A>, p: A -> bool, f: A -> B) returns (out: seq<B>)
    ensures out == Keep(xs, p, f)
  {
    out := [];
    var i := 0;
    while i < |xs|
      invariant 0 <= i <= |xs|
      invariant out == Keep(xs[..i], p, f)
    {
      assert xs[..i + 1][..i] == xs[..i];
      if p(xs[i]) {
        out := out + [f(xs[i])];
      }
      i := i + 1;
    }
    assert xs[..|xs|] == xs;
  }

  /** The records of two runs of elements are the records of each run, in order. */
  lemma {:induction false} KeepAppend<A, B>(xs: seq<A>, ys: seq<A>, p: A -> bool, f: A -> B)
    ensures Keep(xs + ys, p, f) == Keep(xs, p, f) + Keep(ys, p, f)
  {
    if ys == [] {
      assert xs + ys == xs;
    } else {
      var zs := xs + ys;
      assert zs[..|zs| - 1] == xs + ys[..|ys| - 1];
      assert zs[|zs| - 1] == ys[|ys| - 1];
      KeepAppend(xs, ys[..|ys| - 1], p, f);
    }
  }

  /** `y` is the record of some qualifying element of `xs`. */
  ghost predicate ComesFrom<A, B>(xs: seq<A>, p: A -> bool, f: A -> B, y: B) {
    exists i :: 0 <= i < |xs| && p(xs[i]) && f(xs[i]) == y
  }

  /** Every pushed record comes from a qualifying element. */
  lemma {:induction false} KeepSound<A, B>(xs: seq<A>, p: A -> bool, f: A -> B)
    ensures forall j | 0 <= j < |Keep(xs, p, f)| :: ComesFrom(xs, p, f, Keep(xs, p, f)[j])
  {
    if xs != [] {
      var init := xs[..|xs| - 1];
      KeepSound(init, p, f);
      var k := Keep(init, p, f);
      var r := Keep(xs, p, f);
      forall j | 0 <= j < |r|
        ensures ComesFrom(xs, p, f, r[j])
      {
        if j < |k| {
          assert r[j] == k[j];
          assert ComesFrom(init, p, f, k[j]);
          var i :| 0 <= i < |init| && p(init[i]) && f(init[i]) == k[j];
          assert xs[i] == init[i];
        } else {
          assert p(xs[|xs| - 1]) && f(xs[|xs| - 1]) == r[j];
        }
      }
    }
  }

  /** Every qualifying element has its record pushed. */
  lemma {:induction false} KeepComplete<A, B>(xs: seq<A>, p: A -> bool, f: A -> B)
    ensures forall i | 0 <= i < |xs| && p(xs[i]) :: f(xs[i]) in Keep(xs, p, f)
  {
    if xs != [] {
      var init := xs[..|xs| - 1];
      KeepComplete(init, p, f);
      forall i | 0 <= i < |xs| && p(xs[i]) ensures f(xs[i]) in Keep(xs, p, f) {
        if i < |init| {
          assert init[i] == xs[i];
          assert f(init[i]) in Keep(init, p, f);
        }
      }
    }
  }

  /** Nothing is pushed exactly when no element qualifies. */
  lemma KeepNone<A, B>(xs: seq<A>, p: A -> bool, f: A -> B)
    ensures Keep(xs, p, f) == [] <==> forall i | 0 <= i < |xs| :: !p(xs[i])
  {
    KeepComplete(xs, p, f);
    if Keep(xs, p, f) != [] {
      KeepSound(xs, p, f);
      assert ComesFrom(xs, p, f, Keep(xs, p, f)[0]);
    }
  }

  /** When every element qualifies, record i is made from element i. */
  lemma {:induction false} KeepEvery<A, B>(xs: seq<A>, p: A -> bool, f: A -> B)
    requires forall i | 0 <= i < |xs| :: p(xs[i])
    ensures |Keep(xs, p, f)| == |xs|
    ensures forall i | 0 <= i < |xs| :: Keep(xs, p, f)[i] == f(xs[i])
  {
    if xs != [] {
      var init := xs[..|xs| - 1];
      assert forall i | 0 <= i < |init| :: init[i] == xs[i];
      KeepEvery(init, p, f);
    }
  }

  /** Every pushed record satisfies whatever property the records of qualifying elements have. */
  lemma KeepAll<A, B>(xs: seq<A>, p: A -> bool, f: A -> B, q: B -> bool)
    requires forall i | 0 <= i < |xs| :: p(xs[i]) ==> q(f(xs[i]))
    ensures forall j | 0 <= j < |Keep(xs, p, f)| :: q(Keep(xs, p, f)[j])
  {
    KeepSound(xs, p, f);
    forall j | 0 <= j < |Keep(xs, p, f)| ensures q(Keep(xs, p, f)[j]) {
      assert ComesFrom(xs, p, f, Keep(xs, p, f)[j]);
    }
  }
  /** The defaults are used exactly when no element qualifies; otherwise the records of the qualifying ones. */
  lemma OrDefaultsKeep<A, B>(xs: seq<A>, p: A -> bool, f: A -> B, defaults: seq<B>)
    ensures (exists i | 0 <= i < |xs| :: p(xs[i])) ==> OrDefaults(Keep(xs, p, f), defaults) == Keep(xs, p, f)
    ensures (forall i | 0 <= i < |xs| :: !p(xs[i])) ==> OrDefaults(Keep(xs, p, f), defaults) == defaults
  {
    KeepNone(xs, p, f);
  }

  /** `xs.map(f)`, or a `forEach` that pushes `f(x)` for every element. */
  function MapTo<A, B>(xs: seq<A>, f: A -> B): (r: seq<B>)
    ensures |r| == |xs| && forall i | 0 <= i < |xs| :: r[i] == f(xs[i])
  {
    seq(|xs|, i requires 0 <= i < |xs| => f(xs[i]))
  }

  /** Mapping a sequence maps its first element, then the rest. */
  lemma MapToCons<A, B>(xs: seq<A>, f: A -> B)
    requires xs != []
    ensures MapTo(xs, f) == [f(xs[0])] + MapTo(xs[1..], f)
  {
  }

  /** Mapping a sequence maps its longest prefix, then its last element. */
  lemma MapToSnoc<A, B>(xs: seq<A>, f: A -> B)
    requires xs != []
    ensures MapTo(xs, f) == MapTo(xs[..|xs| - 1], f) + [f(xs[|xs| - 1])]
  {
    var init := xs[..|xs| - 1];
    assert forall i | 0 <= i < |init| :: init[i] == xs[i];
  }

  /** Joining mapped parts with no separator concatenates them in order. */
  lemma {:induction false} JoinMapped<T>(xs: seq<T>, f: T -> string)
    ensures Join(MapTo(xs, f), "") == ConcatMap(xs, f)
  {
    if |xs| == 1 {
      assert xs[..0] == [];
    } else if |xs| > 1 {
      var rest := xs[1..];
      JoinMapped(rest, f);
      assert MapTo(xs, f)[1..] == MapTo(rest, f);
      assert xs == [xs[0]] + rest;
      ConcatMapAppend([xs[0]], rest, f);
      assert [xs[0]][..0] == [];
    }
  }

  /** A prefix grown by the next element is the next prefix. */
  lemma TakeSnoc<T>(xs: seq<T>, i: nat)
    requires i < |xs|
    ensures xs[..i] + [xs[i]] == xs[..i + 1]
  {
  }

  /** The unguarded push loop. */
  method Each<A, B>(xs: seq<A>, f: A -> B) returns (out: seq<B>)
    ensures out == MapTo(xs, f)
  {
    out := [];
    var i := 0;
    while i < |xs|
      invariant 0 <= i <= |xs| && |out| == i
      invariant forall k | 0 <= k < i :: out[k] == f(xs[k])
    {
      out := out + [f(xs[i])];
      i := i + 1;
    }
  }
}
