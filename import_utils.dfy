/**
 * The import utilities: block records, metadata blocks, an importer object that
 * collects blocks and renders them as Markdown tables, and the file-name and
 * document-path normalisation used for imported pages.
 */
module ImportUtils {
  import opened Wrappers
  import opened Text

  /** A block row: an array of cells, or a single value rendered as one cell. */
  datatype MdRow = Cells(cells: seq<string>) | Scalar(value: string)

  datatype Block = Block(name: string, rows: seq<MdRow>)

  /** `createBlock(name, rows)`: a missing row list means no rows. */
  function CreateBlock(name: string, rows: Option<seq<MdRow>>): (b: Block)
    ensures b.name == name
    ensures rows.None? ==> b.rows == []
    ensures rows.Some? ==> b.rows == rows.value
  {
    Block(name, GetOr(rows, []))
  }

  /** `createMetadata(meta)`: one `[key, value]` row per entry, in enumeration order. */
  function CreateMetadata(meta: seq<(string, string)>): (b: Block)
    ensures b.name == "Metadata" && |b.rows| == |meta|
    ensures forall i | 0 <= i < |meta| :: b.rows[i] == Cells([meta[i].0, meta[i].1])
  {
    Block("Metadata", seq(|meta|, i requires 0 <= i < |meta| => Cells([meta[i].0, meta[i].1])))
  }

  // ---------------------------------------------------------------------------
  // Markdown rendering

  function RowLine(r: MdRow): string {
    match r
    case Cells(cs) => "| " + Join(cs, " | ") + " |\n"
    case Scalar(v) => "| " + v + " |\n"
  }

  function RowsMarkdown(rows: seq<MdRow>): string {
    ConcatMap(rows, RowLine)
  }

  const METADATA_BREAK := "\n---\n\n"

  function BlockHeader(b: Block): string {
    (if b.name == "Metadata" then METADATA_BREAK else "") + "| " + b.name + " |\n" + "| --- |\n"
  }

  /** A block's table: its header, one line per row, then a blank line. */
  function BlockMarkdown(b: Block): string {
    BlockHeader(b) + RowsMarkdown(b.rows) + "\n"
  }

  /** The document: the blocks' tables in the order they were added. */
  function Markdown(bs: seq<Block>): string {
    ConcatMap(bs, BlockMarkdown)
  }

  /** Rendering distributes over the block list: each block contributes its own table. */
  lemma MarkdownAppend(a: seq<Block>, b: seq<Block>)
    ensures Markdown(a + b) == Markdown(a) + Markdown(b)
  {
    ConcatMapAppend(a, b, BlockMarkdown);
  }

  /** A block's table opens with a `---` break exactly when the block is the metadata block. */
  lemma MetadataBreak(b: Block)
    ensures StartsWith(BlockMarkdown(b), METADATA_BREAK) <==> b.name == "Metadata"
  {
    var m := BlockMarkdown(b);
    var rest := "| " + b.name + " |\n" + "| --- |\n" + RowsMarkdown(b.rows) + "\n";
    if b.name != "Metadata" {
      assert m == rest;
      assert m[0] == '|' && METADATA_BREAK[0] == '\n';
    } else {
      assert m == METADATA_BREAK + rest;
      assert m[..|METADATA_BREAK|] == METADATA_BREAK;
    }
  }

  /** Cells are not escaped: a cell holding " | " renders like two cells. */
  lemma PipeInCellIsAmbiguous()
    ensures RowLine(Cells(["a | b"])) == RowLine(Cells(["a", "b"]))
    ensures RowLine(Scalar("a")) == RowLine(Cells(["a"]))
  {
  }

  /** The importer helper: collects blocks in order and renders them. */
  class WebImporter {
    var blocks: seq<Block>

    constructor ()
      ensures blocks == []
    {
      blocks := [];
    }

    method AddBlock(name: string, rows: Option<seq<MdRow>>)
      modifies this
      ensures blocks == old(blocks) + [CreateBlock(name, rows)]
      ensures Markdown(blocks) == Markdown(old(blocks)) + BlockMarkdown(CreateBlock(name, rows))
    {
      var b := CreateBlock(name, rows);
      blocks := blocks + [b];
      assert blocks[..|blocks| - 1] == old(blocks);
    }

    method AddMetadata(meta: seq<(string, string)>)
      modifies this
      ensures blocks == old(blocks) + [CreateMetadata(meta)]
      ensures Markdown(blocks) == Markdown(old(blocks)) + BlockMarkdown(CreateMetadata(meta))
    {
      var b := CreateMetadata(meta);
      blocks := blocks + [b];
      assert blocks[..|blocks| - 1] == old(blocks);
    }

    /** `toMarkdown()`: one pass over the blocks and, inside, over each block's rows. */
    method ToMarkdown() returns (md: string)
      ensures md == Markdown(blocks)
    {
      md := "";
      var i := 0;
      while i < |blocks|
        invariant 0 <= i <= |blocks|
        invariant md == Markdown(blocks[..i])
      {
        var b := blocks[i];
        assert blocks[..i + 1][..i] == blocks[..i];
        var before := md;
        if b.name == "Metadata" {
          md := md + METADATA_BREAK;
        }
        md := md + "| " + b.name + " |\n";
        md := md + "| --- |\n";
        assert md == before + BlockHeader(b);
        md := AppendRows(md, b.rows);
        md := md + "\n";
        assert md == before + BlockMarkdown(b);
        i := i + 1;
      }
      assert blocks[..i] == blocks;
    }
  }

  /** The inner `rows.forEach`: one line per row appended to `md`. */
  method AppendRows(md0: string, rows: seq<MdRow>) returns (md: string)
    ensures md == md0 + RowsMarkdown(rows)
  {
    md := md0;
    var j := 0;
    while j < |rows|
      invariant 0 <= j <= |rows|
      invariant md == md0 + RowsMarkdown(rows[..j])
    {
      assert rows[..j + 1][..j] == rows[..j];
      ghost var lineStart := md;
      match rows[j] {
        case Cells(cs) => md := md + "| " + Join(cs, " | ") + " |\n";
        case Scalar(v) => md := md + "| " + v + " |\n";
      }
      assert md == lineStart + RowLine(rows[j]);
      j := j + 1;
    }
    assert rows[..j] == rows;
  }

  // ---------------------------------------------------------------------------
  // File names

  predicate IsSlugChar(c: char) {
    ('a' <= c <= 'z') || ('0' <= c <= '9') || c == '-'
  }

  /** `.replace(/[^a-z0-9-]/g, '-')`. */
  function ReplaceNonSlug(s: string): (r: string)
    ensures |r| == |s|
    ensures forall i | 0 <= i < |r| :: IsSlugChar(r[i])
    ensures forall i | 0 <= i < |s| :: IsSlugChar(s[i]) ==> r[i] == s[i]
  {
    if s == [] then [] else [if IsSlugChar(s[0]) then s[0] else '-'] + ReplaceNonSlug(s[1..])
  }

  predicate NoDoubleDash(s: string) {
    forall i | 0 <= i < |s| - 1 :: !(s[i] == '-' && s[i + 1] == '-')
  }

  /** `.replace(/-+/g, '-')`: every run of hyphens becomes one hyphen. */
  function CollapseDashes(s: string): (r: string)
    ensures |r| <= |s|
    ensures NoDoubleDash(r)
    ensures (forall i | 0 <= i < |s| :: IsSlugChar(s[i])) ==> forall i | 0 <= i < |r| :: IsSlugChar(r[i])
    ensures s != [] ==> r != [] && r[0] == s[0]
    ensures NoDoubleDash(s) ==> r == s
  {
    if s == [] then []
    else if |s| >= 2 && s[0] == '-' && s[1] == '-' then CollapseDashes(s[1..])
    else [s[0]] + CollapseDashes(s[1..])
  }

  /** `.replace(/^-|-$/g, '')`: drops a hyphen at the start and a hyphen at the end. */
  function StripEdgeDashes(s: string): string {
    var t := if s != [] && s[0] == '-' then s[1..] else s;
    if t != [] && t[|t| - 1] == '-' then t[..|t| - 1] else t
  }

  predicate IsSlug(s: string) {
    (forall i | 0 <= i < |s| :: IsSlugChar(s[i]))
    && NoDoubleDash(s)
    && (s != [] ==> s[0] != '-' && s[|s| - 1] != '-')
  }

  /** `sanitizeFilename(name)`. */
  function SanitizeFilename(name: string): (r: string)
    ensures IsSlug(r)
  {
    var collapsed := CollapseDashes(ReplaceNonSlug(Lower(name)));
    StrippedIsSlug(collapsed);
    StripEdgeDashes(collapsed)
  }

  /** Sanitized names use only a-z, 0-9 and single inner hyphens. */
  lemma SanitizedIsSlug(name: string)
    ensures IsSlug(SanitizeFilename(name))
  {
    StrippedIsSlug(CollapseDashes(ReplaceNonSlug(Lower(name))));
  }

  /** Stripping the edge hyphens of slug characters without a double hyphen leaves a slug. */
  lemma StrippedIsSlug(c: string)
    requires forall i | 0 <= i < |c| :: IsSlugChar(c[i])
    requires NoDoubleDash(c)
    ensures IsSlug(StripEdgeDashes(c))
  {
    var t := if c != [] && c[0] == '-' then c[1..] else c;
    assert NoDoubleDash(t);
    assert t != [] ==> t[0] != '-';
  }

  lemma {:induction false} LowerOfSlug(s: string)
    requires forall i | 0 <= i < |s| :: IsSlugChar(s[i])
    ensures Lower(s) == s
  {
    if s != [] {
      LowerOfSlug(s[1..]);
    }
  }

  lemma {:induction false} ReplaceOfSlug(s: string)
    requires forall i | 0 <= i < |s| :: IsSlugChar(s[i])
    ensures ReplaceNonSlug(s) == s
  {
    if s != [] {
      ReplaceOfSlug(s[1..]);
    }
  }

  /** A slug is its own sanitized form, so sanitizing twice is sanitizing once. */
  lemma SanitizeFixesSlugs(s: string)
    requires IsSlug(s)
    ensures SanitizeFilename(s) == s
  {
    LowerOfSlug(s);
    ReplaceOfSlug(s);
  }

  lemma SanitizeIdempotent(name: string)
    ensures SanitizeFilename(SanitizeFilename(name)) == SanitizeFilename(name)
  {
    SanitizedIsSlug(name);
    SanitizeFixesSlugs(SanitizeFilename(name));
  }

  // ---------------------------------------------------------------------------
  // Document paths

  /** Case-insensitive suffix test, as a regular expression with the `i` flag applies it to ASCII letters. */
  predicate EndsWithIgnoringCase(s: string, suffix: string) {
    |suffix| <= |s| && forall i | 0 <= i < |suffix| :: UpperChar(s[|s| - |suffix| + i]) == UpperChar(suffix[i])
  }

  /** The extensions and the index name that the path patterns strip. */
  const HTML := ".html"
  const HTM := ".htm"
  const PHP := ".php"
  const ASPX := ".aspx"
  const ASP := ".asp"
  const INDEX := "/index"

  /** `.replace(/\.(html|htm|php|aspx?)$/i, '')`. */
  function StripExtension(p: string): string {
    if EndsWithIgnoringCase(p, HTML) then p[..|p| - 5]
    else if EndsWithIgnoringCase(p, HTM) then p[..|p| - 4]
    else if EndsWithIgnoringCase(p, PHP) then p[..|p| - 4]
    else if EndsWithIgnoringCase(p, ASPX) then p[..|p| - 5]
    else if EndsWithIgnoringCase(p, ASP) then p[..|p| - 4]
    else p
  }

  /** `.replace(/\/index$/i, '')`. */
  function StripIndex(p: string): string {
    if EndsWithIgnoringCase(p, INDEX) then p[..|p| - 6] else p
  }

  /** `.filter(Boolean)`: the non-empty segments. */
  function NonEmpty(parts: seq<string>): (r: seq<string>)
    ensures forall i | 0 <= i < |r| :: r[i] != []
    ensures (forall i | 0 <= i < |parts| :: '/' !in parts[i]) ==> forall i | 0 <= i < |r| :: '/' !in r[i]
  {
    if parts == [] then []
    else (if parts[0] != [] then [parts[0]] else []) + NonEmpty(parts[1..])
  }

  function SanitizeAll(parts: seq<string>): (r: seq<string>)
    ensures |r| == |parts|
    ensures forall i | 0 <= i < |r| :: r[i] == SanitizeFilename(parts[i])
  {
    seq(|parts|, i requires 0 <= i < |parts| => SanitizeFilename(parts[i]))
  }

  /** The segments that are joined, as the code computes them: non-empty pieces, then sanitized. */
  function PathSegments(p: string): seq<string> {
    SanitizeAll(NonEmpty(Split(p, '/')))
  }

  /** `generateDocumentPath(url)` on the URL's path name, as written. */
  function GenerateDocumentPath(pathname: string): (r: string)
    ensures StartsWith(r, "/")
  {
    "/" + Join(PathSegments(StripIndex(StripExtension(pathname))), "/")
  }

  /** A page `…/index.html` maps to the document path of its folder, whatever the letter case. */
  lemma IndexPageIsItsFolder(p: string)
    ensures GenerateDocumentPath(p + "/index.html") == "/" + Join(PathSegments(p), "/")
    ensures GenerateDocumentPath(p + "/INDEX.HTML") == "/" + Join(PathSegments(p), "/")
  {
    IndexLower(p);
    IndexUpper(p);
  }

  lemma IndexLower(p: string)
    ensures StripIndex(StripExtension(p + "/index.html")) == p
  {
    var q := p + "/index";
    assert p + "/index.html" == q + HTML;
    EndsWithSpelled(q, HTML, HTML);
    ExtensionStripped(q + HTML, HTML);
    EndsWithSpelled(p, INDEX, INDEX);
  }

  lemma IndexUpper(p: string)
    ensures StripIndex(StripExtension(p + "/INDEX.HTML")) == p
  {
    var q := p + "/INDEX";
    assert p + "/INDEX.HTML" == q + ".HTML";
    SameUpper(".HTML", HTML);
    EndsWithSpelled(q, ".HTML", HTML);
    ExtensionStripped(q + ".HTML", HTML);
    SameUpper("/INDEX", INDEX);
    EndsWithSpelled(p, "/INDEX", INDEX);
  }

  lemma SameUpper(a: string, b: string)
    requires |a| == |b| && forall i | 0 <= i < |a| :: UpperChar(a[i]) == UpperChar(b[i])
    ensures Upper(a) == Upper(b)
  {
  }

  /** A case-insensitive suffix match agrees on the last character. */
  lemma EndsWithLast(s: string, suffix: string)
    requires suffix != [] && EndsWithIgnoringCase(s, suffix)
    ensures UpperChar(s[|s| - 1]) == UpperChar(suffix[|suffix| - 1])
  {
    var t := s[|s| - |suffix|..];
    assert Upper(t)[|t| - 1] == UpperChar(t[|t| - 1]);
    assert Upper(suffix)[|suffix| - 1] == UpperChar(suffix[|suffix| - 1]);
  }

  /** A path name ending in a digit or a letter other than l, m, p, x keeps its name untouched. */
  lemma PlainEnding(p: string)
    requires p != [] && UpperChar(p[|p| - 1]) !in "LMPX"
    ensures StripIndex(StripExtension(p)) == p
  {
    NotEnding(p, HTML, 'L');
    NotEnding(p, HTM, 'M');
    NotEnding(p, PHP, 'P');
    NotEnding(p, ASPX, 'X');
    NotEnding(p, ASP, 'P');
    NotEnding(p, INDEX, 'X');
  }

  /** A name whose last letter differs, in any case, from the suffix's does not end with it. */
  lemma NotEnding(p: string, suffix: string, c: char)
    requires p != [] && suffix != [] && UpperChar(suffix[|suffix| - 1]) == c && UpperChar(p[|p| - 1]) != c
    ensures !EndsWithIgnoringCase(p, suffix)
  {
    if EndsWithIgnoringCase(p, suffix) {
      EndsWithLast(p, suffix);
    }
  }

  /** A case-insensitive suffix match agrees, up to case, on the `k`-th character from the end. */
  lemma EndsWithAt(s: string, suffix: string, k: nat)
    requires k < |suffix| && EndsWithIgnoringCase(s, suffix)
    ensures UpperChar(s[|s| - 1 - k]) == UpperChar(suffix[|suffix| - 1 - k])
  {
    var t := s[|s| - |suffix|..];
    assert Upper(t)[|t| - 1 - k] == UpperChar(t[|t| - 1 - k]);
    assert Upper(suffix)[|suffix| - 1 - k] == UpperChar(suffix[|suffix| - 1 - k]);
  }

  /** A name that differs, in any case, from a suffix at its `k`-th character from the end does not end with it. */
  lemma NotEndingAt(s: string, suffix: string, k: nat)
    requires k < |suffix| && k < |s|
    requires UpperChar(s[|s| - 1 - k]) != UpperChar(suffix[|suffix| - 1 - k])
    ensures !EndsWithIgnoringCase(s, suffix)
  {
    if EndsWithIgnoringCase(s, suffix) {
      EndsWithAt(s, suffix, k);
    }
  }

  /** `p + e` ends, in any case, with every `ext` that `e` spells in some letter case. */
  lemma EndsWithSpelled(p: string, e: string, ext: string)
    requires |e| == |ext| && Upper(e) == Upper(ext)
    ensures EndsWithIgnoringCase(p + e, ext)
    ensures (p + e)[..|p + e| - |ext|] == p
  {
    var q := p + e;
    assert q[|q| - |ext|..] == e;
  }

  /**
   * A name ending, in any letter case, with one of the five extensions loses exactly
   * that extension: `.htm` is not read as a shorter `.html`, nor `.asp` as `.php`.
   */
  lemma ExtensionStripped(q: string, ext: string)
    requires ext == HTML || ext == HTM || ext == PHP || ext == ASPX || ext == ASP
    requires EndsWithIgnoringCase(q, ext)
    ensures StripExtension(q) == q[..|q| - |ext|]
  {
    if ext == HTM {
      HtmStripped(q);
    } else if ext == PHP {
      PhpStripped(q);
    } else if ext == ASPX {
      AspxStripped(q);
    } else if ext == ASP {
      AspStripped(q);
    }
  }

  lemma HtmStripped(q: string)
    requires EndsWithIgnoringCase(q, HTM)
    ensures StripExtension(q) == q[..|q| - 4]
  {
    EndsWithAt(q, HTM, 0);
    NotEndingAt(q, HTML, 0);
  }

  lemma PhpStripped(q: string)
    requires EndsWithIgnoringCase(q, PHP)
    ensures StripExtension(q) == q[..|q| - 4]
  {
    EndsWithAt(q, PHP, 0);
    NotEndingAt(q, HTML, 0);
    NotEndingAt(q, HTM, 0);
  }

  lemma AspxStripped(q: string)
    requires EndsWithIgnoringCase(q, ASPX)
    ensures StripExtension(q) == q[..|q| - 5]
  {
    EndsWithAt(q, ASPX, 0);
    NotEndingAt(q, HTML, 0);
    NotEndingAt(q, HTM, 0);
    NotEndingAt(q, PHP, 0);
  }

  lemma AspStripped(q: string)
    requires EndsWithIgnoringCase(q, ASP)
    ensures StripExtension(q) == q[..|q| - 4]
  {
    EndsWithAt(q, ASP, 0);
    EndsWithAt(q, ASP, 1);
    NotEndingAt(q, HTML, 0);
    NotEndingAt(q, HTM, 0);
    NotEndingAt(q, PHP, 1);
    NotEndingAt(q, ASPX, 0);
  }

  /**
   * A page `p/index` with any of the five extensions, in any letter case, maps to the
   * document path of its folder `p`; the page `p` with an extension maps to that of `p`
   * without `/index` if it has one.
   */
  lemma DocumentPathOfPage(p: string, ix: string, e: string, ext: string)
    requires ext == HTML || ext == HTM || ext == PHP || ext == ASPX || ext == ASP
    requires |e| == |ext| && Upper(e) == Upper(ext)
    requires |ix| == 6 && Upper(ix) == Upper(INDEX)
    ensures GenerateDocumentPath(p + e) == "/" + Join(PathSegments(StripIndex(p)), "/")
    ensures GenerateDocumentPath(p + ix + e) == "/" + Join(PathSegments(p), "/")
  {
    PageStripped(p, e, ext);
    PageStripped(p + ix, e, ext);
    EndsWithSpelled(p, ix, INDEX);
  }

  /** The page `p` with an extension spelled in any case strips to `p`. */
  lemma PageStripped(p: string, e: string, ext: string)
    requires ext == HTML || ext == HTM || ext == PHP || ext == ASPX || ext == ASP
    requires |e| == |ext| && Upper(e) == Upper(ext)
    ensures StripExtension(p + e) == p
  {
    EndsWithSpelled(p, e, ext);
    ExtensionStripped(p + e, ext);
  }

  /**
   * The document path is `/` followed by the sanitized non-empty segments of the
   * stripped path name: when there is one, splitting what follows the `/` gives back
   * exactly those segments, each a slug.
   */
  lemma DocumentPathSegments(pathname: string)
    ensures var segs := PathSegments(StripIndex(StripExtension(pathname)));
            var r := GenerateDocumentPath(pathname);
            (forall i | 0 <= i < |segs| :: IsSlug(segs[i]))
            && (segs != [] ==> Split(r[1..], '/') == segs)
  {
    var parts := NonEmpty(Split(StripIndex(StripExtension(pathname)), '/'));
    var segs := SanitizeAll(parts);
    forall i | 0 <= i < |segs| ensures IsSlug(segs[i]) {
      SanitizedIsSlug(parts[i]);
    }
    SlugsHaveNoSlash(segs);
    if segs != [] {
      SplitJoin(segs, '/');
      assert GenerateDocumentPath(pathname)[1..] == Join(segs, "/");
    }
  }

  lemma SanitizeOfPunctuation()
    ensures SanitizeFilename("_") == ""
  {
    assert Lower("_") == "_";
    assert ReplaceNonSlug("_") == "-";
    assert CollapseDashes("-") == "-";
  }

  lemma SplitExample()
    ensures Split("/a/_/b", '/') == ["", "a", "_", "b"]
  {
    SplitPlain("b", '/');
    SplitPrefix("_", "b", '/');
    assert "_" + "/" + "b" == "_/b";
    SplitPrefix("a", "_/b", '/');
    assert "a" + "/" + "_/b" == "a/_/b";
    SplitPrefix("", "a/_/b", '/');
    assert "" + "/" + "a/_/b" == "/a/_/b";
  }

  lemma JoinThree(a: string, b: string, c: string, sep: string)
    ensures Join([a, b, c], sep) == a + sep + b + sep + c
  {
    assert [a, b, c][1..] == [b, c];
    assert [b, c][1..] == [c];
    assert Join([c], sep) == c;
    assert Join([b, c], sep) == b + sep + c;
  }

  lemma NonEmptyExample()
    ensures NonEmpty(["", "a", "_", "b"]) == ["a", "_", "b"]
  {
    var parts := ["", "a", "_", "b"];
    assert parts[1..] == ["a", "_", "b"];
    assert parts[1..][1..] == ["_", "b"];
    assert parts[1..][1..][1..] == ["b"];
  }

  /** A segment with no letter or digit survives the filter and is then emptied: the path gets "//". */
  lemma EmptySegmentKept(p: string)
    requires p == "/a/_/b"
    ensures GenerateDocumentPath(p) == "/a//b"
  {
    PlainEnding(p);
    SegmentsExample(p);
    JoinedExample(PathSegments(p));
  }

  lemma SegmentsExample(p: string)
    requires p == "/a/_/b"
    ensures PathSegments(p) == ["a", "", "b"]
  {
    SplitExample();
    NonEmptyExample();
    SanitizeThree(["a", "_", "b"], ["a", "", "b"]);
  }

  lemma SanitizeThree(parts: seq<string>, want: seq<string>)
    requires parts == ["a", "_", "b"] && want == ["a", "", "b"]
    ensures SanitizeAll(parts) == want
  {
    var x, y, z := parts[0], parts[1], parts[2];
    SlugKept(x);
    PunctuationEmptied(y);
    SlugKept(z);
    SanitizeAllOfThree(x, y, z);
  }

  lemma SlugKept(x: string)
    requires x == "a" || x == "b"
    ensures SanitizeFilename(x) == x
  {
    SanitizeFixesSlugs(x);
  }

  lemma PunctuationEmptied(x: string)
    requires x == "_"
    ensures SanitizeFilename(x) == ""
  {
    SanitizeOfPunctuation();
  }

  lemma SanitizeAllOfThree(x: string, y: string, z: string)
    ensures SanitizeAll([x, y, z]) == [SanitizeFilename(x), SanitizeFilename(y), SanitizeFilename(z)]
  {
    var r := SanitizeAll([x, y, z]);
    SeqOfThree(r);
    assert r[0] == SanitizeFilename(x) && r[1] == SanitizeFilename(y) && r[2] == SanitizeFilename(z);
  }

  lemma SeqOfThree<T>(r: seq<T>)
    requires |r| == 3
    ensures r == [r[0], r[1], r[2]]
  {
  }

  lemma JoinedExample(segs: seq<string>)
    requires segs == ["a", "", "b"]
    ensures "/" + Join(segs, "/") == "/a//b"
  {
    JoinThree("a", "", "b", "/");
  }

  /** A path whose segments are non-empty and slash-free: "/" then segments joined by "/". */
  predicate NoEmptySegment(r: string) {
    forall i | 0 <= i < |r| - 1 :: !(r[i] == '/' && r[i + 1] == '/')
  }

  /** The path as evidently intended: segments that sanitize to nothing are dropped. */
  function GenerateDocumentPathDroppingEmpty(pathname: string): (r: string)
    ensures StartsWith(r, "/")
    ensures NoEmptySegment(r)
  {
    var sanitized := SanitizeAll(NonEmpty(Split(StripIndex(StripExtension(pathname)), '/')));
    SlugsHaveNoSlash(sanitized);
    var segs := NonEmpty(sanitized);
    NoDoubleSlash(segs);
    "/" + Join(segs, "/")
  }

  /** Slugs hold no `/`. */
  lemma SlugsHaveNoSlash(parts: seq<string>)
    requires forall i | 0 <= i < |parts| :: IsSlug(parts[i])
    ensures forall i | 0 <= i < |parts| :: '/' !in parts[i]
  {
    forall i | 0 <= i < |parts| ensures '/' !in parts[i] {
      assert forall k | 0 <= k < |parts[i]| :: parts[i][k] != '/';
    }
  }

  /** "/" followed by non-empty, slash-free segments joined by "/" has no empty segment. */
  lemma {:induction false} NoDoubleSlash(parts: seq<string>)
    requires forall i | 0 <= i < |parts| :: parts[i] != [] && '/' !in parts[i]
    ensures NoEmptySegment("/" + Join(parts, "/"))
  {
    if |parts| >= 1 {
      var head := parts[0];
      assert forall k | 0 <= k < |head| :: head[k] != '/' by {
        assert '/' !in head;
      }
      var r := "/" + Join(parts, "/");
      if |parts| == 1 {
        assert r == "/" + head;
        forall i | 0 <= i < |r| - 1 ensures !(r[i] == '/' && r[i + 1] == '/') {
          assert r[i + 1] == head[i];
        }
      } else {
        NoDoubleSlash(parts[1..]);
        var tail := "/" + Join(parts[1..], "/");
        assert r == "/" + head + tail;
        forall i | 0 <= i < |r| - 1 ensures !(r[i] == '/' && r[i + 1] == '/') {
          if i < |head| {
            assert r[i + 1] == head[i];
          } else if i == |head| {
            assert r[i] == head[i - 1];
          } else {
            assert r[i] == tail[i - 1 - |head|] && r[i + 1] == tail[i - |head|];
          }
        }
      }
    }
  }
}
