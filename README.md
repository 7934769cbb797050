# SKYRIZI page importers and blocks, modelled in Dafny

This project models the small deterministic logic of an Adobe Edge Delivery Services
site for the SKYRIZI brand pages. It has three parts.

- The content importers under `tools/importer/` scrape a rendered page and turn it into
  block tables, then write the document body and choose its output path. There are
  five importers: the brand-page importer, the ISI importer, the live ISI importer, the
  ISA importer and the fixed-content SKYRIZI importer.
- The parsers under `tools/importer/parsers/` work on scraped hero, indications,
  coverage, support, navigation, cards, ISI, tabs and statistics content. The import
  utilities handle file names, document paths and Markdown output.
- The block decorators under `blocks/` route the authored rows of a block to their
  roles. Some of them also keep a little UI state: tabs with one active tab, and
  collapsible safety panels.

A DOM row is modelled as a sequence of cells. Each cell carries its text and its HTML
as opaque strings, and optionally its link and picture. Where a decorator reads a
whole row's `textContent` (the coverage block of the ISI pages), the row is a sequence
of child nodes instead: column divs and the text nodes between them, such as the
indentation of the authored markup. A scraped element list is an
input sequence of records, with one optional field per selector the source queries.
This makes the pieces modelled as follows:

- each extractor is a pure filter-and-default function, proved equal to its push loop;
- each block builder is a row-layout function;
- each `transform` is a method on a `Body` object whose children end up being exactly
  a page-layout function of the content;
- each decorator is a method returning the view it builds;
- the decorators' click handlers are classes whose fields are the `active`,
  `collapsed`, `expanded` and `aria-*` state.

Shared modules:

- `Wrappers` holds `Option`.
- `Text` holds the JavaScript string operations the code relies on: `trim`, case
  mapping, `includes`, `indexOf`, `split`/`join`, replacing the first match, and
  reading digits.
- `Scrape` holds the filter-push loop and the defaults rule.
- `Authored` holds the authored rows and their slices.
- `BlockTable` holds the table builders and the document body.
- `TabState` holds the single-active tab strip.
- `Disclosure` holds the hero safety panel.
- `ImporterDifferences` states where two importers read the same input differently.

Some notes on where the model follows the code:

- The navigation parser keeps a link only when its label and its `href` are both
  non-empty (`label && href`), so an empty `href` drops the link. See
  `NavParser.ExtractNavigation`.
- The cards parser keeps a navigation card's title untrimmed.
- The ISI indications block builds its prescribing-information link from the last row
  even when that row is also the title row.
- The brand-page importer keeps an indication or a statistic when either field is
  present (`||`), where the parsers need both (`&&`).
- The brand-page importer and the live importer try the URL keywords in different
  orders.
- `ImporterDifferences` proves both of the last two points on concrete shapes of
  input.

## Model

| member | source | states |
|---|---|---|
| ImportUtils.CreateBlock | tools/importer/utils.js:8-13 | the block keeps its name; a missing row list gives no rows, a present one is kept as it is |
| ImportUtils.CreateMetadata | tools/importer/utils.js:18-25 | the block is named `Metadata` and has one `[key, value]` row per entry, in entry order |
| ImportUtils.WebImporter.constructor | tools/importer/utils.js:58-61 | a new importer holds no blocks |
| ImportUtils.WebImporter.AddBlock | tools/importer/utils.js:63-65 | exactly one block, the created one, is appended at the end; earlier blocks are unchanged and the Markdown grows by that block's table alone |
| ImportUtils.WebImporter.AddMetadata | tools/importer/utils.js:67-69 | exactly one metadata block is appended at the end; earlier blocks are unchanged and the Markdown grows by its table alone |
| ImportUtils.WebImporter.ToMarkdown | tools/importer/utils.js:71-94 | the nested loops produce, block by block, an optional `---` break, the name line, the `--- ` line, a line per row and a blank line |
| ImportUtils.AppendRows | tools/importer/utils.js:82-88 | the inner loop appends exactly one line per row, in order |
| ImportUtils.MarkdownAppend | tools/importer/utils.js:74-91 | the text of a block list is the text of its first part followed by that of the rest: every block contributes its own table |
| ImportUtils.MetadataBreak | tools/importer/utils.js:75-77 | a block's table opens with the `\n---\n\n` break if and only if the block is named `Metadata` |
| ImportUtils.PipeInCellIsAmbiguous | tools/importer/utils.js:83-87 | cells are joined with ` \| ` without escaping, so a cell holding ` \| ` prints like two cells; a non-array row prints like a one-cell array row |
| ImportUtils.ReplaceNonSlug | tools/importer/utils.js:103 | the replacement keeps the length, leaves only a-z, 0-9 and `-`, and keeps every character that already was one |
| ImportUtils.CollapseDashes | tools/importer/utils.js:104 | the result has no `--`, is no longer than the input, keeps the first character and slug characters, and leaves a string without `--` unchanged |
| ImportUtils.SanitizeFilename | tools/importer/utils.js:100-106 | the sanitized name is a slug: only a-z, 0-9 and `-`, no `--`, and no `-` at either end |
| ImportUtils.SanitizedIsSlug | tools/importer/utils.js:100-106 | every sanitized name uses only a-z, 0-9 and `-`, has no `--`, and neither starts nor ends with `-` |
| ImportUtils.SanitizeFixesSlugs | tools/importer/utils.js:100-106 | a name of that shape is its own sanitized form |
| ImportUtils.SanitizeIdempotent | tools/importer/utils.js:100-106 | sanitizing twice gives the same name as sanitizing once |
| ImportUtils.NonEmpty | tools/importer/utils.js:122 | `filter(Boolean)` keeps no empty segment and introduces no `/` |
| ImportUtils.SanitizeAll | tools/importer/utils.js:122 | `map(sanitizeFilename)` keeps the number of segments and sanitizes each in place |
| ImportUtils.GenerateDocumentPath | tools/importer/utils.js:111-125 | every document path starts with `/` |
| ImportUtils.DocumentPathSegments | tools/importer/utils.js:121-124 | every segment of the document path is a slug, and splitting what follows the leading `/` gives back exactly those segments |
| ImportUtils.DocumentPathOfPage | tools/importer/utils.js:111-125 | a page with any of the extensions .html, .htm, .php, .aspx or .asp, in any letter case, maps to the path of the page without it, and a page `…/index` with one maps to the path of its folder, `index` in any case |
| ImportUtils.PageStripped | tools/importer/utils.js:116 | each of the five extensions, spelled in any letter case, is stripped from the end |
| ImportUtils.ExtensionStripped | tools/importer/utils.js:116 | a path name ending in one of the five extensions in any letter case loses exactly that extension and nothing more |
| ImportUtils.EndsWithSpelled | tools/importer/utils.js:116-119 | a path name ending in a spelling of a suffix ends with that suffix ignoring case, and cutting the suffix leaves the path name before it |
| ImportUtils.IndexPageIsItsFolder | tools/importer/utils.js:116-124 | `…/index.html`, in lower or upper case, maps to the document path of its folder: one extension and then one `/index` are stripped |
| ImportUtils.PlainEnding | tools/importer/utils.js:116-119 | a path name whose last character is not l, m, p or x in any case loses neither an extension nor `/index` |
| ImportUtils.EmptySegmentKept | tools/importer/utils.js:122-124 | as written, `/a/_/b` gives `/a//b`: the segment `_` passes the filter and is then sanitized to nothing |
| ImportUtils.GenerateDocumentPathDroppingEmpty | tools/importer/utils.js:111-125 | with the filter applied after sanitizing, the path starts with `/` and never holds `//` |
| Scrape.TextOf | tools/importer/import.js:16-18 | a missing element reads as `""`; a present one as its trimmed text |
| BlockTable.Build | tools/importer/import.js:23-51 | the header cell names the block and spans the given columns; then one generated row per input row, in order, each as `RowTds` specifies it |
| BlockTable.BuildRow | tools/importer/import.js:35-47 | a row has one cell per entry, in order (a string becomes markup, an element goes in, anything else leaves the cell empty), then empty cells up to the padding width |
| BlockTable.UnpaddedRow | tools/importer/import.js:37-46 | without padding a row has exactly as many cells as entries, and a non-array row has one cell |
| PageImport.BrandInfo | tools/importer/import.js:63-72 | the name is always `SKYRIZI`; the subtitle and the logo are the scraped ones when present and non-empty, else their defaults |
| PageImport.IsiLines | tools/importer/import.js:77-109 | one line per toggle element with a button or content, in order; the single default line exactly when there is none |
| PageImport.ExtractIsiLines | tools/importer/import.js:77-109 | the push loop and the fallback compute `IsiLines` |
| PageImport.Indications | tools/importer/import.js:114-139 | one indication per element with a condition or a description, in order; the three defaults exactly when there is none |
| PageImport.ExtractIndications | tools/importer/import.js:114-139 | the push loop and the fallback compute `Indications` |
| PageImport.IndicationsNotBlank | tools/importer/import.js:124-125 | no indication has both an empty condition and an empty description |
| PageImport.Stats | tools/importer/import.js:157-178 | one stat per element with a label or a value, in order; the Commercial 99 and Medicare Part D 97 defaults exactly when there is none |
| PageImport.CoverageOf | tools/importer/import.js:144-185 | the tabs stay Overview/National/Local; title and footnote fall back separately; the stats are `Stats` |
| PageImport.ExtractCoverage | tools/importer/import.js:144-185 | the step-by-step updates of the coverage record compute `CoverageOf` |
| PageImport.StatValueRoundTrip | tools/importer/import.js:166 | a scraped value ending in its only `%` loses it on extraction and gets it back in its row, so the row shows the value as scraped |
| PageImport.Cards | tools/importer/import.js:199-221 | one card per element with a title or a description, in order; the three default cards exactly when there is none |
| PageImport.CtaOf | tools/importer/import.js:223-227 | the default CTA stays unless a CTA element was found; then its caption and link each fall back separately |
| PageImport.ExtractSupport | tools/importer/import.js:190-234 | the step-by-step updates of the support record compute `SupportOf` |
| PageImport.CardTitlesUpper | tools/importer/import.js:208 | every scraped card title is already in upper case |
| PageImport.NavItems | tools/importer/import.js:239-269 | one item per link with a label and an href not starting with `#`, in order; the five defaults exactly when there is none |
| PageImport.ExtractNavigation | tools/importer/import.js:239-269 | the push loop and the fallback compute `NavItems` |
| PageImport.NavItemsAreLinks | tools/importer/import.js:249-265 | no navigation item, defaults included, has an empty label, an empty link, or a link starting with `#` |
| PageImport.SafetySections | tools/importer/import.js:274-299 | one section per element with a heading or content, in order; the three defaults exactly when there is none |
| PageImport.ExtractSafetyInfo | tools/importer/import.js:274-299 | the push loop and the fallback compute `SafetySections` |
| PageImport.EfficacyOf | tools/importer/import.js:304-333 | the title is fixed; one item per element with a label or a value, in order; the three PASI defaults exactly when there is none |
| PageImport.ExtractEfficacyData | tools/importer/import.js:304-333 | the push loop and the fallback compute `EfficacyOf` |
| PageImport.DetectPageType | tools/importer/import.js:338-346 | each page type holds exactly when its keyword is found and no keyword tried before it is, in the order access, h2h or head-to-head, overview, pasi or efficacy, safety, case-insensitively; access also when no keyword is found |
| PageImport.PathOfType | tools/importer/import.js:514-527 | the safety type alone goes to `/skyrizi/safety`, the pasi type alone to `/skyrizi/pasi-90-100`, every other type to `/skyrizi/access` |
| PageImport.AccessPageLayout | tools/importer/import.js:351-408 | six blocks in the fixed order, a break after each but the metadata; the hero has a row per ISI line plus one, indications n + 2, coverage stats + 3 |
| PageImport.SafetyPageLayout | tools/importer/import.js:413-445 | hero, safety, navigation and metadata, alternating with breaks; the safety block has a row per section plus the title row |
| PageImport.PasiPageLayout | tools/importer/import.js:450-490 | hero, efficacy, stats, navigation and metadata; the efficacy block has a row per item plus the title row, the stats block exactly a row per item |
| PageImport.BuildHero | tools/importer/import.js:356-362 | builds the hero block from the logo row and one row per ISI line |
| PageImport.BuildIndications | tools/importer/import.js:366-371 | builds the indications block: title row, a row per indication, PI row |
| PageImport.BuildCoverage | tools/importer/import.js:375-383 | builds the three-column coverage block: title, tabs, a row per stat, footnote |
| PageImport.BuildSupport | tools/importer/import.js:387-393 | builds the support block: title, a row per card, CTA, footnotes |
| PageImport.BuildNav | tools/importer/import.js:397-398 | builds the one-column navigation block with all anchors in one cell |
| PageImport.BuildAccessPage | tools/importer/import.js:351-408 | clears the body, leaves it holding exactly the access layout, and returns `/skyrizi/access` |
| PageImport.BuildSafetyPage | tools/importer/import.js:413-445 | clears the body, leaves it holding exactly the safety layout, and returns `/skyrizi/safety` |
| PageImport.BuildPasiPage | tools/importer/import.js:450-490 | clears the body, leaves it holding exactly the efficacy layout, and returns `/skyrizi/pasi-90-100` |
| PageImport.ExtractAll | tools/importer/import.js:503-510 | every extractor runs on its scraped list |
| PageImport.BuildPage | tools/importer/import.js:514-527 | the switch writes the safety layout for safety, the efficacy layout for pasi and the access layout for every other type, and returns that layout's path |
| PageImport.Transform | tools/importer/import.js:496-533 | the body ends up holding the layout of the detected page type, built from every extractor's result, and the path is that layout's path |
| BlockTable.PaddedRowsAreFull | tools/importer/ski-isi-live-import.js:32-34 | with padding to `columns`, every generated row has at least `columns` cells; a longer row is not cut |
| BlockTable.CopyMovesNothing | tools/importer/ski-isi-live-import.js:27-28 | with cloning, no cell of the table holds a moved element |
| LiveImport.LiveRowsFull | tools/importer/ski-isi-live-import.js:20-36 | every row of a live block has at least the block's column count of cells, and none holds a moved element |
| LiveImport.LastWithNone | tools/importer/ski-isi-live-import.js:74-79 | when no h2 contains the key the value stays empty |
| LiveImport.LastWithIsLast | tools/importer/ski-isi-live-import.js:74-79 | the value is the trimmed text of the last h2 containing the key: later headings overwrite earlier ones |
| LiveImport.ExtractCoverageStats | tools/importer/ski-isi-live-import.js:59-88 | the loop leaves the headline and footnote as scraped and trimmed, and each percentage as the last h2 that contains `99` or `97` |
| LiveImport.ExtractIndications | tools/importer/ski-isi-live-import.js:93-112 | the trimmed paragraphs that name one of the four conditions, in order, with no defaults |
| LiveImport.ColonSplit | tools/importer/ski-isi-live-import.js:217-226 | two cells: without `:` the indication and `""`; with one, the prefix up to and including the first `:` (no earlier `:`) and the trimmed remainder |
| LiveImport.NoColonBefore | tools/importer/ski-isi-live-import.js:218 | `indexOf(':')` finds the first colon: none occurs before it |
| LiveImport.CardTitle | tools/importer/ski-isi-live-import.js:123-133 | AFFORDABILITY in the upper-cased heading gives that card; otherwise ACCESS SUPPORT or FIELD REIMBURSEMENT gives ACCESS SUPPORT; otherwise BRIDGING or BRIDGE PROGRAM gives BRIDGING PATIENTS; no card exactly when none of the five keywords occurs |
| LiveImport.ExtractSupportCards | tools/importer/ski-isi-live-import.js:117-137 | the push loop keeps a card for every heading that announces one, in order |
| LiveImport.CardTitlesFixed | tools/importer/ski-isi-live-import.js:127-133 | every card carries one of the titles AFFORDABILITY, ACCESS SUPPORT or BRIDGING PATIENTS |
| LiveImport.ExtractSafetyInfo | tools/importer/ski-isi-live-import.js:142-164 | no sections without a safety region; otherwise one pass over the region's elements per keyword, in keyword order |
| LiveImport.SectionsLoop | tools/importer/ski-isi-live-import.js:150-161 | the nested loops list, for each keyword in turn, the elements mentioning it |
| LiveImport.SectionsSound | tools/importer/ski-isi-live-import.js:150-161 | every section comes from a region element that mentions one of the keywords |
| LiveImport.SectionsCount | tools/importer/ski-isi-live-import.js:150-161 | an element is listed once for every keyword it mentions, so the count is the sum over keywords |
| LiveImport.MetadataRows | tools/importer/ski-isi-live-import.js:279-285 | title and description rows always; the keywords row exactly when there are keywords |
| LiveImport.HeroRowsShape | tools/importer/ski-isi-live-import.js:205-209 | the logo row appears only when a logo was found; the fixed ISI line comes last |
| LiveImport.CoverageShowsValues | tools/importer/ski-isi-live-import.js:236-242 | five rows; the default headline when none was found, and each missing percentage shown as `N/A` |
| LiveImport.IndicationsBlockRows | tools/importer/ski-isi-live-import.js:215-232 | the indications block has n + 2 rows and every indication row has two cells |
| LiveImport.LivePath | tools/importer/ski-isi-live-import.js:289-294 | each of the five paths holds exactly when its keyword is found and no keyword tried before it is, in the order safety, efficacy or pasi, h2h or head-to-head, overview; `/skyrizi/access` exactly when none of them occurs |
| LiveImport.OutputPath | tools/importer/ski-isi-live-import.js:289-294 | the if-chain computes `LivePath` |
| LiveImport.LivePageLayout | tools/importer/ski-isi-live-import.js:204-286 | hero first, each optional block exactly when its content was found, in the fixed order, then navigation and metadata; a break after all but the metadata |
| LiveImport.ExtractAll | tools/importer/ski-isi-live-import.js:185-190 | every extractor runs on its scraped input |
| LiveImport.BuildIndications | tools/importer/ski-isi-live-import.js:216-230 | title row, a colon-split row per indication, PI row, padded to two columns |
| LiveImport.BuildSupport | tools/importer/ski-isi-live-import.js:250-256 | title row, a row per card, CTA row, padded to two columns |
| LiveImport.BuildSafety | tools/importer/ski-isi-live-import.js:262-267 | title row and a row per section, padded to two columns |
| LiveImport.AppendIndications | tools/importer/ski-isi-live-import.js:215-232 | the indications block and its break are appended exactly when there is an indication |
| LiveImport.AppendCoverage | tools/importer/ski-isi-live-import.js:235-246 | the coverage block and its break are appended exactly when either percentage was found |
| LiveImport.AppendSupport | tools/importer/ski-isi-live-import.js:249-258 | the support block and its break are appended exactly when there is a card |
| LiveImport.AppendSafety | tools/importer/ski-isi-live-import.js:261-269 | the safety block and its break are appended exactly when there is a section |
| LiveImport.AppendOptional | tools/importer/ski-isi-live-import.js:214-269 | after the hero, the four guarded blocks leave the body holding exactly the hero and the blocks whose guard held |
| LiveImport.BuildBody | tools/importer/ski-isi-live-import.js:201-286 | the cleared body ends up holding exactly the live layout |
| LiveImport.Transform | tools/importer/ski-isi-live-import.js:181-300 | the body holds the layout built from the extracted content, and the path depends on the URL alone |
| SkiIsiImport.IsiBlock | tools/importer/ski-isi-import.js:14-46 | the header spans `columns`; one generated row per input row; every row is padded with empty cells to at least `columns` cells, so every row fills the header's width; every element is cloned into its cell, never moved |
| SkiIsiImport.BuildIsi | tools/importer/ski-isi-import.js:14-46 | the loop that writes the table yields exactly the padded table of `IsiBlock` |
| SkiIsiImport.ExtractLogo | tools/importer/ski-isi-import.js:58-61 | the matched image's source when an image matches, otherwise the bundled `./images/logo-skyrizi.svg` |
| SkiIsiImport.HeroRows | tools/importer/ski-isi-import.js:77-81 | three rows; the first is the logo image beside an empty cell |
| SkiIsiImport.IsiPageLayout | tools/importer/ski-isi-import.js:74-131 | the page is Hero, Indications, Coverage, Support, Nav, Metadata, with a section break after every block but the last; every table fills its header's width; the hero's first cell is the logo image |
| SkiIsiImport.Transform | tools/importer/ski-isi-import.js:67-137 | the body becomes exactly that page for the extracted logo, and the path is `/skyrizi/access` |
| IsaImport.IsaBlock | tools/importer/ski-isa-import.js:44-72 | the header spans the given column count; one generated row per input row, with one cell per entry and no padding |
| IsaImport.ExtractAll | tools/importer/ski-isa-import.js:91-96 | the six extractor calls produce the extracted record of the document |
| IsaImport.IsaPageLayout | tools/importer/ski-isa-import.js:99-132 | the page is Hero, Indications, Coverage, Support, Nav, Metadata with a section break after each but the last; the hero has one row per ISI line plus one and spans 2; indications has two more rows than indications and spans 2; coverage has three more rows than statistics and spans 3; support has three more rows than cards and spans 2 |
| IsaImport.WritePage | tools/importer/ski-isa-import.js:99-132 | writing the blocks built from the parsers' rows leaves exactly that page in the body |
| IsaImport.Transform | tools/importer/ski-isa-import.js:86-139 | the body becomes exactly the page of what was extracted, and the path is `/skyrizi/access` |
| SkyriziImport.HeaderSpan | tools/importer/skyrizi-import.js:131 | the header's span is at least 1; it is 1 with no rows, and the first row's cell count (or 1 when that is 0) when the first row is a list of cells |
| SkyriziImport.SkyBlockShape | tools/importer/skyrizi-import.js:125-153 | one generated row per input row and one cell per entry, with no padding; elements are moved into their cells |
| SkyriziImport.CreateBlock | tools/importer/skyrizi-import.js:125-153 | the row loop yields exactly that table |
| SkyriziImport.SafetyBlockShape | tools/importer/skyrizi-import.js:182-190 | a heading row, then one row per safety section holding its title and `<p>`-wrapped content; the header spans 1 |
| SkyriziImport.BuildSafetyBlock | tools/importer/skyrizi-import.js:182-190 | yields the `Ski Isa Safety` table of those rows |
| SkyriziImport.IndicationsBlockShape | tools/importer/skyrizi-import.js:195-206 | a heading row, one row per condition whose first cell is its bold name followed by a colon, and the prescribing-information link row last |
| SkyriziImport.BuildIndicationsBlock | tools/importer/skyrizi-import.js:195-206 | yields the `Ski Isa Indications` table of those rows |
| SkyriziImport.BenefitsInOrder | tools/importer/skyrizi-import.js:216 | the benefits list is one `<li>` per benefit, in order |
| SkyriziImport.CoverageBlockShape | tools/importer/skyrizi-import.js:211-220 | four rows: the heading, the commercial and the Medicare statistic as caption, percentage and description, and one cell listing every benefit as an `<li>`, in order, before the footnote; the header spans 1 |
| SkyriziImport.SupportBlockShape | tools/importer/skyrizi-import.js:225-237 | a heading row, one row per card, and the call to action last |
| SkyriziImport.BuildSupportBlock | tools/importer/skyrizi-import.js:225-237 | yields the `Ski Isa Support` table of those rows |
| SkyriziImport.ActiveMarked | tools/importer/skyrizi-import.js:243-248 | an item's anchor carries a class right after its link exactly when the item is active |
| SkyriziImport.OneActiveItem | tools/importer/skyrizi-import.js:110-119 | exactly one navigation item is active, the seventh, ACCESS |
| SkyriziImport.SkyPageLayout | tools/importer/skyrizi-import.js:261-307 | thirteen nodes: Hero, Safety, Indications, Coverage, Support, Nav, Metadata, with a section break after each but the last; the nav block is one row holding the joined anchors |
| SkyriziImport.WritePage | tools/importer/skyrizi-import.js:261-307 | for any content record, the writes leave exactly that page in the body |
| SkyriziImport.Transform | tools/importer/skyrizi-import.js:257-313 | the body becomes exactly the page of the fixed content, and the path is `/skyrizi/access` |
| HeroParser.BrandInfo | tools/importer/parsers/hero-parser.js:16-25 | the name is always `SKYRIZI`; the subtitle is the trimmed text when it is not empty, else `(risankizumab-rzaa)`; the logo is the image's non-empty source, else the bundled logo path |
| HeroParser.IsiLines | tools/importer/parsers/hero-parser.js:30-66 | with matched elements, exactly one line per element in order, none filtered; with none, the two default lines |
| HeroParser.ExtractIsiLines | tools/importer/parsers/hero-parser.js:30-66 | the push loop and the default branch produce exactly those lines |
| HeroParser.LinesCaptioned | tools/importer/parsers/hero-parser.js:37-44 | every line, scraped or default, has a non-empty toggle caption and a non-empty link caption |
| HeroParser.CreateHeroBlock | tools/importer/parsers/hero-parser.js:71-83 | the push loop produces exactly the hero rows |
| HeroParser.HeroRowsShape | tools/importer/parsers/hero-parser.js:71-83 | one logo row beside an empty cell, then per line, in order, its toggle and its text followed by the anchor to its link |
| IndicationsParser.Indications | tools/importer/parsers/indications-parser.js:16-41 | when some element has both a condition and a description, exactly those elements' indications in document order; otherwise the three defaults |
| IndicationsParser.ExtractIndications | tools/importer/parsers/indications-parser.js:16-41 | the loop and the default branch produce exactly those indications |
| IndicationsParser.IndicationsComplete | tools/importer/parsers/indications-parser.js:26-38 | every indication returned, scraped or default, has a non-empty condition and description |
| IndicationsParser.DefaultsComplete | tools/importer/parsers/indications-parser.js:32-38 | each default indication has a condition and a description |
| IndicationsParser.CreateIndicationsBlock | tools/importer/parsers/indications-parser.js:46-56 | the push loop produces exactly the indication rows |
| IndicationsParser.IndicationRowsShape | tools/importer/parsers/indications-parser.js:46-56 | two more rows than indications: the one-cell `INDICATIONS` heading, one condition/description row per indication in order, and the one-cell prescribing-information row last |
| CoverageParser.Stats | tools/importer/parsers/coverage-parser.js:35-52 | when some element has both a label and a value, exactly those elements' statistics in order; otherwise the two defaults |
| CoverageParser.Tabs | tools/importer/parsers/coverage-parser.js:29-32 | the trimmed text of every tab element when there is one, otherwise `Overview`, `National`, `Local` |
| CoverageParser.CoverageOf | tools/importer/parsers/coverage-parser.js:16-59 | the title and the footnote fall back to their defaults independently of the tabs and statistics |
| CoverageParser.ExtractCoverage | tools/importer/parsers/coverage-parser.js:16-59 | the extraction produces exactly that record |
| CoverageParser.StatsFilled | tools/importer/parsers/coverage-parser.js:41-52 | every statistic, scraped or default, has a non-empty label and value |
| CoverageParser.CreateCoverageBlock | tools/importer/parsers/coverage-parser.js:64-77 | the push loop produces exactly the coverage rows |
| CoverageParser.CoverageRowsShape | tools/importer/parsers/coverage-parser.js:64-77 | three more rows than statistics: the title, the tabs, one label / value-with-`%` / description row per statistic in order, and the footnote |
| CoverageParser.StatValueRoundTrip | tools/importer/parsers/coverage-parser.js:38-71 | a scraped value ending in its only `%` loses it on extraction and gets it back in its row |
| SupportParser.Cards | tools/importer/parsers/support-parser.js:30-47 | when some card element has a title, exactly those elements' cards in order; otherwise the three default cards |
| SupportParser.CtaOf | tools/importer/parsers/support-parser.js:21-53 | without a matching link, the default call to action; with one, its trimmed text, and its `href` or `/skyrizi-complete` when that is empty |
| SupportParser.ExtractSupport | tools/importer/parsers/support-parser.js:16-60 | the extraction produces exactly the support record of the title, cards, call to action and footnotes |
| SupportParser.ScrapedTitlesUpper | tools/importer/parsers/support-parser.js:35-36 | every scraped card title is non-empty and already in upper case |
| SupportParser.IconAt | tools/importer/parsers/support-parser.js:71-73 | the first three cards get `$5`, `support`, `bridge`; every later card gets an empty icon |
| SupportParser.CardRows | tools/importer/parsers/support-parser.js:72-74 | one row per card, in order, card `i` beside the icon of position `i` |
| SupportParser.CreateSupportBlock | tools/importer/parsers/support-parser.js:65-80 | the push loop produces exactly the support rows |
| SupportParser.SupportRowsShape | tools/importer/parsers/support-parser.js:65-80 | three more rows than cards: the title, each card with its icon and bold title, the call-to-action anchor, and the footnotes last |
| NavParser.NavItems | tools/importer/parsers/nav-parser.js:16-47 | when some link has both a label and an `href`, exactly those links' items in document order; otherwise the eight defaults |
| NavParser.ExtractNavigation | tools/importer/parsers/nav-parser.js:16-47 | the loop and the default branch produce exactly those items |
| NavParser.ActiveIffMarked | tools/importer/parsers/nav-parser.js:23-28 | an item is active exactly when its link has the `active` class or `aria-current="page"`; a kept item has a caption and keeps the raw `href` |
| NavParser.ScrapedItemsFilled | tools/importer/parsers/nav-parser.js:27-29 | every scraped item has a non-empty caption and a non-empty link |
| NavParser.DefaultsOneActive | tools/importer/parsers/nav-parser.js:33-44 | exactly one default item is active, the seventh, ACCESS |
| NavParser.NavRows | tools/importer/parsers/nav-parser.js:52-61 | one row holding one cell, the space-joined anchors |
| NavParser.ActiveNotRendered | tools/importer/parsers/nav-parser.js:53-58 | which items are active makes no difference to the rows |
| CardsParser.CleanView | tools/importer/parsers/cards.js:29 | the view up to, and without, its first comma; empty when the button has no view |
| CardsParser.TitleCase | tools/importer/parsers/cards.js:44-52 | same length as the identifier; every hyphen becomes a space, and a character at the start or right after a hyphen is upper-cased, every other one kept |
| CardsParser.TitleCaseSplit | tools/importer/parsers/cards.js:48-51 | splitting at hyphens, capitalising each word and joining with spaces gives that character-by-character title case |
| CardsParser.ViewNameIsTitleCase | tools/importer/parsers/cards.js:44-52 | the readable name of a view is its title case, as long as the identifier, and non-empty for a non-empty identifier |
| CardsParser.ParseCardsBlock | tools/importer/parsers/cards.js:7-39 | the early returns and the two nested loops produce exactly the cards block |
| CardsParser.CardsBlockShape | tools/importer/parsers/cards.js:7-39 | a block comes back exactly when the mapping has no buttons and some button names a view; it is `Cards`, with one row per such button in document order |
| CardsParser.BlockPresent | tools/importer/parsers/cards.js:9-38 | the block is there exactly when there are no mapped buttons, some navigation section, and at least one row |
| CardsParser.NavCardOf | tools/importer/parsers/cards.js:61-62 | the link is the anchor's non-empty `href`, else the goto view, else empty; the title is the untrimmed text |
| CardsParser.ParseNavigationCards | tools/importer/parsers/cards.js:57-71 | the loop produces exactly the navigation cards |
| CardsParser.NavigationCardsShape | tools/importer/parsers/cards.js:57-71 | every card has a title or a link; the list is empty exactly when no element has either; every element with either gives its card |
| StatsParser.StatsBlock | tools/importer/parsers/stats.js:6-28 | always `Stats` with the three-row skeleton: treatment and comparator rows of three cells, a one-cell hazard-ratio row |
| StatsParser.StatsBlockIgnoresSlide | tools/importer/parsers/stats.js:6-28 | the slide makes no difference to the block |
| StatsParser.FieldOr | tools/importer/parsers/stats.js:38-48 | a present, non-empty field is kept, otherwise the fallback |
| StatsParser.SurvivalStats | tools/importer/parsers/stats.js:33-50 | null exactly when there is no data |
| StatsParser.SurvivalStatsFields | tools/importer/parsers/stats.js:36-49 | the labels are never empty and default to `Treatment` and `Comparator`; the values and intervals pass through, empty when missing |
| IsiParser.ParseIsiBlock | tools/importer/parsers/isi.js:6-40 | the image check, the loop and the default branch produce exactly the ISI block |
| IsiParser.DefaultsFilled | tools/importer/parsers/isi.js:46-55 | six default sections, each a non-empty title and a non-empty text |
| IsiParser.IsiBlockShape | tools/importer/parsers/isi.js:6-40 | an ISI image means the six defaults whatever the sections hold; otherwise one row per section with a title or content, in order, and the defaults when there is none |
| IsiParser.ParseIndication | tools/importer/parsers/isi.js:60-69 | null exactly when there is no indication section; the title is `Indication`; the content is the HTML, or the text when the HTML is empty |
| IsiParser.SafetyWarnings | tools/importer/parsers/isi.js:74-86 | one warning per element, in order, none skipped, missing parts as empty strings |
| IsiParser.ParseSafetyWarnings | tools/importer/parsers/isi.js:74-86 | the loop produces exactly those warnings |
| TabsParser.ParseTabsBlock | tools/importer/parsers/tabs.js:6-52 | the three branches and their loops produce exactly the tabs block |
| TabsParser.TabsPriority | tools/importer/parsers/tabs.js:6-52 | indication elements win over everything; AML/CLL buttons win over generic tabs; null exactly when there are no indication elements, no such buttons and no generic tabs |
| TabsParser.ParseIndicationTabs | tools/importer/parsers/tabs.js:57-76 | the pattern loop produces exactly the indication tabs |
| TabsParser.IndicationTabsInOrder | tools/importer/parsers/tabs.js:57-76 | at most five tabs, one per pattern in the order AML, CLL, MDS, ALL, CML, each present exactly when its element was found |
| SlideHeroParser.ExtractOverlayText | tools/importer/parsers/hero.js:60-70 | the loop produces exactly the overlay text |
| SlideHeroParser.KeptClean | tools/importer/parsers/hero.js:65-66 | every kept text is non-empty and trimmed |
| SlideHeroParser.OverlayTextShape | tools/importer/parsers/hero.js:60-70 | the overlay text is empty exactly when every text is blank, and it never starts or ends with white space |
| SlideHeroParser.JoinEnds | tools/importer/parsers/hero.js:69 | a join of clean pieces is non-empty and neither starts nor ends with white space |
| SlideHeroParser.TextContent | tools/importer/parsers/hero.js:30-39 | the text is empty exactly when the headline, subhead and body are all empty |
| SlideHeroParser.BuildTextContent | tools/importer/parsers/hero.js:30-39 | the `+=` steps produce exactly that text |
| SlideHeroParser.ParseHeroBlock | tools/importer/parsers/hero.js:7-55 | the method produces exactly the hero block |
| SlideHeroParser.HeroBlockShape | tools/importer/parsers/hero.js:7-55 | no block without a slide image; no rows without an image source; otherwise the background row first, a text row exactly when some text part is non-empty, and a buttons row exactly when the mapping has buttons |
| SlideHeroParser.BodyOnlyRow | tools/importer/parsers/hero.js:37-42 | with only a body text, the text row is the trimmed body: the leading line break is trimmed away |
| Text.Trim | tools/importer/parsers/hero-parser.js:9-11 | drops leading and trailing JavaScript white space and nothing else: the result is a substring that neither starts nor ends with white space |
| Text.TrimStart | tools/importer/parsers/hero-parser.js:10 | the suffix left after the leading white space, which no longer starts with white space |
| Text.TrimEnd | tools/importer/parsers/hero-parser.js:10 | the prefix left before the trailing white space, which no longer ends with white space |
| Text.TrimIdempotent | tools/importer/parsers/hero-parser.js:10 | trimming twice is trimming once |
| Text.TrimEmpty | tools/importer/parsers/hero-parser.js:10 | the trimmed text is empty exactly when the input is all white space, which is when `getText` falls back |
| Text.Lower | blocks/ski-isa-indications/ski-isa-indications.js:43-44 | the lower-cased string has no ASCII upper-case letter left |
| Text.LowerAppend | blocks/ski-isa-indications/ski-isa-indications.js:43-44 | lower-casing a concatenation lower-cases each part |
| Text.Upper | tools/importer/parsers/support-parser.js:36 | same length; no ASCII lower-case letter is left, and every other character is unchanged |
| Text.UpperIdempotent | tools/importer/parsers/nav-parser.js:28 | upper-casing twice is upper-casing once |
| Text.IndexOf | tools/importer/ski-isi-live-import.js:218 | the first position where the pattern occurs, or -1 exactly when it does not occur |
| Text.ContainsChar | tools/importer/ski-isi-live-import.js:218 | a one-character pattern occurs exactly when its character does |
| Text.RemoveFirst | tools/importer/parsers/coverage-parser.js:38 | without the pattern the string is unchanged; with it, the first occurrence is cut out and the string is what is left around it |
| Text.RemoveTrailingPercent | tools/importer/parsers/coverage-parser.js:38 | a value with one trailing `%` loses exactly that sign |
| Text.RemoveFirstInfix | blocks/ski-isi-hero/ski-isi-hero.js:23 | removing a pattern from `a + t + b`, where `a` holds no copy of the pattern's first character, leaves `a + b` |
| Text.Split | tools/importer/parsers/cards.js:49 | at least one piece, and no piece holds the separator |
| Text.JoinSplit | tools/importer/parsers/cards.js:48-51 | joining the pieces of a split with the separator gives back the string |
| Text.SplitJoin | tools/importer/parsers/cards.js:48-51 | splitting a join of separator-free pieces gives back the pieces |
| Text.SplitHead | tools/importer/parsers/cards.js:29 | the first piece is the part of the string before its first separator |
| Text.NatToString | blocks/tabs/tabs.js:13 | at least one character, all decimal digits |
| Text.DigitsOfNat | blocks/tabs/tabs.js:13 | reading back the digits of a number gives the number |
| Text.LeadingDigits | blocks/ski-isi-coverage/ski-isi-coverage.js:52-53 | the longest prefix made of decimal digits |
| Text.FirstNumberNone | blocks/ski-isi-coverage/ski-isi-coverage.js:52-53 | a string without digits reads as 0 |
| Text.FirstNumberOf | blocks/ski-isi-coverage/ski-isi-coverage.js:52-53 | a number written after a digit-free prefix and before a non-digit is read back |
| Scrape.Keep | tools/importer/parsers/indications-parser.js:22-29 | never more records than elements |
| Scrape.Collect | tools/importer/parsers/indications-parser.js:22-29 | the guarded push loop produces exactly the records `Keep` describes |
| Scrape.KeepAppend | tools/importer/parsers/indications-parser.js:22-29 | the records of two runs of elements are each run's records, in order |
| Scrape.KeepSound | tools/importer/parsers/indications-parser.js:26-28 | every pushed record comes from a qualifying element |
| Scrape.KeepComplete | tools/importer/parsers/indications-parser.js:26-28 | every qualifying element has its record pushed |
| Scrape.KeepNone | tools/importer/parsers/indications-parser.js:32 | nothing is pushed exactly when no element qualifies |
| Scrape.KeepEvery | tools/importer/parsers/hero-parser.js:36-47 | when every element qualifies, record `i` is made from element `i` |
| Scrape.OrDefaultsKeep | tools/importer/parsers/indications-parser.js:32-38 | the defaults are used exactly when no element qualifies; otherwise the scraped records |
| Scrape.MapTo | tools/importer/parsers/coverage-parser.js:32 | one result per element, result `i` made from element `i` |
| Scrape.Each | tools/importer/parsers/hero-parser.js:77-80 | the unguarded push loop produces exactly the mapped sequence |
| Scrape.JoinMapped | tools/importer/skyrizi-import.js:216 | joining mapped parts with no separator concatenates them in order |
| Authored.Columns | blocks/ski-isi-coverage/ski-isi-coverage.js:23 | `:scope > div` selects among the row's children, so there are no more columns than children; which ones, ChildInPlace states |
| Authored.ChildInPlace | blocks/ski-isi-coverage/ski-isi-coverage.js:15-103 | each child node adds its text to the row's `textContent` where it stands; a column div adds its column to `:scope > div` and a text node adds none |
| Authored.TextContentOfColumns | blocks/ski-isi-coverage/ski-isi-coverage.js:15-103 | a row without text nodes has as `textContent` the text of its columns, in order |
| Authored.RowLink | blocks/ski-isi-hero/ski-isi-hero.js:22 | an anchor is found exactly when some cell of the row has one, and then it is the anchor of the first such cell |
| Authored.Slice | blocks/ski-isi-indications/ski-isi-indications.js:23 | drops `start` rows in front and `back` at the end; what is left keeps its order |
| Authored.KeepSlice | blocks/ski-isi-indications/ski-isi-indications.js:23-39 | the records kept from a slice are exactly those of its qualifying rows, in order |
| Authored.KeepSliceNone | blocks/ski-isi-hero/ski-isi-hero.js:15-36 | nothing is kept from a slice exactly when none of its rows qualifies |
| HeroLines.ShownLine | blocks/ski-isi-hero/ski-isi-hero.js:37-45 | a line keeps its caption and text; it shows an anchor exactly when its link has an `href`, and the anchor is that link |
| HeroLines.BuildTopBar | blocks/ski-isi-hero/ski-isi-hero.js:14-56 | the row loop and the bar-building branch produce exactly the top bar: the authored lines shown in order, or the block's defaults |
| HeroLines.LinesFromTapRows | blocks/ski-isi-hero/ski-isi-hero.js:15-33 | every line comes from a row after the first with two columns whose first mentions `tap` in any case, and every such row gives its line |
| HeroLines.NoLines | blocks/ski-isi-hero/ski-isi-hero.js:36 | there are no lines exactly when no row after the first is such a row |
| HeroLines.TopBarShape | blocks/ski-isi-hero/ski-isi-hero.js:36-56 | the defaults are shown exactly when no row after the first is a line row; otherwise one shown line per authored line, in order |
| HeroLines.LineDropsLinkText | blocks/ski-isi-hero/ski-isi-hero.js:22-28 | a content made of `a`, the link's text and `b` shows `a + b` trimmed and keeps the link's text and `href` |
| HeroLogo.LogoOf | blocks/ski-isa-hero/ski-isa-hero.js:137-148 | the first cell's picture wins over its image; with neither, or no first row, no logo |
| HeroLogo.LogoSectionOf | blocks/ski-isi-hero/ski-isi-hero.js:86-103 | the logo section is that logo followed by the fixed `(risankizumab-rzaa)` subtitle |
| Disclosure.HeroPanel.constructor | blocks/ski-isi-hero/ski-isi-hero.js:59-64 | the panel starts collapsed, with `aria-expanded="false"` and icon `+`, which is consistent |
| Disclosure.HeroPanel.Toggle | blocks/ski-isi-hero/ski-isi-hero.js:136-142 | a click flips `collapsed`; the attribute and the icon follow the old state, so they stay consistent with the new one |
| Disclosure.HeroPanel.Expand | blocks/ski-isi-hero/ski-isi-hero.js:145-153 | a top-bar click opens the panel whatever its state: expanded, `aria-expanded="true"`, icon `−` |
| BrandedHero.Decorate | blocks/ski-isa-hero/ski-isa-hero.js:5-184 | for any default lines, the decorated hero is the top bar of `TopBar`, the logo section, and a fresh panel, collapsed with `aria-expanded="false"` and icon `+` |
| SkiIsaHero.Decorate | blocks/ski-isa-hero/ski-isa-hero.js:5-184 | the decorated hero is the shared branded hero with the two ISA default lines: the top bar, the logo section and the panel, built collapsed with icon `+` |
| SkiIsaHero.DefaultTopBar | blocks/ski-isa-hero/ski-isa-hero.js:47-61 | without line rows the bar holds exactly the two default lines, SKYRIZI then HUMIRA, each with its anchor |
| SkiIsiHero.Decorate | blocks/ski-isi-hero/ski-isi-hero.js:6-159 | the decorated hero is the shared branded hero with the one ISI default line: the top bar, the logo section and the panel, built collapsed with icon `+` |
| SkiIsiHero.DefaultTopBar | blocks/ski-isi-hero/ski-isi-hero.js:47-56 | without line rows the bar holds exactly the one default line, which links to the prescribing information |
| IsiBlock.SectionOf | blocks/isi/isi.js:23-46 | a row with more than one column gives a titled section of its trimmed first column and its second column's HTML; otherwise a bare section of its first column's HTML, empty for a row without columns |
| IsiBlock.EmptyRowThrows | blocks/isi/isi.js:26-42 | the code as written throws on a block with one empty row, where one empty section is evidently meant |
| IsiBlock.AsWrittenThrough | blocks/isi/isi.js:23-46 | the code as written gets through exactly the blocks whose every row has a column |
| IsiBlock.AsWrittenSections | blocks/isi/isi.js:23-46 | wherever it gets through, it builds the sections `SectionOf` builds |
| IsiBlock.AsWrittenAgrees | blocks/isi/isi.js:23-46 | both of the above together |
| IsiBlock.IsiToggle.constructor | blocks/isi/isi.js:12-15 | the block keeps its authored `expanded` class, which `decorate` never touches, and the button starts at `aria-expanded="false"` |
| IsiBlock.IsiToggle.Click | blocks/isi/isi.js:49-52 | a click flips `expanded`, and `aria-expanded` mirrors the new state |
| IsiBlock.Decorate | blocks/isi/isi.js:1-59 | the corrected block of the third Findings row, where an empty row gives an empty section: one section per row, in order, and a fresh toggle whose `expanded` class is the authored one, with `aria-expanded="false"` |
| IsiBlock.FirstClickOnExpanded | blocks/isi/isi.js:49-52 | a block authored with `expanded` is collapsed by the first click, with `aria-expanded="false"` |
| SkiIsaSafety.RoutedRows | blocks/ski-isa-safety/ski-isa-safety.js:29-64 | row 0 gives only the title HTML; every later row with a column gives exactly one section, in order |
| SkiIsaSafety.SectionPerRow | blocks/ski-isa-safety/ski-isa-safety.js:41-63 | when every later row has a column, section `i` is made from row `i + 1` |
| SkiIsaSafety.SafetyToggle.AsWritten | blocks/ski-isa-safety/ski-isa-safety.js:16-19 | the toggle as written: the block keeps its authored `collapsed` class while the button always starts with `aria-expanded="true"` and `+`, which is consistent for no authored class |
| SkiIsaSafety.SafetyToggle.constructor | blocks/ski-isa-safety/ski-isa-safety.js:16-73 | the toggle as evidently intended: the authored `collapsed` class kept, with `aria-expanded` and the icon set from it as the click handler sets them, consistent |
| SkiIsaSafety.SafetyToggle.Click | blocks/ski-isa-safety/ski-isa-safety.js:70-74 | a click flips `collapsed` and leaves the attribute and the icon consistent with the new state |
| SkiIsaSafety.InitialIconAsWritten | blocks/ski-isa-safety/ski-isa-safety.js:18-74 | as written, a block authored without `collapsed` shows `+` when built and `-` after two clicks bring it back: one state, two icons |
| SkiIsaSafety.Decorate | blocks/ski-isa-safety/ski-isa-safety.js:5-81 | the corrected block of the second Findings row: the title and sections the row loop routes, and a fresh toggle, consistent, whose `collapsed` class is the authored one |
| SkiIsaCoverage.SupAt | blocks/ski-isa-coverage/ski-isa-coverage.js:65 | a positive result is the end of a `<sup>…</sup>` match at the start, with no line break inside, and no shorter match exists; 0 exactly when no match at the start exists |
| SkiIsaCoverage.StripSupsPlain | blocks/ski-isa-coverage/ski-isa-coverage.js:65 | a description without `<` is left as it is |
| SkiIsaCoverage.StripPrefix | blocks/ski-isa-coverage/ski-isa-coverage.js:65 | a prefix without `<` is kept as it is |
| SkiIsaCoverage.StripTrailingSup | blocks/ski-isa-coverage/ski-isa-coverage.js:65 | a `<sup>` marker at the end of a plain description is dropped |
| SkiIsaCoverage.RoutedByPosition | blocks/ski-isa-coverage/ski-isa-coverage.js:28-94 | rows are routed by position alone: 0 to the title, 1 to the tabs, 2 and 3 to the statistics, 4 to the benefits, the rest nowhere |
| SkiIsaCoverage.Route | blocks/ski-isa-coverage/ski-isa-coverage.js:29-93 | one pass of the loop body is one step of the routing |
| SkiIsaCoverage.Decorate | blocks/ski-isa-coverage/ski-isa-coverage.js:5-130 | the decorated coverage, and three fresh tab buttons with only `national` active |
| SkiIsaCoverage.CoverageTabs | blocks/ski-isa-coverage/ski-isa-coverage.js:38-103 | exactly three tabs: from row 1 when it has three columns, the defaults otherwise |
| SkiIsaCoverage.CoverageStats | blocks/ski-isa-coverage/ski-isa-coverage.js:51-88 | at most two statistics, commercial from row 2 before medicare from row 3 |
| SkiIsaCoverage.StatDefaults | blocks/ski-isa-coverage/ski-isa-coverage.js:55-76 | an empty caption or number shows its kind's default: `Commercial` / `99`, `Medicare Part D` / `97` |
| SkiIsaCoverage.DefaultNumbers | blocks/ski-isa-coverage/ski-isa-coverage.js:56-82 | the default percentages lose their `%` when shown |
| SkiIsiCoverage.Decorate | blocks/ski-isi-coverage/ski-isi-coverage.js:5-109 | the decorated coverage: title and footnote from the first column's HTML or else the whole row's text content, text nodes included, the title trimmed; and one fresh tab button per column div of row 1, with the first active |
| SkiIsiCoverage.CardsFromMiddleRows | blocks/ski-isi-coverage/ski-isi-coverage.js:41-100 | every card comes from a row between the first two and the last with three columns, and every such row gives its card; a footnote exactly when there are more than three rows |
| SkiIsiCoverage.TitleSpansColumns | blocks/ski-isi-coverage/ski-isi-coverage.js:15 | a title row whose first column has no HTML gives the trimmed text of the whole row, the text between the columns included |
| SkiIsiCoverage.BareRowText | blocks/ski-isi-coverage/ski-isi-coverage.js:15-103 | a row without column divs has no columns and gives its whole text content, trimmed as the title and untrimmed as the footnote |
| SkiIsiCoverage.ShownNumber | blocks/ski-isi-coverage/ski-isi-coverage.js:52-54 | a value written as a number after a digit-free label shows that number, and the `%` is noticed |
| SkiIsiSupport.IconOf | blocks/ski-isi-support/ski-isi-support.js:26-41 | the card keeps its key; it gets a drawing exactly when the key is in the icon map |
| SkiIsiSupport.Decorate | blocks/ski-isi-support/ski-isi-support.js:5-76 | the decorated support block is that of the rows |
| SkiIsiSupport.CardsFromMiddleRows | blocks/ski-isi-support/ski-isi-support.js:32-49 | every card comes from a row after the first and before the last two with two columns, and every such row gives its card |
| SkiIsiSupport.EndRows | blocks/ski-isi-support/ski-isi-support.js:12-72 | the title comes from row 0; the call to action exists exactly when the second-to-last row holds an anchor, and is that row's first anchor; the footnote exists exactly when the last row holds none |
| TabState.TabLabel | blocks/ski-isi-tabs/ski-isi-tabs.js:21 | never empty: the trimmed first column, or `Tab n` with `n` the row's position from 1 |
| TabState.TabButtons | blocks/ski-isi-tabs/ski-isi-tabs.js:19-30 | one button per row, in order, numbered by position |
| TabState.TabStrip.constructor | blocks/ski-isi-tabs/ski-isi-tabs.js:26-34 | the first tab is the only active and selected one |
| TabState.TabStrip.Select | blocks/ski-isi-tabs/ski-isi-tabs.js:39-53 | after a click on tab `k`, `k` is the only active and selected tab |
| TabState.ChoiceBar.constructor | blocks/ski-isi-coverage/ski-isi-coverage.js:24-33 | `n` buttons with only the initial one active |
| TabState.ChoiceBar.Choose | blocks/ski-isi-coverage/ski-isi-coverage.js:28-31 | after a click on button `k`, only `k` is active |
| SkiIsiTabs.PanelHtml | blocks/ski-isi-tabs/ski-isi-tabs.js:22 | the second column's HTML when not empty, else the first's |
| SkiIsiTabs.Panels | blocks/ski-isi-tabs/ski-isi-tabs.js:33-37 | one panel per row, in order, numbered by position |
| SkiIsiTabs.Decorate | blocks/ski-isi-tabs/ski-isi-tabs.js:5-63 | the buttons and panels of the rows, and a fresh strip with one tab per row and the first active |
| SkiIsiTabs.ButtonsMatchPanels | blocks/ski-isi-tabs/ski-isi-tabs.js:28-35 | button `i` and panel `i` both carry `data-tab` `i` |
| Tabs.Panels | blocks/tabs/tabs.js:26-33 | one panel per row, in order, filled from the second column only when there is one |
| Tabs.BuildTabs | blocks/tabs/tabs.js:11-34 | the row loop produces exactly those buttons and panels |
| Tabs.Decorate | blocks/tabs/tabs.js:1-61 | the block gets role `tablist`, the buttons and panels, and a fresh strip with the first tab active |
| Tabs.Click | blocks/tabs/tabs.js:37-55 | a click on tab button `k` leaves `k` the only active tab; a click elsewhere changes nothing |
| SkiIsaIndications.Route | blocks/ski-isa-indications/ski-isa-indications.js:25-65 | one pass of the loop body is one routing step |
| SkiIsaIndications.Decorate | blocks/ski-isa-indications/ski-isa-indications.js:5-76 | the view the loop routes; the PI section is shown exactly when it is not empty |
| SkiIsaIndications.LastFrom | blocks/ski-isa-indications/ski-isa-indications.js:35-65 | the last position at or after `start` that passes, with no later one passing, or none when none passes |
| SkiIsaIndications.RoutedRows | blocks/ski-isa-indications/ski-isa-indications.js:24-66 | row 0 gives only the title; every later row is an item or sets the PI section, which holds the last PI row's HTML |
| SkiIsaIndications.StepPi | blocks/ski-isa-indications/ski-isa-indications.js:35-65 | a step after row 0 replaces the PI section exactly when the row is a PI row |
| SkiIsaIndications.StepItems | blocks/ski-isa-indications/ski-isa-indications.js:35-65 | a step after row 0 appends the row's item exactly when it is an item row |
| SkiIsaIndications.PiShown | blocks/ski-isa-indications/ski-isa-indications.js:35-72 | the PI section is shown exactly when some later row is a PI row |
| SkiIsaIndications.ItemsFromLaterRows | blocks/ski-isa-indications/ski-isa-indications.js:35-65 | every item comes from a later non-PI row with columns, and every such row gives its item |
| SkiIsiIndications.Decorate | blocks/ski-isi-indications/ski-isi-indications.js:5-54 | the steps produce exactly the indications view |
| SkiIsiIndications.ItemsFromMiddleRows | blocks/ski-isi-indications/ski-isi-indications.js:23-39 | every item comes from a row strictly between the first and the last with a condition and a description, and every such row gives its item; no item is blank |
| SkiIsiIndications.TitleAndLink | blocks/ski-isi-indications/ski-isi-indications.js:12-50 | the title is never empty and defaults to `INDICATIONS`; the PI link comes from the last row whenever there is one, even when that is also the title row |
| BlockTable.EntriesOf | tools/importer/import.js:37 | a row that is not an array stands for the one-entry row of itself |
| BlockTable.StrCells | tools/importer/import.js:35-37 | a row written as an array of strings has one string entry per string, in order |
| BlockTable.RowTds | tools/importer/import.js:36-47 | the entries' cells in order, then empty cells up to the padding width, and nothing else |
| BlockTable.TableOf | tools/importer/import.js:23-51 | the table keeps the block's name and header span and has one generated row per input row, in order |
| BlockTable.Body.constructor | tools/importer/import.js:352 | the document body, holding the nodes it is given |
| BlockTable.Body.Clear | tools/importer/import.js:353 | `innerHTML = ''` leaves the body empty |
| BlockTable.Body.Append | tools/importer/import.js:362 | `appendChild` adds exactly the node at the end |
| BlockTable.Body.AppendSection | tools/importer/import.js:362-363 | a table and its divider appended to a body of framed tables give one more framed table |
| BlockTable.WritePage3 | tools/importer/import.js:413-445 | clearing and writing three framed tables and a last one leaves exactly that page |
| BlockTable.WritePage4 | tools/importer/import.js:450-490 | likewise for four framed tables and a last one |
| BlockTable.WritePage5 | tools/importer/import.js:351-408 | likewise for five framed tables and a last one |
| BlockTable.WritePage6 | tools/importer/skyrizi-import.js:261-307 | likewise for six framed tables and a last one |
| BlockTable.Framed | tools/importer/import.js:362-363 | twice as many nodes as tables: each table, then a section break |
| BlockTable.Names | tools/importer/import.js:351-408 | never more block names than nodes |
| BlockTable.TableNames | tools/importer/import.js:30 | one name per table, in order |
| BlockTable.PageAlternates | tools/importer/import.js:351-408 | on a rebuilt page tables and section breaks alternate, starting and ending with a table |
| BlockTable.PageKeeps | tools/importer/import.js:351-408 | whatever holds of every table handed to the page holds of every table on it |
| BlockTable.FramedNames | tools/importer/import.js:362-363 | the block names of framed tables are the tables' names, in order |
| BlockTable.PageNames | tools/importer/import.js:351-408 | the block names of a page are its framed tables' names, then the last table's |
| ImportUtils.IndexLower | tools/importer/utils.js:116-119 | `p/index.html` loses the extension and then `/index`, leaving `p` |
| ImportUtils.IndexUpper | tools/importer/utils.js:116-119 | the same in upper case, as the `i` flag makes the patterns case-insensitive |
| ImportUtils.EndsWithLast | tools/importer/utils.js:116 | a case-insensitive suffix match agrees on the last character |
| ImportUtils.NotEnding | tools/importer/utils.js:116-119 | a name whose last character differs, in any case, from the suffix's last does not end with it |
| ImportUtils.StrippedIsSlug | tools/importer/utils.js:105 | stripping the edge hyphens of slug characters without a double hyphen leaves a slug |
| ImportUtils.SlugsHaveNoSlash | tools/importer/utils.js:122 | slugs hold no `/`, so joining sanitized segments with `/` can be split back |
| ImportUtils.NoDoubleSlash | tools/importer/utils.js:124 | `/` followed by non-empty, slash-free segments joined by `/` has no empty segment |
| ImporterDifferences.AccessSafetyUrlSplits | tools/importer/import.js:338-346 | a URL naming both `access` and `safety` goes to the access page here, and to the safety page in the live importer (ski-isi-live-import.js:289-294), which tries `safety` first |
| ImporterDifferences.HeadToHeadUrlSplits | tools/importer/import.js:338-346 | a URL naming only the head-to-head page is detected as such but built as the access page, while the live importer writes it to `/skyrizi/h2h` |
| ImporterDifferences.ConditionOnlyIndication | tools/importer/import.js:124 | an element with a condition and no description is an indication here, and is dropped by the indications parser (indications-parser.js:26), which then falls back to its defaults |
| ImporterDifferences.CaptionOnlyStat | tools/importer/import.js:163 | a statistic with a caption and no value is kept here with an empty value, and dropped by the coverage parser (coverage-parser.js:41), which then falls back to its defaults |

## Left out

- CSS selector matching (`querySelector`, `querySelectorAll` and the class-name heuristics) is not modelled. The matched elements, with their text, HTML and attributes, are inputs to the model.
- HTML parsing and serialisation are not modelled. `innerHTML`, `outerHTML` and an element's `textContent` are opaque strings (a row <div> of the ISI coverage block is the exception: its `textContent` is built from its child nodes), and markup written by the code is modelled as string concatenation. The `<strong>` regular expression in `blocks/ski-isa-support/ski-isa-support.js` is not part of this model.
- `transformDOM` (`tools/importer/utils.js:30-52`) is left out: it depends on browser DOM cloning and on `TreeWalker`.
- `new URL(...)` (`tools/importer/utils.js:112`) is WHATWG URL parsing. `ImportUtils.GenerateDocumentPath` starts from the path name.
- The SVG ring geometry of the ISI coverage cards (`blocks/ski-isi-coverage/ski-isi-coverage.js:57-61`) uses floating-point `Math.PI` and is not modelled. The card's number and `%` marker are modelled.
- The navigation decorators `blocks/ski-isa-nav/ski-isa-nav.js` and `blocks/ski-isi-nav/ski-isi-nav.js` are not part of this model. They depend on `window.location` and on the browser resolving `link.href`.
- These one-pass templating decorators have no routing or state to state and are not part of this model: `blocks/hero/hero.js`, `blocks/stats/stats.js`, `blocks/ski-isi-stats/ski-isi-stats.js`, `blocks/ski-isi-chart/ski-isi-chart.js`, `blocks/ski-isi-efficacy/ski-isi-efficacy.js`, `blocks/ski-isi-comparison/ski-isi-comparison.js`, `blocks/ski-isi-cards/ski-isi-cards.js`, `blocks/ski-isi-safety/ski-isi-safety.js` and `blocks/ski-isa-support/ski-isa-support.js`.
- `tools/importer/parsers/index.js` only re-exports the parsers and is not part of this model.
- Console logging, `scrollIntoView`, event dispatch and DOM event bubbling are left out. A click is a method call on the element's state object. The delegated handler of `blocks/tabs/tabs.js` takes the clicked target's class and `data-tab` as parameters.
- Hard-coded marketing copy is kept where a default fallback or a fixed-content transform needs it: the default records of the extractors and parsers, the content record of SkyriziImport.Transform and the fixed rows of SkiIsiImport.Transform.
- Text.Upper: maps only ASCII letters, where `String.prototype.toUpperCase` maps every letter, some to several characters (`ß` to `SS`). The model therefore agrees with the source only when the text compared is ASCII: a page heading holding a dotless `ı` or a long `ſ` upper-cases in the source to `I` or `S` and can then spell a keyword such as BRIDGING or SAFETY, which the model does not see.
- Text.Lower: exact only for A-Z, U+0130 and U+212A. Every other character is left unchanged. This is exact for `includes` tests against the ASCII keywords and for `sanitizeFilename`, whose later replace keeps only a-z, 0-9 and `-`.
- SkyriziImport.HeaderSpan: a first row that is a lone string counts its length in code points, where JavaScript counts UTF-16 code units. The two differ only for characters outside the Basic Multilingual Plane.
- SkiIsiSupport.IconOf: models only the icon map's own keys. A key such as `constructor` also finds an inherited, truthy `Object.prototype` member in JavaScript, which the model does not capture.
- Text.FirstNumberOf: reads the digit run as an unbounded integer. `parseInt` rounds a run beyond 2^53 to the nearest double.
- Element identity and aliasing are left out. A cell either receives an element (moved) or a copy of it (cloned), and `BlockTable.CopyMovesNothing` states which. Detaching a moved node from its old parent is not modelled.

## Findings

| source | as written | input that shows it | evidently intended | confidence | as-written member | corrected member |
|---|---|---|---|---|---|---|
| tools/importer/utils.js:122-124 | empty segments are filtered out before each segment is sanitized, so a segment that sanitizes to nothing stays as an empty segment | the path name `/a/_/b` gives `/a//b` | drop segments that are empty after sanitizing, so the path never holds `//` | not executed | ImportUtils.EmptySegmentKept | ImportUtils.GenerateDocumentPathDroppingEmpty |
| blocks/ski-isa-safety/ski-isa-safety.js:18-74 | a block authored without the `collapsed` class starts expanded with the icon `+`, which the click handler uses for the collapsed state; one authored with it starts collapsed with `aria-expanded="true"` | a freshly decorated block shows `+` while expanded and `-` once two clicks have expanded it again | the icon is `+` exactly when the block is collapsed, from the start | not executed | SkiIsaSafety.InitialIconAsWritten | SkiIsaSafety.SafetyToggle.constructor |
| blocks/isi/isi.js:26-42 | a row with no columns leaves the section content undefined, and the code reads it | a block with one empty row, `[[]]`, throws | an empty row gives an empty section | not executed | IsiBlock.EmptyRowThrows | IsiBlock.SectionOf |
