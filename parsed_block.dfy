/**
 * The block objects the slide parsers return, `{ name, rows }` with rows of strings,
 * and the per-view content mapping some of them consult.
 */
module ParsedBlock {
  import opened Wrappers

  datatype Parsed = Parsed(name: string, rows: seq<seq<string>>)

  /** A call to action of the content mapping: `{ label, link }`. */
  datatype CtaButton = CtaButton(caption: string, link: string)

  /** `viewContent`: the optional hero texts and the buttons list (an absent list is empty). */
  datatype ViewContent = ViewContent(heroHeadline: Option<string>, heroSubhead: Option<string>,
                                     heroText: Option<string>, buttons: seq<CtaButton>)
}
