/** What the block-level sub-parsers (`content`, `paragraph`, `code_block`)
    and the root block parser exchange: the events they yield and the result
    of one call to a sub-parser's `next`. */
module SubParsers {
  import opened Common

  /** The block events these files yield. `Unparsed` and `Text` carry the
      range of the input they stand for. */
  datatype Event =
    | Unparsed(content: Range)
    | Text(content: Range)
    | LineFeed
    | EnterParagraph
    | ThematicBreak
    | EnterCodeBlock
    | Separator
    | Exit

  /** `sub_parsers::Result`. */
  datatype Result =
    | ToYield(ev: Event)
    /** A line feed was consumed; the caller decides whether to resume. */
    | ToPauseForNewLine
    | Done
}
