/** The block-level event enum of `rust/rotext/src/block/events.rs` and its
    `content` accessor. */
module BlockEvents {
  import opened Common

  datatype Event =
    | Undetermined(range: Range)
    | LineFeed
    | Exit
    | VerbatimEscaping(content: Range)
    | EnterParagraph
    | ThematicBreak
    | EnterCodeBlock
    | EnterCodeBlockMeta
    | EnterCodeBlockContent
  {
    /** Whether the event carries a range of the input. */
    predicate HasRange() { Undetermined? || VerbatimEscaping? }

    /** The range an `Undetermined` or `VerbatimEscaping` event carries. */
    function RangeOf(): Range
      requires HasRange()
    {
      if Undetermined? then range else content
    }
  }

  /** Every range the event carries lies inside the input. */
  predicate InBounds(ev: Event, input: seq<Byte>) {
    ev.HasRange() ==> ev.RangeOf().InBounds(input)
  }

  /** `Event::content`: the text of the carried range, or `None`. */
  function Content(ev: Event, input: seq<Byte>): (r: Option<string>)
    requires InBounds(ev, input)
    ensures r.Some? <==> ev.HasRange()
    ensures ev.Undetermined? ==> r == Some(Text(ev.range, input))
    ensures ev.VerbatimEscaping? ==> r == Some(Text(ev.content, input))
    ensures r.Some? ==> |r.value| == ev.RangeOf().length
  {
    match ev
    case Undetermined(range) => Some(Text(range, input))
    case LineFeed => None
    case Exit => None
    case VerbatimEscaping(content) => Some(Text(content, input))
    case EnterParagraph => None
    case ThematicBreak => None
    case EnterCodeBlock => None
    case EnterCodeBlockMeta => None
    case EnterCodeBlockContent => None
  }

  /** Events without a range have no content. */
  lemma StructuralEventsHaveNoContent(ev: Event, input: seq<Byte>)
    requires !ev.HasRange()
    ensures Content(ev, input) == None
    ensures ev in {LineFeed, Exit, EnterParagraph, ThematicBreak, EnterCodeBlock,
                   EnterCodeBlockMeta, EnterCodeBlockContent}
  {
  }

  /** `"ab"` in `Undetermined(Range(0, 2))` reads back as "ab"; the content of a
      verbatim escaping is exactly the range it covers. */
  lemma ContentExample()
    ensures Content(Undetermined(Range(0, 2)), [97, 98, 99]) == Some("ab")
    ensures Content(VerbatimEscaping(Range(1, 2)), [97, 98, 99]) == Some("bc")
    ensures Content(Exit, [97]) == None
  {
    assert Text(Range(0, 2), [97, 98, 99]) == "ab";
    assert Text(Range(1, 2), [97, 98, 99]) == "bc";
  }
}
