/** The event vocabulary of `rust/rotext/src/events.rs`, with both the
    `block-id` and the `line-number` features enabled: the `EventType`
    discriminants, `Event::content`, the inline-phase classification of
    block events and the test-only `assertion_flags`. */
module Events {
  import opened Common
  import opened Strings

  datatype EventType =
    | Unparsed | NewLine | VerbatimEscaping | Text
    | ThematicBreak | EnterParagraph
    | EnterHeading1 | EnterHeading2 | EnterHeading3 | EnterHeading4 | EnterHeading5 | EnterHeading6
    | EnterBlockQuote | EnterOrderedList | EnterUnorderedList | EnterListItem
    | EnterDescriptionList | EnterDescriptionTerm | EnterDescriptionDetails
    | EnterCodeBlock | IndicateCodeBlockCode | ExitBlock

  /** The `u8` each event type is represented by. */
  function Discriminant(t: EventType): (d: nat)
    ensures d < 256
  {
    match t
    case Unparsed => 255
    case NewLine => 201
    case VerbatimEscaping => 202
    case Text => 203
    case ThematicBreak => 8
    case EnterParagraph => 7
    case EnterHeading1 => 1
    case EnterHeading2 => 2
    case EnterHeading3 => 3
    case EnterHeading4 => 4
    case EnterHeading5 => 5
    case EnterHeading6 => 6
    case EnterBlockQuote => 11
    case EnterOrderedList => 12
    case EnterUnorderedList => 13
    case EnterListItem => 14
    case EnterDescriptionList => 15
    case EnterDescriptionTerm => 16
    case EnterDescriptionDetails => 17
    case EnterCodeBlock => 21
    case IndicateCodeBlockCode => 91
    case ExitBlock => 99
  }

  /** `From<u8>`, restricted to the bytes that are discriminants; the
      transmute of any other byte has no meaning and gives `None` here. */
  function FromU8(b: nat): (t: Option<EventType>)
  {
    match b
    case 255 => Some(Unparsed)
    case 201 => Some(NewLine)
    case 202 => Some(VerbatimEscaping)
    case 203 => Some(Text)
    case 8 => Some(ThematicBreak)
    case 7 => Some(EnterParagraph)
    case 1 => Some(EnterHeading1)
    case 2 => Some(EnterHeading2)
    case 3 => Some(EnterHeading3)
    case 4 => Some(EnterHeading4)
    case 5 => Some(EnterHeading5)
    case 6 => Some(EnterHeading6)
    case 11 => Some(EnterBlockQuote)
    case 12 => Some(EnterOrderedList)
    case 13 => Some(EnterUnorderedList)
    case 14 => Some(EnterListItem)
    case 15 => Some(EnterDescriptionList)
    case 16 => Some(EnterDescriptionTerm)
    case 17 => Some(EnterDescriptionDetails)
    case 21 => Some(EnterCodeBlock)
    case 91 => Some(IndicateCodeBlockCode)
    case 99 => Some(ExitBlock)
    case _ => None
  }

  /** Reading a discriminant back gives the type it came from, so no two
      event types share a discriminant. */
  lemma FromU8RoundTrip(t: EventType)
    ensures FromU8(Discriminant(t)) == Some(t)
  {
  }

  lemma DiscriminantsDistinct(t: EventType, u: EventType)
    ensures Discriminant(t) == Discriminant(u) ==> t == u
  {
    FromU8RoundTrip(t);
    FromU8RoundTrip(u);
  }

  /** Every byte `FromU8` accepts is the discriminant of what it returns. */
  lemma DiscriminantRoundTrip(b: nat)
    ensures FromU8(b).Some? ==> Discriminant(FromU8(b).value) == b
  {
  }

  /** The heading entered at level `n`. */
  function HeadingType(n: nat): (t: EventType)
    requires 1 <= n <= 6
  {
    match n
    case 1 => EnterHeading1
    case 2 => EnterHeading2
    case 3 => EnterHeading3
    case 4 => EnterHeading4
    case 5 => EnterHeading5
    case _ => EnterHeading6
  }

  /** `EnterHeadingN` is represented by the byte N. */
  lemma HeadingDiscriminant(n: nat)
    requires 1 <= n <= 6
    ensures Discriminant(HeadingType(n)) == n
  {
  }

  datatype Event =
    | UnparsedEvent(range: Range)
    | VerbatimEscapingEvent(content: Range, isClosedForcedly: bool, lineNumberAfter: nat)
    | NewLineEvent(lineNumberAfter: nat)
    | TextEvent(range: Range)
    | ThematicBreakEvent(id: nat, lineNumber: nat)
    | EnterParagraphEvent(id: nat)
    | EnterHeading1Event(id: nat)
    | EnterHeading2Event(id: nat)
    | EnterHeading3Event(id: nat)
    | EnterHeading4Event(id: nat)
    | EnterHeading5Event(id: nat)
    | EnterHeading6Event(id: nat)
    | EnterBlockQuoteEvent(id: nat)
    | EnterOrderedListEvent(id: nat)
    | EnterUnorderedListEvent(id: nat)
    | EnterListItemEvent(id: nat)
    | EnterDescriptionListEvent(id: nat)
    | EnterDescriptionTermEvent(id: nat)
    | EnterDescriptionDetailsEvent(id: nat)
    | EnterCodeBlockEvent(id: nat)
    | IndicateCodeBlockCodeEvent
    | ExitBlockEvent(id: nat, startLineNumber: nat, endLineNumber: nat)

  /** The type tag of an event: the event's own discriminant. */
  function TypeOf(e: Event): EventType
  {
    match e
    case UnparsedEvent(_) => Unparsed
    case VerbatimEscapingEvent(_, _, _) => VerbatimEscaping
    case NewLineEvent(_) => NewLine
    case TextEvent(_) => Text
    case ThematicBreakEvent(_, _) => ThematicBreak
    case EnterParagraphEvent(_) => EnterParagraph
    case EnterHeading1Event(_) => EnterHeading1
    case EnterHeading2Event(_) => EnterHeading2
    case EnterHeading3Event(_) => EnterHeading3
    case EnterHeading4Event(_) => EnterHeading4
    case EnterHeading5Event(_) => EnterHeading5
    case EnterHeading6Event(_) => EnterHeading6
    case EnterBlockQuoteEvent(_) => EnterBlockQuote
    case EnterOrderedListEvent(_) => EnterOrderedList
    case EnterUnorderedListEvent(_) => EnterUnorderedList
    case EnterListItemEvent(_) => EnterListItem
    case EnterDescriptionListEvent(_) => EnterDescriptionList
    case EnterDescriptionTermEvent(_) => EnterDescriptionTerm
    case EnterDescriptionDetailsEvent(_) => EnterDescriptionDetails
    case EnterCodeBlockEvent(_) => EnterCodeBlock
    case IndicateCodeBlockCodeEvent => IndicateCodeBlockCode
    case ExitBlockEvent(_, _, _) => ExitBlock
  }

  /** Whether the event carries a range of the input. */
  predicate CarriesRange(e: Event) {
    e.UnparsedEvent? || e.VerbatimEscapingEvent? || e.TextEvent?
  }

  function RangeOf(e: Event): Range
    requires CarriesRange(e)
  {
    if e.VerbatimEscapingEvent? then e.content else e.range
  }

  predicate InBounds(e: Event, input: seq<Byte>) {
    CarriesRange(e) ==> RangeOf(e).InBounds(input)
  }

  /** `Event::content`: the text of the carried range, or `None`. */
  function Content(e: Event, input: seq<Byte>): (r: Option<string>)
    requires InBounds(e, input)
    ensures r.Some? ==> CarriesRange(e) && r.value == Common.Text(RangeOf(e), input)
  {
    match e
    case UnparsedEvent(content) => Some(Common.Text(content, input))
    case VerbatimEscapingEvent(content, _, _) => Some(Common.Text(content, input))
    case TextEvent(content) => Some(Common.Text(content, input))
    case _ => None
  }

  /** Content is present exactly for the three events whose discriminant lies
      above 200 and is not `NewLine`'s. */
  lemma ContentIffTextual(e: Event, input: seq<Byte>)
    requires InBounds(e, input)
    ensures Content(e, input).Some? <==> Discriminant(TypeOf(e)) > 200 && TypeOf(e) != NewLine
  {
  }

  /** `BlockEvent::opens_inline_phase`. Every variant of `Event` belongs to
      the `BlockEvent` sub-enum, so it is stated on `Event`. */
  predicate OpensInlinePhase(e: Event) {
    match e
    case EnterParagraphEvent(_) => true
    case EnterHeading1Event(_) => true
    case EnterHeading2Event(_) => true
    case EnterHeading3Event(_) => true
    case EnterHeading4Event(_) => true
    case EnterHeading5Event(_) => true
    case EnterHeading6Event(_) => true
    case IndicateCodeBlockCodeEvent => true
    case _ => false
  }

  /** `BlockEvent::closes_inline_phase`. */
  predicate ClosesInlinePhase(e: Event) {
    e.ExitBlockEvent? || e.IndicateCodeBlockCodeEvent?
  }

  /** The events opening an inline phase are the paragraph, the headings
      (discriminants 1 to 7) and the code part of a code block. */
  lemma OpensIffParagraphHeadingOrCode(e: Event)
    ensures OpensInlinePhase(e) <==> 1 <= Discriminant(TypeOf(e)) <= 7 || e.IndicateCodeBlockCodeEvent?
  {
  }

  /** Only the code part of a code block both opens and closes a phase. */
  lemma OpensAndClosesOnlyCodePart(e: Event)
    ensures OpensInlinePhase(e) && ClosesInlinePhase(e) <==> e.IndicateCodeBlockCodeEvent?
  {
  }

  /** Events that delimit an inline phase carry no content. */
  lemma PhaseBoundariesHaveNoContent(e: Event, input: seq<Byte>)
    requires InBounds(e, input)
    ensures OpensInlinePhase(e) || ClosesInlinePhase(e) ==> Content(e, input) == None
  {
  }

  /** The flag for the line number after an event. */
  function LineFlag(n: nat): (f: string)
    ensures |f| > 4 && f[..4] == ">ln:"
  {
    ">ln:" + DecimalString(n)
  }

  /** `Event::assertion_flags`: "F" for a forcibly closed verbatim escaping
      and, when the `line-number` feature is on, the `>ln:N` flag of events
      that record the line after them; `None` instead of an empty set. */
  function AssertionFlags(e: Event, lineNumberFeature: bool): (r: Option<set<string>>)
    ensures r != Some({})
    ensures r.Some? ==> ("F" in r.value <==> e.VerbatimEscapingEvent? && e.isClosedForcedly)
    ensures r.Some? <==>
      (e.VerbatimEscapingEvent? && (e.isClosedForcedly || lineNumberFeature)) || (e.NewLineEvent? && lineNumberFeature)
    ensures r.Some? && lineNumberFeature ==> LineFlag(e.lineNumberAfter) in r.value
    ensures r.Some? ==> r.value <= {"F", LineFlag(e.lineNumberAfter)}
    ensures r.Some? && !lineNumberFeature ==> r.value == {"F"}
  {
    var forced := if e.VerbatimEscapingEvent? && e.isClosedForcedly then {"F"} else {};
    var line :=
      if lineNumberFeature && (e.VerbatimEscapingEvent? || e.NewLineEvent?) then {LineFlag(e.lineNumberAfter)}
      else {};
    var flags := forced + line;
    assert "F" !in line;
    if flags != {} then Some(flags) else None
  }
}
