/** The paragraph sub-parser of
    `rust/rotext/src/block/sub_parsers/paragraph.rs`: it yields
    `EnterParagraph`, forwards what its content parser yields, and closes
    with `Exit`. */
module Paragraph {
  import opened Common
  import opened BlockContext
  import SP = SubParsers
  import CP = ContentParser

  /** The parser's state; `P` is the content parser it owns (an object in
      the parser, its fields in the specification). */
  datatype State<P> =
    | Initial(contentBefore: Option<Range>)
    | Content(parser: P)
    | Exiting
    | Exited
    | Paused(parser: P)
    /** Set only by `resume_from_pause_for_new_line_and_exit`. */
    | ToExit
    | Invalid
  {
    /** The states in which `next` may be called; in the others it is
        unreachable. */
    predicate CanCallNext() { Initial? || Content? || Exiting? || ToExit? }
  }

  /** The content parser a paragraph starts: inline, starting in `Normal`
      over the prefix the root parser already read when there is one, and
      ending before a blank line. */
  function ContentOptions(contentBefore: Option<Range>): (o: CP.Options)
    ensures o.mode.Inline?
    ensures o.endConditions == CP.EndConditions(false, true, None)
    ensures contentBefore.Some? ==> o.initialStepState == CP.Normal(contentBefore.value)
    ensures contentBefore.None? ==> o.initialStepState == CP.Initial
  {
    CP.Options(
      match contentBefore
      case Some(r) => CP.Normal(r)
      case None => CP.Initial,
      CP.Inline,
      CP.EndConditions(false, true, None))
  }

  /** What a call to `next` demands of the state and the context. */
  predicate CanRunNext(s: State<CP.Fields>, input: seq<Byte>, tokens: seq<Token>, pos: nat) {
    && WellFormed(input, tokens)
    && pos <= |tokens|
    && s.CanCallNext()
    && (s.Content? ==> CP.CanRun(s.parser, input, tokens, pos))
  }

  /** `next`: the result, the new read position and the new state. */
  function NextSpec(s: State<CP.Fields>, input: seq<Byte>, tokens: seq<Token>, pos: nat)
    : (r: (SP.Result, nat, State<CP.Fields>))
    requires CanRunNext(s, input, tokens, pos)
    ensures pos <= r.1 <= |tokens|
    ensures s.Initial? ==> r == (SP.ToYield(SP.EnterParagraph), pos,
                                 Content(CP.NewFields(ContentOptions(s.contentBefore))))
    ensures s.Exiting? ==> r == (SP.Done, pos, Exited)
    ensures s.ToExit? ==> r == (SP.ToYield(SP.Exit), pos, Exiting)
    ensures r.0.Done? <==> s.Exiting?
    ensures r.0.ToPauseForNewLine? ==> r.2.Paused? && r.1 > pos && EndsLine(tokens, r.1)
    ensures r.2.Content? ==> r.2.parser.nextInitialStepState.Initial? || s.Initial?
    ensures r.2.Paused? ==> r.2.parser.nextInitialStepState.Initial?
    ensures r.0.ToYield? && r.0.ev == SP.Exit <==> r.2.Exiting?
    ensures r.2.CanCallNext() ==> CanRunNext(r.2, input, tokens, r.1)
  {
    match s
    case Initial(contentBefore) =>
      (SP.ToYield(SP.EnterParagraph), pos, Content(CP.NewFields(ContentOptions(contentBefore))))
    case Content(f) =>
      var (next, pos', f') := CP.NextSpec(f, input, tokens, pos);
      (match next
       case ToYield(ev) => (SP.ToYield(ev), pos', Content(f'))
       case ToPauseForNewLine => (SP.ToPauseForNewLine, pos', Paused(f'))
       case Done => (SP.ToYield(SP.Exit), pos', Exiting))
    case Exiting => (SP.Done, pos, Exited)
    case ToExit => (SP.ToYield(SP.Exit), pos, Exiting)
  }

  /** `resume_from_pause_for_new_line_and_continue`. */
  function ResumeAndContinueSpec(s: State<CP.Fields>): (s': State<CP.Fields>)
    requires s.Paused?
    ensures s'.Content? && s'.parser == s.parser.(nextInitialStepState := CP.IsAfterLineFeed)
  {
    Content(s.parser.(nextInitialStepState := CP.IsAfterLineFeed))
  }

  /** The paragraph sub-parser. */
  class Parser {
    var state: State<CP.Parser>

    /** The objects the parser owns: itself and its content parser. */
    function Repr(): set<object>
      reads this
    {
      {this} + (if state.Content? || state.Paused? then {state.parser} else {})
    }

    function Abs(): State<CP.Fields>
      reads Repr()
    {
      match state
      case Initial(contentBefore) => Initial(contentBefore)
      case Content(p) => Content(p.Abs())
      case Exiting => Exiting
      case Exited => Exited
      case Paused(p) => Paused(p.Abs())
      case ToExit => ToExit
      case Invalid => Invalid
    }

    /** `new(content_before)`. */
    constructor (contentBefore: Option<Range>)
      ensures Abs() == Initial(contentBefore)
      ensures fresh(Repr())
    {
      state := Initial(contentBefore);
    }

    /** `next`; calling it in `Exited`, `Paused` or `Invalid` is unreachable. */
    method Next(ctx: Context) returns (r: SP.Result)
      requires ctx.Valid() && CanRunNext(Abs(), ctx.input, ctx.tokens, ctx.pos)
      modifies Repr(), ctx
      ensures ctx.Valid()
      ensures fresh(Repr() - old(Repr()))
      ensures (r, ctx.pos, Abs()) == NextSpec(old(Abs()), ctx.input, ctx.tokens, old(ctx.pos))
    {
      var st := state;
      state := Invalid;
      match st {
        case Initial(contentBefore) =>
          var parser := new CP.Parser(ContentOptions(contentBefore));
          r := SP.ToYield(SP.EnterParagraph);
          state := Content(parser);
        case Content(contentParser) =>
          var next := contentParser.Next(ctx);
          match next {
            case ToYield(ev) =>
              r := SP.ToYield(ev);
              state := Content(contentParser);
            case ToPauseForNewLine =>
              r := SP.ToPauseForNewLine;
              state := Paused(contentParser);
            case Done =>
              r := SP.ToYield(SP.Exit);
              state := Exiting;
          }
        case Exiting =>
          r := SP.Done;
          state := Exited;
        case ToExit =>
          r := SP.ToYield(SP.Exit);
          state := Exiting;
      }
    }

    /** `resume_from_pause_for_new_line_and_continue`; only legal when
        paused. */
    method ResumeFromPauseForNewLineAndContinue()
      requires state.Paused?
      modifies Repr()
      ensures Repr() == old(Repr())
      ensures Abs() == ResumeAndContinueSpec(old(Abs()))
    {
      var contentParser := state.parser;
      state := Invalid;
      contentParser.ResumeFromPauseForNewLineAndContinue();
      state := Content(contentParser);
    }

    /** `resume_from_pause_for_new_line_and_exit`; only legal when paused. */
    method ResumeFromPauseForNewLineAndExit()
      requires state.Paused?
      modifies this
      ensures Abs() == ToExit
    {
      state := ToExit;
    }
  }

  // ---------------------------------------------------------------------
  // A whole run, driven as the root block parser drives a sub-parser.

  /** What the root parser does with a paused paragraph: it resumes it to
      continue while input remains, and to exit at the end of input. */
  function Resume(s: State<CP.Fields>, tokens: seq<Token>, pos: nat): (s': State<CP.Fields>)
    requires s.Paused?
    ensures s'.Content? || s'.ToExit?
  {
    if pos < |tokens| then ResumeAndContinueSpec(s) else ToExit
  }

  function Rank(s: State<CP.Fields>): nat {
    match s
    case Initial(_) => 5
    case Content(f) =>
      (match f.nextInitialStepState
       case Initial => 2
       case Normal(_) => 3
       case IsAfterLineFeed => 4)
    case ToExit => 2
    case _ => 1
  }

  /** The events of a run from state `s`, up to the `Done` that ends it. */
  function Drive(s: State<CP.Fields>, input: seq<Byte>, tokens: seq<Token>, pos: nat): seq<SP.Event>
    requires CanRunNext(s, input, tokens, pos)
    decreases |tokens| - pos, Rank(s)
  {
    var (r, pos', s') := NextSpec(s, input, tokens, pos);
    match r
    case Done => []
    case ToYield(ev) => [ev] + Drive(s', input, tokens, pos')
    case ToPauseForNewLine =>
      if pos' < |tokens| then
        LineStartsWithCharAt(input, tokens, pos');
        Drive(Resume(s', tokens, pos'), input, tokens, pos')
      else
        Drive(Resume(s', tokens, pos'), input, tokens, pos')
  }

  /** A run is `EnterParagraph`, then the content parser's events, then one
      `Exit`; nothing else is yielded. */
  lemma ParagraphEventOrder(contentBefore: Option<Range>, input: seq<Byte>, tokens: seq<Token>, pos: nat)
    requires WellFormed(input, tokens) && pos <= |tokens|
    ensures var d := Drive(Initial(contentBefore), input, tokens, pos);
            && |d| >= 2
            && d[0] == SP.EnterParagraph
            && d[|d| - 1] == SP.Exit
            && forall i :: 0 < i < |d| - 1 ==> CP.IsContentEvent(d[i])
  {
    var s := Content(CP.NewFields(ContentOptions(contentBefore)));
    assert Drive(Initial(contentBefore), input, tokens, pos) == [SP.EnterParagraph] + Drive(s, input, tokens, pos);
    ContentRunEndsWithExit(s, input, tokens, pos);
  }

  /** From `Content` or `ToExit`, a run yields content events and then
      exactly one `Exit`. */
  lemma {:induction false} ContentRunEndsWithExit(s: State<CP.Fields>, input: seq<Byte>, tokens: seq<Token>, pos: nat)
    requires CanRunNext(s, input, tokens, pos) && (s.Content? || s.ToExit?)
    ensures CP.ContentThenExit(Drive(s, input, tokens, pos))
    decreases |tokens| - pos, Rank(s)
  {
    var (r, pos', s') := NextSpec(s, input, tokens, pos);
    match r
    case ToYield(ev) =>
      if s'.Exiting? {
        assert Drive(s', input, tokens, pos') == [];
        assert Drive(s, input, tokens, pos) == [SP.Exit];
      } else {
        assert Drive(s, input, tokens, pos) == [ev] + Drive(s', input, tokens, pos');
        ContentRunEndsWithExit(s', input, tokens, pos');
        CP.PrependContentEvent(ev, Drive(s', input, tokens, pos'));
      }
    case ToPauseForNewLine =>
      if pos' < |tokens| {
        LineStartsWithCharAt(input, tokens, pos');
      }
      assert Drive(s, input, tokens, pos) == Drive(Resume(s', tokens, pos'), input, tokens, pos');
      ContentRunEndsWithExit(Resume(s', tokens, pos'), input, tokens, pos');
  }

  /** "a": one range. */
  lemma SingleCharParagraphExample()
    ensures Drive(Initial(None), [97], [CharAt(0)], 0)
            == [SP.EnterParagraph, SP.Unparsed(Range(0, 1)), SP.Exit]
  {
  }

  /** "a\nb": a line feed inside a paragraph is kept. */
  lemma LineFeedParagraphExample()
    ensures Drive(Initial(None), [97, 10, 98], [CharAt(0), LineFeed, CharAt(2)], 0)
            == [SP.EnterParagraph, SP.Unparsed(Range(0, 1)), SP.LineFeed, SP.Unparsed(Range(2, 1)), SP.Exit]
  {
    var input: seq<Byte> := [97, 10, 98];
    var tokens := [CharAt(0), LineFeed, CharAt(2)];
    var f0 := CP.NewFields(ContentOptions(None));
    var f1 := f0.(isAtFirstLine := false);
    var f2 := f1.(nextInitialStepState := CP.IsAfterLineFeed);
    assert NextSpec(Content(f0), input, tokens, 0) == (SP.ToYield(SP.Unparsed(Range(0, 1))), 1, Content(f0));
    assert NextSpec(Content(f0), input, tokens, 1) == (SP.ToPauseForNewLine, 2, Paused(f1));
    assert NextSpec(Content(f2), input, tokens, 2) == (SP.ToYield(SP.LineFeed), 2, Content(f1));
    assert NextSpec(Content(f1), input, tokens, 2) == (SP.ToYield(SP.Unparsed(Range(2, 1))), 3, Content(f1));
    assert NextSpec(Content(f1), input, tokens, 3) == (SP.ToYield(SP.Exit), 3, Exiting);
    assert Drive(Content(f1), input, tokens, 3) == [SP.Exit];
    assert Drive(Content(f1), input, tokens, 2) == [SP.Unparsed(Range(2, 1)), SP.Exit];
    assert Drive(Content(f2), input, tokens, 2) == [SP.LineFeed, SP.Unparsed(Range(2, 1)), SP.Exit];
    assert Drive(Content(f0), input, tokens, 1) == [SP.LineFeed, SP.Unparsed(Range(2, 1)), SP.Exit];
  }

  /** "a\n\nb": a blank line ends the paragraph. */
  lemma BlankLineEndsParagraphExample()
    ensures Drive(Initial(None), [97, 10, 10, 98], [CharAt(0), LineFeed, LineFeed, CharAt(3)], 0)
            == [SP.EnterParagraph, SP.Unparsed(Range(0, 1)), SP.Exit]
  {
    var input: seq<Byte> := [97, 10, 10, 98];
    var tokens := [CharAt(0), LineFeed, LineFeed, CharAt(3)];
    var f0 := CP.NewFields(ContentOptions(None));
    var f1 := f0.(isAtFirstLine := false);
    var f2 := f1.(nextInitialStepState := CP.IsAfterLineFeed);
    assert NextSpec(Content(f0), input, tokens, 0) == (SP.ToYield(SP.Unparsed(Range(0, 1))), 1, Content(f0));
    assert NextSpec(Content(f0), input, tokens, 1) == (SP.ToPauseForNewLine, 2, Paused(f1));
    assert NextSpec(Content(f2), input, tokens, 2) == (SP.ToYield(SP.Exit), 3, Exiting);
    assert Drive(Content(f2), input, tokens, 2) == [SP.Exit];
    assert Drive(Content(f0), input, tokens, 1) == [SP.Exit];
  }
}
