/** The code-block sub-parser of
    `rust/rotext/src/block/sub_parsers/code_block.rs`: it yields
    `EnterCodeBlock`, the info string, `Separator`, the code, and `Exit`.
    The opening fence has already been consumed by the root parser, which
    passes its length as `leadingBackticks`. */
module CodeBlock {
  import opened Common
  import opened BlockContext
  import SP = SubParsers
  import CP = ContentParser

  const BACKTICK: Byte := 96

  datatype State<P> =
    | Initial
    | InfoStringContent(parser: P)
    | CodeContent(parser: P)
    | Exiting
    | Exited
    | Paused(parser: P)
    /** Set only by `resume_from_pause_for_new_line_and_exit`. */
    | ToExit
    | Invalid
  {
    predicate CanCallNext() { Initial? || InfoStringContent? || CodeContent? || Exiting? || ToExit? }
  }

  /** The info-string parser: verbatim, ending before a new line. */
  function InfoStringOptions(): (o: CP.Options)
    ensures o.mode.Verbatim? && o.endConditions.beforeNewLine && o.initialStepState.Initial?
  {
    CP.Options(CP.Initial, CP.Verbatim, CP.EndConditions(true, false, None))
  }

  /** The code parser: verbatim, starting at a line beginning, and ending at
      a line that begins with at least `leadingBackticks` backticks. The
      option `is_at_line_beginning` is its initial `IsAfterLineFeed` state,
      and the condition `at_end_of_leading_repetitive_characters_at_new_line`
      is a repetitive-characters condition at line beginnings. */
  function CodeOptions(leadingBackticks: nat): (o: CP.Options)
    ensures o.mode.Verbatim? && o.initialStepState.IsAfterLineFeed?
    ensures !o.endConditions.beforeNewLine && !o.endConditions.beforeBlankLine
    ensures o.endConditions.afterRepetitiveCharacters
            == Some(CP.RepetitiveCharactersCondition(true, false, BACKTICK, leadingBackticks))
  {
    CP.Options(
      CP.IsAfterLineFeed,
      CP.Verbatim,
      CP.EndConditions(false, false, Some(CP.RepetitiveCharactersCondition(true, false, BACKTICK, leadingBackticks))))
  }

  /** The info-string parser is never resumed, so it always starts its
      calls in `Initial` state and can never pause. */
  predicate InfoStringParser(f: CP.Fields) {
    f.endConditions.beforeNewLine && f.nextInitialStepState.Initial?
  }

  predicate CanRunNext(s: State<CP.Fields>, input: seq<Byte>, tokens: seq<Token>, pos: nat) {
    && WellFormed(input, tokens)
    && pos <= |tokens|
    && s.CanCallNext()
    && (s.InfoStringContent? ==> InfoStringParser(s.parser))
    && (s.CodeContent? ==> CP.CanRun(s.parser, input, tokens, pos))
  }

  /** `next`: the result, the new read position and the new state. */
  function NextSpec(leadingBackticks: nat, s: State<CP.Fields>, input: seq<Byte>, tokens: seq<Token>, pos: nat)
    : (r: (SP.Result, nat, State<CP.Fields>))
    requires CanRunNext(s, input, tokens, pos)
    ensures pos <= r.1 <= |tokens|
    ensures s.Initial? ==> r == (SP.ToYield(SP.EnterCodeBlock), pos,
                                 InfoStringContent(CP.NewFields(InfoStringOptions())))
    ensures s.InfoStringContent? && r.0 == SP.ToYield(SP.Separator) ==>
              r.2 == CodeContent(CP.NewFields(CodeOptions(leadingBackticks)))
    ensures s.Exiting? ==> r == (SP.Done, pos, Exited)
    ensures s.ToExit? ==> r == (SP.ToYield(SP.Exit), pos, Exiting)
    ensures r.0.Done? <==> s.Exiting?
    ensures r.0.ToPauseForNewLine? ==> s.CodeContent? && r.2.Paused? && r.1 > pos && EndsLine(tokens, r.1)
    ensures r.2.Paused? ==> r.2.parser.nextInitialStepState.Initial?
    ensures r.2.CanCallNext() ==> CanRunNext(r.2, input, tokens, r.1)
  {
    match s
    case Initial =>
      (SP.ToYield(SP.EnterCodeBlock), pos, InfoStringContent(CP.NewFields(InfoStringOptions())))
    case InfoStringContent(f) =>
      var (next, pos', f') := CP.NextSpec(f, input, tokens, pos);
      (match next
       case ToYield(ev) => (SP.ToYield(ev), pos', InfoStringContent(f'))
       case ToPauseForNewLine => assert false; (SP.Done, pos', Invalid)
       case Done =>
         if pos' < |tokens| then
           LineStartsWithCharAt(input, tokens, pos');
           (SP.ToYield(SP.Separator), pos', CodeContent(CP.NewFields(CodeOptions(leadingBackticks))))
         else
           (SP.ToYield(SP.Separator), pos', CodeContent(CP.NewFields(CodeOptions(leadingBackticks)))))
    case CodeContent(f) =>
      var (next, pos', f') := CP.NextSpec(f, input, tokens, pos);
      (match next
       case ToYield(ev) => (SP.ToYield(ev), pos', CodeContent(f'))
       case ToPauseForNewLine => (SP.ToPauseForNewLine, pos', Paused(f'))
       case Done => (SP.ToYield(SP.Exit), pos', Exiting))
    case Exiting => (SP.Done, pos, Exited)
    case ToExit => (SP.ToYield(SP.Exit), pos, Exiting)
  }

  /** `resume_from_pause_for_new_line_and_continue`. */
  function ResumeAndContinueSpec(s: State<CP.Fields>): (s': State<CP.Fields>)
    requires s.Paused?
    ensures s'.CodeContent? && s'.parser == s.parser.(nextInitialStepState := CP.IsAfterLineFeed)
  {
    CodeContent(s.parser.(nextInitialStepState := CP.IsAfterLineFeed))
  }

  /** The code-block sub-parser. */
  class Parser {
    const leadingBackticks: nat
    var state: State<CP.Parser>

    function Repr(): set<object>
      reads this
    {
      {this} + (if state.InfoStringContent? || state.CodeContent? || state.Paused? then {state.parser} else {})
    }

    function Abs(): State<CP.Fields>
      reads Repr()
    {
      match state
      case Initial => Initial
      case InfoStringContent(p) => InfoStringContent(p.Abs())
      case CodeContent(p) => CodeContent(p.Abs())
      case Exiting => Exiting
      case Exited => Exited
      case Paused(p) => Paused(p.Abs())
      case ToExit => ToExit
      case Invalid => Invalid
    }

    /** `new(leading_backticks)`. */
    constructor (leadingBackticks: nat)
      ensures this.leadingBackticks == leadingBackticks && Abs() == Initial
      ensures fresh(Repr())
    {
      this.leadingBackticks := leadingBackticks;
      state := Initial;
    }

    /** `next`; calling it in `Exited`, `Paused` or `Invalid` is unreachable. */
    method Next(ctx: Context) returns (r: SP.Result)
      requires ctx.Valid() && CanRunNext(Abs(), ctx.input, ctx.tokens, ctx.pos)
      modifies Repr(), ctx
      ensures ctx.Valid()
      ensures fresh(Repr() - old(Repr()))
      ensures (r, ctx.pos, Abs()) == NextSpec(leadingBackticks, old(Abs()), ctx.input, ctx.tokens, old(ctx.pos))
    {
      var st := state;
      state := Invalid;
      match st {
        case Initial =>
          var infoStringParser := new CP.Parser(InfoStringOptions());
          r := SP.ToYield(SP.EnterCodeBlock);
          state := InfoStringContent(infoStringParser);
        case InfoStringContent(infoStringParser) =>
          var next := infoStringParser.Next(ctx);
          match next {
            case ToYield(ev) =>
              r := SP.ToYield(ev);
              state := InfoStringContent(infoStringParser);
            case Done =>
              var codeContentParser := new CP.Parser(CodeOptions(leadingBackticks));
              r := SP.ToYield(SP.Separator);
              state := CodeContent(codeContentParser);
          }
        case CodeContent(codeContentParser) =>
          var next := codeContentParser.Next(ctx);
          match next {
            case ToYield(ev) =>
              r := SP.ToYield(ev);
              state := CodeContent(codeContentParser);
            case ToPauseForNewLine =>
              r := SP.ToPauseForNewLine;
              state := Paused(codeContentParser);
            case Done =>
              r := SP.ToYield(SP.Exit);
              state := Exiting;
          }
        case Exiting =>
          r := SP.Done;
          state := Exited;
        case ToExit =>
          r := SP.ToYield(SP.Exit);
          state := Exiting;
      }
    }

    /** `resume_from_pause_for_new_line_and_continue`; only legal when
        paused. */
    method ResumeFromPauseForNewLineAndContinue()
      requires state.Paused?
      modifies Repr()
      ensures Repr() == old(Repr())
      ensures Abs() == ResumeAndContinueSpec(old(Abs()))
    {
      var contentParser := state.parser;
      state := Invalid;
      contentParser.ResumeFromPauseForNewLineAndContinue();
      state := CodeContent(contentParser);
    }

    /** `resume_from_pause_for_new_line_and_exit`; only legal when paused. */
    method ResumeFromPauseForNewLineAndExit()
      requires state.Paused?
      modifies this
      ensures Abs() == ToExit
    {
      state := ToExit;
    }
  }

  // ---------------------------------------------------------------------
  // Properties.

  /** At the start of a code line, a run of at least `leadingBackticks`
      backticks is the closing fence: it is consumed whole and the block
      yields `Exit`. */
  lemma ClosingFenceEndsBlock(leadingBackticks: nat, f: CP.Fields, input: seq<Byte>, tokens: seq<Token>, pos: nat)
    requires CanRunNext(CodeContent(f), input, tokens, pos)
    requires f.nextInitialStepState.IsAfterLineFeed?
    requires f.endConditions == CodeOptions(leadingBackticks).endConditions
    requires pos < |tokens| && tokens[pos].CharAt? && tokens[pos].index < |input|
    requires input[tokens[pos].index] == BACKTICK
    requires 1 + DropCount(input, tokens, pos + 1, BACKTICK, None) >= leadingBackticks
    ensures NextSpec(leadingBackticks, CodeContent(f), input, tokens, pos)
            == (SP.ToYield(SP.Exit), pos + 1 + DropCount(input, tokens, pos + 1, BACKTICK, None), Exiting)
  {
    var f1 := f.(nextInitialStepState := CP.Initial);
    CP.AfterLineFeedRepetitiveCharacters(f1, input, tokens, pos);
    var o := CP.Step(f1, input, tokens, pos, CP.IsAfterLineFeed);
    assert CP.Loop(f1, input, tokens, pos, CP.IsAfterLineFeed) == (o.result, o.pos);
  }

  /** What the root parser does with a paused code block. */
  function Resume(s: State<CP.Fields>, tokens: seq<Token>, pos: nat): (s': State<CP.Fields>)
    requires s.Paused?
    ensures s'.CodeContent? || s'.ToExit?
  {
    if pos < |tokens| then ResumeAndContinueSpec(s) else ToExit
  }

  function Rank(s: State<CP.Fields>): nat {
    match s
    case Initial => 6
    case InfoStringContent(_) => 5
    case CodeContent(f) =>
      (match f.nextInitialStepState
       case Initial => 2
       case Normal(_) => 3
       case IsAfterLineFeed => 4)
    case ToExit => 2
    case _ => 1
  }

  /** The events of a run from state `s`, up to the `Done` that ends it. */
  function Drive(leadingBackticks: nat, s: State<CP.Fields>, input: seq<Byte>, tokens: seq<Token>, pos: nat)
    : seq<SP.Event>
    requires CanRunNext(s, input, tokens, pos)
    decreases |tokens| - pos, Rank(s)
  {
    var (r, pos', s') := NextSpec(leadingBackticks, s, input, tokens, pos);
    match r
    case Done => []
    case ToYield(ev) => [ev] + Drive(leadingBackticks, s', input, tokens, pos')
    case ToPauseForNewLine =>
      if pos' < |tokens| then
        LineStartsWithCharAt(input, tokens, pos');
        Drive(leadingBackticks, Resume(s', tokens, pos'), input, tokens, pos')
      else
        Drive(leadingBackticks, Resume(s', tokens, pos'), input, tokens, pos')
  }

  /** A run is `EnterCodeBlock`, the info string's events, one `Separator`,
      the code's events, and one `Exit`. */
  lemma CodeBlockEventOrder(leadingBackticks: nat, input: seq<Byte>, tokens: seq<Token>, pos: nat) returns (k: nat)
    requires WellFormed(input, tokens) && pos <= |tokens|
    ensures var d := Drive(leadingBackticks, Initial, input, tokens, pos);
            && 0 < k < |d| - 1
            && d[0] == SP.EnterCodeBlock
            && d[k] == SP.Separator
            && d[|d| - 1] == SP.Exit
            && (forall i :: 0 < i < k ==> CP.IsContentEvent(d[i]))
            && (forall i :: k < i < |d| - 1 ==> CP.IsContentEvent(d[i]))
  {
    var s := InfoStringContent(CP.NewFields(InfoStringOptions()));
    assert Drive(leadingBackticks, Initial, input, tokens, pos)
           == [SP.EnterCodeBlock] + Drive(leadingBackticks, s, input, tokens, pos);
    var j := InfoStringRun(leadingBackticks, s, input, tokens, pos);
    k := j + 1;
  }

  /** From the info string, a run yields content events up to index `k`,
      where the `Separator` stands, and then the code's run. */
  lemma {:induction false} InfoStringRun(leadingBackticks: nat, s: State<CP.Fields>, input: seq<Byte>, tokens: seq<Token>, pos: nat)
    returns (k: nat)
    requires CanRunNext(s, input, tokens, pos) && s.InfoStringContent?
    ensures var d := Drive(leadingBackticks, s, input, tokens, pos);
            && k < |d| - 1
            && d[k] == SP.Separator
            && d[|d| - 1] == SP.Exit
            && (forall i :: 0 <= i < k ==> CP.IsContentEvent(d[i]))
            && (forall i :: k < i < |d| - 1 ==> CP.IsContentEvent(d[i]))
    decreases |tokens| - pos
  {
    var (r, pos', s') := NextSpec(leadingBackticks, s, input, tokens, pos);
    assert r.ToYield?;
    if s'.InfoStringContent? {
      var j := InfoStringRun(leadingBackticks, s', input, tokens, pos');
      k := j + 1;
    } else {
      k := 0;
      CodeRunEndsWithExit(leadingBackticks, s', input, tokens, pos');
    }
  }

  /** From the code, a run yields content events and then exactly one
      `Exit`. */
  lemma {:induction false} CodeRunEndsWithExit(leadingBackticks: nat, s: State<CP.Fields>, input: seq<Byte>, tokens: seq<Token>, pos: nat)
    requires CanRunNext(s, input, tokens, pos) && (s.CodeContent? || s.ToExit?)
    ensures CP.ContentThenExit(Drive(leadingBackticks, s, input, tokens, pos))
    decreases |tokens| - pos, Rank(s)
  {
    var (r, pos', s') := NextSpec(leadingBackticks, s, input, tokens, pos);
    match r
    case ToYield(ev) =>
      if s'.Exiting? {
        assert Drive(leadingBackticks, s', input, tokens, pos') == [];
        assert Drive(leadingBackticks, s, input, tokens, pos) == [SP.Exit];
      } else {
        assert Drive(leadingBackticks, s, input, tokens, pos) == [ev] + Drive(leadingBackticks, s', input, tokens, pos');
        CodeRunEndsWithExit(leadingBackticks, s', input, tokens, pos');
        CP.PrependContentEvent(ev, Drive(leadingBackticks, s', input, tokens, pos'));
      }
    case ToPauseForNewLine =>
      if pos' < |tokens| {
        LineStartsWithCharAt(input, tokens, pos');
      }
      assert Drive(leadingBackticks, s, input, tokens, pos)
             == Drive(leadingBackticks, Resume(s', tokens, pos'), input, tokens, pos');
      CodeRunEndsWithExit(leadingBackticks, Resume(s', tokens, pos'), input, tokens, pos');
  }
}
