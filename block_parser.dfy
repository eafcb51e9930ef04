/** The root block parser of `rust/rotext/src/block/mod.rs`: it skips blank
    lines and leading spaces, recognises the start of a block from the first
    characters of a line, and hands the block to a sub-parser, resuming or
    closing a paused sub-parser at each new line.

    The heading sub-parser is not part of this model: when the root parser
    enters a heading, `Next` reports `HeadingNotModelled` instead of the
    heading's events. */
module BlockParser {
  import opened Common
  import opened BlockContext
  import SP = SubParsers
  import CP = ContentParser
  import PG = Paragraph
  import CB = CodeBlock

  const HYPHEN: Byte := 45
  const EQUALS: Byte := 61
  const BACKTICK: Byte := 96

  /** A sub-parser the root parser owns, as a value. */
  datatype SubValue =
    | ParagraphValue(paragraph: PG.State<CP.Fields>)
    | CodeBlockValue(leadingBackticks: nat, codeBlock: CB.State<CP.Fields>)
    | HeadingValue(level: nat)

  datatype State<S> =
    | InRoot(pausedSubParser: Option<S>)
    | InSubParser(subParser: S)
    | Invalid

  datatype RootParseResult<S> =
    | ToYield(ev: SP.Event)
    | ToEnter(subParser: S)
    | ToEnterParagraph
    | ToEnterParagraphWithContentBefore(contentBefore: Range)
    | Done

  /** The root parser's fields, as a value. The stack of `mod.rs` holds
      `StackEntry` values, and that enum has no variants: the stack is always
      empty, so it is not kept here. */
  datatype RootState = RootState(isCleaningUp: bool, state: State<SubValue>)

  /** What `Parser::next` returns. */
  datatype Outcome =
    | Event(ev: SP.Event)
    | End
    /** The parser is in a heading, whose sub-parser is not modelled. */
    | HeadingNotModelled(level: nat)

  function InitialRootState(): RootState {
    RootState(false, InRoot(None))
  }

  // ---------------------------------------------------------------------
  // `parse_root`.

  datatype LineStart = AtEnd | AtText | AtChar

  /** The loop of `parse_root` without a paused sub-parser: line feeds and
      blank runs are skipped, and so are space and tab characters; it stops
      at the end of input, at a verbatim `Text`, or at another character. */
  function SkipBlanks(input: seq<Byte>, tokens: seq<Token>, pos: nat): (r: (LineStart, nat))
    requires WellFormed(input, tokens) && pos <= |tokens|
    ensures pos <= r.1 <= |tokens|
    ensures r.0.AtEnd? <==> r.1 == |tokens|
    ensures r.0.AtText? ==> tokens[r.1].Text?
    ensures r.0.AtChar? ==> tokens[r.1].IsChar() && !IsSpaceAhead(input, tokens, r.1)
    ensures forall j :: pos <= j < r.1 ==>
              tokens[j].LineFeed? || tokens[j].BlankAtLineBeginning? || IsSpaceAhead(input, tokens, j)
    decreases |tokens| - pos
  {
    if pos == |tokens| then (AtEnd, pos)
    else
      match tokens[pos]
      case LineFeed => SkipBlanks(input, tokens, pos + 1)
      case BlankAtLineBeginning(_) => SkipBlanks(input, tokens, pos + 1)
      case Text(_) => (AtText, pos)
      case _ =>
        if IsSpaceAhead(input, tokens, pos) then SkipBlanks(input, tokens, pos + 1) else (AtChar, pos)
  }

  /** A skipped token leaves the rest of the skipping to the next one. */
  lemma SkipBlanksStep(input: seq<Byte>, tokens: seq<Token>, pos: nat)
    requires WellFormed(input, tokens) && pos < |tokens|
    requires tokens[pos].LineFeed? || tokens[pos].BlankAtLineBeginning? || (!tokens[pos].Text? && IsSpaceAhead(input, tokens, pos))
    ensures SkipBlanks(input, tokens, pos) == SkipBlanks(input, tokens, pos + 1)
  {
  }

  /** The dispatch on the first three characters of a block, at a character
      token: `---` is a thematic break (and every further `-` is dropped),
      `=` starts a heading or a paragraph, three or more backticks start a
      code block, and anything else a paragraph. */
  function Dispatch(input: seq<Byte>, tokens: seq<Token>, pos: nat): (r: (RootParseResult<SubValue>, nat))
    requires WellFormed(input, tokens) && pos < |tokens| && tokens[pos].IsChar()
    ensures pos <= r.1 <= |tokens|
    ensures r.0.ToEnter? ==> r.0.subParser.CodeBlockValue? || r.0.subParser.HeadingValue?
    ensures r.0.ToEnter? && r.0.subParser.CodeBlockValue? ==> r.0.subParser.codeBlock.Initial?
    ensures r.0.ToYield? ==> r.0.ev == SP.ThematicBreak
    ensures !r.0.Done?
  {
    var cs := NextThreeCharsAhead(input, tokens, pos);
    if cs == [Some(HYPHEN), Some(HYPHEN), Some(HYPHEN)] then
      var dropped := DropCount(input, tokens, pos + 3, HYPHEN, None);
      (ToYield(SP.ThematicBreak), pos + 3 + dropped)
    else if cs[0] == Some(EQUALS) then
      DispatchEquals(input, tokens, pos)
    else if cs == [Some(BACKTICK), Some(BACKTICK), Some(BACKTICK)] then
      var extraCount := DropCount(input, tokens, pos + 3, BACKTICK, None);
      (ToEnter(CodeBlockValue(3 + extraCount, CB.Initial)), pos + 3 + extraCount)
    else
      (ToEnterParagraph, pos)
  }

  /** The `=` branch of the dispatch: up to five more `=` are taken; a
      space after them makes a heading of level one plus their number,
      otherwise the run starts a paragraph as content before it. */
  function DispatchEquals(input: seq<Byte>, tokens: seq<Token>, pos: nat): (r: (RootParseResult<SubValue>, nat))
    requires WellFormed(input, tokens) && pos < |tokens| && tokens[pos].IsChar()
    ensures pos < r.1 <= |tokens|
    ensures r.0.ToEnter? || r.0.ToEnterParagraphWithContentBefore?
    ensures r.0.ToEnter? ==> r.0.subParser.HeadingValue? && 1 <= r.0.subParser.level <= 6
  {
    CursorOnConsumedChar(input, tokens, pos);
    var dropped := DropCount(input, tokens, pos + 1, EQUALS, Some(5));
    var potentialOpeningPart := Range(CursorAfter(tokens, pos + 1).value, 1 + dropped);
    if NextCharAhead(input, tokens, pos + 1 + dropped) == Some(SPACE) then
      (ToEnter(HeadingValue(1 + dropped)), pos + 2 + dropped)
    else
      (ToEnterParagraphWithContentBefore(potentialOpeningPart), pos + 1 + dropped)
  }

  /** A sub-parser paused at a line feed. */
  predicate IsPaused(sub: SubValue) {
    (sub.ParagraphValue? && sub.paragraph.Paused?) || (sub.CodeBlockValue? && sub.codeBlock.Paused?)
  }

  function ResumeAndContinue(sub: SubValue): (r: SubValue)
    requires IsPaused(sub)
  {
    match sub
    case ParagraphValue(s) => ParagraphValue(PG.ResumeAndContinueSpec(s))
    case CodeBlockValue(n, s) => CodeBlockValue(n, CB.ResumeAndContinueSpec(s))
  }

  function ResumeAndExit(sub: SubValue): (r: SubValue)
    requires IsPaused(sub)
  {
    match sub
    case ParagraphValue(_) => ParagraphValue(PG.ToExit)
    case CodeBlockValue(n, _) => CodeBlockValue(n, CB.ToExit)
  }

  /** `parse_root`: a paused sub-parser is resumed before any token is
      read, to continue when input remains and to exit at its end. */
  function ParseRootSpec(paused: Option<SubValue>, input: seq<Byte>, tokens: seq<Token>, pos: nat)
    : (r: (RootParseResult<SubValue>, nat))
    requires WellFormed(input, tokens) && pos <= |tokens|
    requires paused.Some? ==> IsPaused(paused.value)
    ensures pos <= r.1 <= |tokens|
    ensures paused.Some? ==> r.1 == pos && r.0.ToEnter?
    ensures paused.Some? && pos < |tokens| ==> r.0 == ToEnter(ResumeAndContinue(paused.value))
    ensures paused.Some? && pos == |tokens| ==> r.0 == ToEnter(ResumeAndExit(paused.value))
    ensures paused.None? && r.0.ToEnter? ==>
              (r.0.subParser.CodeBlockValue? && r.0.subParser.codeBlock.Initial?) || r.0.subParser.HeadingValue?
    ensures r.0.Done? <==> paused.None? && SkipBlanks(input, tokens, pos).0.AtEnd?
  {
    if pos == |tokens| then
      match paused
      case Some(p) => (ToEnter(ResumeAndExit(p)), pos)
      case None => (Done, pos)
    else if paused.Some? then
      (ToEnter(ResumeAndContinue(paused.value)), pos)
    else
      var (stop, pos') := SkipBlanks(input, tokens, pos);
      match stop
      case AtEnd => (Done, pos')
      case AtText => (ToEnterParagraph, pos')
      case AtChar => Dispatch(input, tokens, pos')
  }

  // ---------------------------------------------------------------------
  // `Parser::next`.

  /** The invariant of the root parser between calls: the sub-parser it is
      in may be called, and a paused sub-parser was paused by the line feed
      just consumed. */
  predicate ValidState(v: RootState, input: seq<Byte>, tokens: seq<Token>, pos: nat) {
    && WellFormed(input, tokens)
    && pos <= |tokens|
    && (v.isCleaningUp <==> v.state.Invalid?)
    && match v.state
       case InRoot(None) => true
       case InRoot(Some(sub)) => IsPaused(sub) && EndsLine(tokens, pos)
       case InSubParser(ParagraphValue(s)) => PG.CanRunNext(s, input, tokens, pos)
       case InSubParser(CodeBlockValue(_, s)) => CB.CanRunNext(s, input, tokens, pos)
       case InSubParser(HeadingValue(_)) => true
       case Invalid => true
  }

  function Rank(v: RootState): nat {
    if v.isCleaningUp then 0
    else
      match v.state
      case InRoot(_) => 2
      case InSubParser(ParagraphValue(s)) => if s.Exiting? then 3 else 1
      case InSubParser(CodeBlockValue(_, s)) => if s.Exiting? then 3 else 1
      case _ => 1
  }

  datatype StepOutcome =
    | Continue(next: RootState, pos: nat)
    | Return(outcome: Outcome, next: RootState, pos: nat)

  /** `process_in_root_state`. */
  function InRootStep(paused: Option<SubValue>, input: seq<Byte>, tokens: seq<Token>, pos: nat)
    : (o: StepOutcome)
    requires WellFormed(input, tokens) && pos <= |tokens|
    requires paused.Some? ==> IsPaused(paused.value) && EndsLine(tokens, pos)
    ensures pos <= o.pos <= |tokens|
    ensures ValidState(o.next, input, tokens, o.pos)
    ensures o.Continue? ==> Rank(o.next) < 2
  {
    var (r, pos') := ParseRootSpec(paused, input, tokens, pos);
    match r
    case ToYield(ev) => Return(Event(ev), RootState(false, InRoot(None)), pos')
    case ToEnter(sub) =>
      if paused.Some? && pos < |tokens| then
        LineStartsWithCharAt(input, tokens, pos);
        Continue(RootState(false, InSubParser(sub)), pos')
      else
        Continue(RootState(false, InSubParser(sub)), pos')
    case ToEnterParagraph =>
      Continue(RootState(false, InSubParser(ParagraphValue(PG.Initial(None)))), pos')
    case ToEnterParagraphWithContentBefore(contentBefore) =>
      Continue(RootState(false, InSubParser(ParagraphValue(PG.Initial(Some(contentBefore))))), pos')
    case Done => Continue(RootState(true, Invalid), pos')
  }

  /** `process_in_sub_parser_state`: a yield keeps the sub-parser, a pause
      returns to the root holding it, and `Done` returns to the root without
      it. */
  function InSubParserStep(sub: SubValue, input: seq<Byte>, tokens: seq<Token>, pos: nat)
    : (o: StepOutcome)
    requires ValidState(RootState(false, InSubParser(sub)), input, tokens, pos)
    ensures pos <= o.pos <= |tokens|
    ensures ValidState(o.next, input, tokens, o.pos)
    ensures o.Continue? ==>
              o.pos > pos || Rank(o.next) < Rank(RootState(false, InSubParser(sub)))
  {
    match sub
    case HeadingValue(level) => Return(HeadingNotModelled(level), RootState(false, InSubParser(sub)), pos)
    case ParagraphValue(s) =>
      var (r, pos', s') := PG.NextSpec(s, input, tokens, pos);
      (match r
       case ToYield(ev) => Return(Event(ev), RootState(false, InSubParser(ParagraphValue(s'))), pos')
       case ToPauseForNewLine => Continue(RootState(false, InRoot(Some(ParagraphValue(s')))), pos')
       case Done => Continue(RootState(false, InRoot(None)), pos'))
    case CodeBlockValue(n, s) =>
      var (r, pos', s') := CB.NextSpec(n, s, input, tokens, pos);
      (match r
       case ToYield(ev) => Return(Event(ev), RootState(false, InSubParser(CodeBlockValue(n, s'))), pos')
       case ToPauseForNewLine => Continue(RootState(false, InRoot(Some(CodeBlockValue(n, s')))), pos')
       case Done => Continue(RootState(false, InRoot(None)), pos'))
  }

  /** One iteration of the loop in `next`. */
  function Step(v: RootState, input: seq<Byte>, tokens: seq<Token>, pos: nat): (o: StepOutcome)
    requires ValidState(v, input, tokens, pos)
    ensures pos <= o.pos <= |tokens|
    ensures ValidState(o.next, input, tokens, o.pos)
    ensures o.Continue? ==> o.pos > pos || Rank(o.next) < Rank(v)
  {
    if v.isCleaningUp then Return(End, v, pos)
    else
      match v.state
      case InRoot(paused) => InRootStep(paused, input, tokens, pos)
      case InSubParser(sub) => InSubParserStep(sub, input, tokens, pos)
  }

  /** `Parser::next`: the outcome, the new fields and the new read
      position. */
  function NextSpec(v: RootState, input: seq<Byte>, tokens: seq<Token>, pos: nat): (r: (Outcome, RootState, nat))
    requires ValidState(v, input, tokens, pos)
    ensures pos <= r.2 <= |tokens|
    ensures ValidState(r.1, input, tokens, r.2)
    decreases |tokens| - pos, Rank(v)
  {
    match Step(v, input, tokens, pos)
    case Continue(v', pos') => NextSpec(v', input, tokens, pos')
    case Return(o, v', pos') => (o, v', pos')
  }

  /** `NextSpec` goes on after a `Continue` and stops at a `Return`. */
  lemma NextSpecUnfolds(v: RootState, input: seq<Byte>, tokens: seq<Token>, pos: nat)
    requires ValidState(v, input, tokens, pos)
    ensures var o := Step(v, input, tokens, pos);
            && (o.Continue? ==> NextSpec(v, input, tokens, pos) == NextSpec(o.next, input, tokens, o.pos))
            && (o.Return? ==> NextSpec(v, input, tokens, pos) == (o.outcome, o.next, o.pos))
    ensures v.isCleaningUp ==> Step(v, input, tokens, pos) == Return(End, v, pos)
  {
  }

  /** The result of one iteration as the methods return it: an outcome to
      return, or none to go on looping. */
  function AsStep(toBreak: Option<Outcome>, v: RootState, pos: nat): StepOutcome {
    if toBreak.Some? then Return(toBreak.value, v, pos) else Continue(v, pos)
  }

  // ---------------------------------------------------------------------
  // The parser object.

  /** A sub-parser the root parser owns. */
  datatype SubParser =
    | Paragraph(paragraph: PG.Parser)
    | CodeBlock(codeBlock: CB.Parser)
    | Heading(level: nat)

  function SubObjects(s: SubParser): set<object> {
    match s
    case Paragraph(p) => {p}
    case CodeBlock(c) => {c}
    case Heading(_) => {}
  }

  function SubRepr(s: SubParser): (r: set<object>)
    reads SubObjects(s)
    ensures SubObjects(s) <= r
  {
    match s
    case Paragraph(p) => p.Repr()
    case CodeBlock(c) => c.Repr()
    case Heading(_) => {}
  }

  function SubAbs(s: SubParser): SubValue
    reads SubObjects(s), SubRepr(s)
  {
    match s
    case Paragraph(p) => ParagraphValue(p.Abs())
    case CodeBlock(c) => CodeBlockValue(c.leadingBackticks, c.Abs())
    case Heading(level) => HeadingValue(level)
  }

  function OptObjects(o: Option<SubParser>): set<object> {
    if o.Some? then SubObjects(o.value) else {}
  }

  function OptRepr(o: Option<SubParser>): (r: set<object>)
    reads OptObjects(o)
    ensures OptObjects(o) <= r
  {
    if o.Some? then SubRepr(o.value) else {}
  }

  function OptAbs(o: Option<SubParser>): Option<SubValue>
    reads OptObjects(o), OptRepr(o)
  {
    if o.Some? then Some(SubAbs(o.value)) else None
  }

  function Owned(st: State<SubParser>): Option<SubParser> {
    match st
    case InRoot(paused) => paused
    case InSubParser(sub) => Some(sub)
    case Invalid => None
  }

  function StateAbs(st: State<SubParser>): State<SubValue>
    reads OptObjects(Owned(st)), OptRepr(Owned(st))
  {
    match st
    case InRoot(paused) => InRoot(OptAbs(paused))
    case InSubParser(sub) => InSubParser(SubAbs(sub))
    case Invalid => Invalid
  }

  function ResultAbs(r: RootParseResult<SubParser>): RootParseResult<SubValue>
    reads if r.ToEnter? then SubObjects(r.subParser) else {}
    reads if r.ToEnter? then SubRepr(r.subParser) else {}
  {
    match r
    case ToYield(ev) => ToYield(ev)
    case ToEnter(sub) => ToEnter(SubAbs(sub))
    case ToEnterParagraph => ToEnterParagraph
    case ToEnterParagraphWithContentBefore(contentBefore) => ToEnterParagraphWithContentBefore(contentBefore)
    case Done => Done
  }

  /** `Parser` of `mod.rs`: the context, the clean-up flag and the state. */
  class Parser {
    const ctx: Context
    var isCleaningUp: bool
    var state: State<SubParser>
    /** Every object the parser owns or has owned. */
    ghost var Repr: set<object>

    function Abs(): RootState
      reads this, OptObjects(Owned(state)), OptRepr(Owned(state))
    {
      RootState(isCleaningUp, StateAbs(state))
    }

    ghost predicate Valid()
      reads this, Repr
    {
      && this in Repr && ctx in Repr
      && OptObjects(Owned(state)) <= Repr
      && OptRepr(Owned(state)) <= Repr
      && ctx.Valid()
      && ValidState(Abs(), ctx.input, ctx.tokens, ctx.pos)
    }

    /** `new`: the context reads the mapped token stream of `input`. */
    constructor (input: seq<Byte>, tokens: seq<Token>)
      requires WellFormed(input, tokens)
      ensures Valid() && fresh(Repr)
      ensures ctx.input == input && ctx.tokens == tokens && ctx.pos == 0
      ensures Abs() == InitialRootState()
    {
      ctx := new Context(input, tokens);
      isCleaningUp := false;
      state := InRoot(None);
      Repr := {this, ctx};
    }

    /** `next`: loops until an iteration has an outcome to return. Once
        cleaning up, the (always empty) stack yields nothing more. */
    method Next() returns (o: Outcome)
      requires Valid()
      modifies Repr
      ensures Valid()
      ensures fresh(Repr - old(Repr))
      ensures (o, Abs(), ctx.pos) == NextSpec(old(Abs()), ctx.input, ctx.tokens, old(ctx.pos))
    {
      while true
        invariant Valid()
        invariant fresh(Repr - old(Repr))
        invariant NextSpec(Abs(), ctx.input, ctx.tokens, ctx.pos)
                  == NextSpec(old(Abs()), ctx.input, ctx.tokens, old(ctx.pos))
        decreases |ctx.tokens| - ctx.pos, Rank(Abs())
      {
        if isCleaningUp {
          NextSpecUnfolds(Abs(), ctx.input, ctx.tokens, ctx.pos);
          return End;
        }
        var toBreak := Iterate();
        if toBreak.Some? {
          return toBreak.value;
        }
      }
    }

    /** One turn of the loop in `next`, outside clean-up. */
    method Iterate() returns (toBreak: Option<Outcome>)
      requires Valid() && !isCleaningUp
      modifies Repr
      ensures Valid()
      ensures fresh(Repr - old(Repr))
      ensures toBreak.Some? ==> (toBreak.value, Abs(), ctx.pos) == NextSpec(old(Abs()), ctx.input, ctx.tokens, old(ctx.pos))
      ensures toBreak.None? ==> NextSpec(Abs(), ctx.input, ctx.tokens, ctx.pos) == NextSpec(old(Abs()), ctx.input, ctx.tokens, old(ctx.pos))
      ensures old(ctx.pos) <= ctx.pos
      ensures toBreak.None? ==> ctx.pos > old(ctx.pos) || Rank(Abs()) < Rank(old(Abs()))
    {
      ghost var v, pos := Abs(), ctx.pos;
      NextSpecUnfolds(v, ctx.input, ctx.tokens, pos);
      if state.InRoot? {
        assert Step(v, ctx.input, ctx.tokens, pos) == InRootStep(v.state.pausedSubParser, ctx.input, ctx.tokens, pos);
        toBreak := IterateInRoot();
      } else {
        assert Step(v, ctx.input, ctx.tokens, pos) == InSubParserStep(v.state.subParser, ctx.input, ctx.tokens, pos);
        toBreak := IterateInSubParser();
      }
    }

    method IterateInRoot() returns (toBreak: Option<Outcome>)
      requires Valid() && !isCleaningUp && state.InRoot?
      modifies Repr
      ensures Valid()
      ensures fresh(Repr - old(Repr))
      ensures AsStep(toBreak, Abs(), ctx.pos)
              == InRootStep(old(Abs().state.pausedSubParser), ctx.input, ctx.tokens, old(ctx.pos))
    {
      ghost var input, tokens, pos := ctx.input, ctx.tokens, ctx.pos;
      var paused := state.pausedSubParser;
      ghost var ownedRepr := OptRepr(paused);
      ghost var pa := OptAbs(paused);
      state := Invalid;
      assert OptAbs(paused) == pa;
      var newState;
      toBreak, newState := ProcessInRootState(paused, pa);
      Install(newState);
    }

    method IterateInSubParser() returns (toBreak: Option<Outcome>)
      requires Valid() && !isCleaningUp && state.InSubParser?
      modifies Repr
      ensures Valid()
      ensures fresh(Repr - old(Repr))
      ensures AsStep(toBreak, Abs(), ctx.pos)
              == InSubParserStep(old(Abs().state.subParser), ctx.input, ctx.tokens, old(ctx.pos))
    {
      ghost var input, tokens, pos := ctx.input, ctx.tokens, ctx.pos;
      var sub := state.subParser;
      ghost var ownedRepr := SubRepr(sub);
      ghost var sa := SubAbs(sub);
      state := Invalid;
      assert SubAbs(sub) == sa;
      var newState;
      toBreak, newState := ProcessInSubParserState(sub, sa);
      Install(newState);
    }

    /** Stores the state an iteration computed and takes ownership of the
        sub-parser it holds. */
    method Install(newState: State<SubParser>)
      requires this in Repr && ctx in Repr && ctx.Valid()
      requires this !in OptRepr(Owned(newState))
      requires ValidState(RootState(isCleaningUp, StateAbs(newState)), ctx.input, ctx.tokens, ctx.pos)
      modifies this`state, this`Repr
      ensures Valid()
      ensures Repr == old(Repr) + OptRepr(Owned(newState))
      ensures state == newState
      ensures Abs() == old(RootState(isCleaningUp, StateAbs(newState)))
    {
      state := newState;
      Repr := Repr + OptRepr(Owned(newState));
    }

    /** `process_in_root_state`. */
    method ProcessInRootState(paused: Option<SubParser>, ghost pa: Option<SubValue>) returns (toBreak: Option<Outcome>, newState: State<SubParser>)
      requires ctx.Valid() && !isCleaningUp
      requires pa == OptAbs(paused)
      requires paused.Some? ==> IsPaused(pa.value) && EndsLine(ctx.tokens, ctx.pos)
      modifies this`isCleaningUp, ctx, OptRepr(paused)
      ensures ctx.Valid()
      ensures fresh(OptRepr(Owned(newState)) - old(OptRepr(paused)))
      ensures AsStep(toBreak, RootState(isCleaningUp, StateAbs(newState)), ctx.pos)
              == InRootStep(pa, ctx.input, ctx.tokens, old(ctx.pos))
    {
      var r := ParseRoot(paused);
      match r {
        case ToYield(ev) =>
          toBreak, newState := Some(Event(ev)), InRoot(None);
        case ToEnter(sub) =>
          toBreak, newState := None, InSubParser(sub);
        case ToEnterParagraph =>
          var p := new PG.Parser(None);
          toBreak, newState := None, InSubParser(Paragraph(p));
        case ToEnterParagraphWithContentBefore(contentBefore) =>
          var p := new PG.Parser(Some(contentBefore));
          toBreak, newState := None, InSubParser(Paragraph(p));
        case Done =>
          isCleaningUp := true;
          toBreak, newState := None, Invalid;
      }
    }

    /** `process_in_sub_parser_state`. */
    method ProcessInSubParserState(sub: SubParser, ghost sa: SubValue) returns (toBreak: Option<Outcome>, newState: State<SubParser>)
      requires ctx.Valid() && !isCleaningUp
      requires sa == SubAbs(sub)
      requires ValidState(RootState(false, InSubParser(sa)), ctx.input, ctx.tokens, ctx.pos)
      modifies ctx, SubRepr(sub)
      ensures ctx.Valid()
      ensures fresh(OptRepr(Owned(newState)) - old(SubRepr(sub)))
      ensures AsStep(toBreak, RootState(isCleaningUp, StateAbs(newState)), ctx.pos)
              == InSubParserStep(sa, ctx.input, ctx.tokens, old(ctx.pos))
    {
      match sub {
        case Heading(level) =>
          toBreak, newState := Some(HeadingNotModelled(level)), InSubParser(sub);
        case Paragraph(p) =>
          var r := p.Next(ctx);
          match r {
            case ToYield(ev) => toBreak, newState := Some(Event(ev)), InSubParser(sub);
            case ToPauseForNewLine => toBreak, newState := None, InRoot(Some(sub));
            case Done => toBreak, newState := None, InRoot(None);
          }
        case CodeBlock(c) =>
          var r := c.Next(ctx);
          match r {
            case ToYield(ev) => toBreak, newState := Some(Event(ev)), InSubParser(sub);
            case ToPauseForNewLine => toBreak, newState := None, InRoot(Some(sub));
            case Done => toBreak, newState := None, InRoot(None);
          }
      }
    }

    /** `parse_root`. Both branches that see a paused sub-parser return, so
        only the first turn of the loop can see one; they are taken before
        the loop here. */
    method ParseRoot(paused: Option<SubParser>) returns (r: RootParseResult<SubParser>)
      requires ctx.Valid()
      requires paused.Some? ==> IsPaused(SubAbs(paused.value))
      modifies ctx, OptRepr(paused)
      ensures ctx.Valid()
      ensures r.ToEnter? ==> fresh(SubRepr(r.subParser) - old(OptRepr(paused)))
      ensures (ResultAbs(r), ctx.pos) == ParseRootSpec(old(OptAbs(paused)), ctx.input, ctx.tokens, old(ctx.pos))
    {
      if ctx.Peek1().None? {
        if paused.Some? {
          ResumeAndExitSub(paused.value);
          return ToEnter(paused.value);
        }
        return Done;
      }
      if paused.Some? {
        ResumeAndContinueSub(paused.value);
        return ToEnter(paused.value);
      }
      var stop := SkipBlankLines();
      match stop {
        case AtEnd => r := Done;
        case AtText => r := ToEnterParagraph;
        case AtChar => r := DispatchAtChar();
      }
    }

    /** The loop of `parse_root` once no paused sub-parser is left: line
        feeds, blank runs and space characters are consumed. */
    method SkipBlankLines() returns (stop: LineStart)
      requires ctx.Valid()
      modifies ctx
      ensures ctx.Valid()
      ensures (stop, ctx.pos) == SkipBlanks(ctx.input, ctx.tokens, old(ctx.pos))
    {
      while true
        invariant ctx.Valid() && old(ctx.pos) <= ctx.pos
        invariant SkipBlanks(ctx.input, ctx.tokens, ctx.pos) == SkipBlanks(ctx.input, ctx.tokens, old(ctx.pos))
        decreases |ctx.tokens| - ctx.pos
      {
        var peeked := ctx.Peek1();
        if peeked.None? {
          return AtEnd;
        }
        ghost var p := ctx.pos;
        match peeked.value {
          case LineFeed =>
            SkipBlanksStep(ctx.input, ctx.tokens, p);
            ctx.ConsumePeeked();
          case BlankAtLineBeginning(_) =>
            SkipBlanksStep(ctx.input, ctx.tokens, p);
            ctx.ConsumePeeked();
          case Text(_) => return AtText;
          case _ =>
            var taken := ctx.TakeIfSpace();
            if !taken {
              return AtChar;
            }
            SkipBlanksStep(ctx.input, ctx.tokens, p);
        }
      }
    }

    /** The match on the next three characters at the end of `parse_root`. */
    method DispatchAtChar() returns (r: RootParseResult<SubParser>)
      requires ctx.Valid() && ctx.pos < |ctx.tokens| && ctx.tokens[ctx.pos].IsChar()
      modifies ctx
      ensures ctx.Valid()
      ensures r.ToEnter? ==> fresh(SubRepr(r.subParser))
      ensures (ResultAbs(r), ctx.pos) == Dispatch(ctx.input, ctx.tokens, old(ctx.pos))
    {
      ghost var input, tokens, pos := ctx.input, ctx.tokens, ctx.pos;
      var cs := NextThreeCharsAhead(ctx.input, ctx.tokens, ctx.pos);
      if cs == [Some(HYPHEN), Some(HYPHEN), Some(HYPHEN)] {
        ctx.MustTake(3);
        var _ := ctx.DropWhileChar(HYPHEN, None);
        r := ToYield(SP.ThematicBreak);
        assert Dispatch(input, tokens, pos) == (ToYield(SP.ThematicBreak), ctx.pos);
      } else if cs[0] == Some(EQUALS) {
        r := DispatchAtEquals();
      } else if cs == [Some(BACKTICK), Some(BACKTICK), Some(BACKTICK)] {
        ctx.MustTake(3);
        var extraCount := ctx.DropWhileChar(BACKTICK, None);
        var c := new CB.Parser(3 + extraCount);
        r := ToEnter(CodeBlock(c));
        assert Dispatch(input, tokens, pos) == (ToEnter(CodeBlockValue(3 + extraCount, CB.Initial)), ctx.pos);
      } else {
        r := ToEnterParagraph;
      }
    }

    /** The `=` branch of the match at the end of `parse_root`. */
    method DispatchAtEquals() returns (r: RootParseResult<SubParser>)
      requires ctx.Valid() && ctx.pos < |ctx.tokens| && ctx.tokens[ctx.pos].IsChar()
      modifies ctx
      ensures ctx.Valid()
      ensures r.ToEnter? ==> r.subParser.Heading?
      ensures (ResultAbs(r), ctx.pos) == DispatchEquals(ctx.input, ctx.tokens, old(ctx.pos))
    {
      CursorOnConsumedChar(ctx.input, ctx.tokens, ctx.pos);
      ctx.MustTake(1);
      var start := ctx.cursor.value;
      var dropped := ctx.DropWhileChar(EQUALS, Some(5));
      var potentialOpeningPart := Range(start, 1 + dropped);
      if ctx.PeekNextChar() == Some(SPACE) {
        ctx.MustTake(1);
        r := ToEnter(Heading(1 + dropped));
      } else {
        r := ToEnterParagraphWithContentBefore(potentialOpeningPart);
      }
    }
  }

  method ResumeAndContinueSub(sub: SubParser)
    requires IsPaused(SubAbs(sub))
    modifies SubRepr(sub)
    ensures SubRepr(sub) == old(SubRepr(sub))
    ensures SubAbs(sub) == ResumeAndContinue(old(SubAbs(sub)))
  {
    match sub {
      case Paragraph(p) => p.ResumeFromPauseForNewLineAndContinue();
      case CodeBlock(c) => c.ResumeFromPauseForNewLineAndContinue();
    }
  }

  method ResumeAndExitSub(sub: SubParser)
    requires IsPaused(SubAbs(sub))
    modifies SubRepr(sub)
    ensures SubRepr(sub) <= old(SubRepr(sub))
    ensures SubAbs(sub) == ResumeAndExit(old(SubAbs(sub)))
  {
    match sub {
      case Paragraph(p) => p.ResumeFromPauseForNewLineAndExit();
      case CodeBlock(c) => c.ResumeFromPauseForNewLineAndExit();
    }
  }

  // ---------------------------------------------------------------------
  // Properties of the root parser.

  /** The outcomes of `k` successive calls of `next`. */
  function Outcomes(v: RootState, input: seq<Byte>, tokens: seq<Token>, pos: nat, k: nat): (os: seq<Outcome>)
    requires ValidState(v, input, tokens, pos)
    ensures |os| == k
    decreases k
  {
    if k == 0 then []
    else
      var (o, v', pos') := NextSpec(v, input, tokens, pos);
      [o] + Outcomes(v', input, tokens, pos', k - 1)
  }

  /** Once the parser cleans up, every later call ends: the stack it would
      pop is always empty. */
  lemma {:induction false} CleanUpIsFinal(v: RootState, input: seq<Byte>, tokens: seq<Token>, pos: nat, k: nat)
    requires ValidState(v, input, tokens, pos) && v.isCleaningUp
    ensures forall i :: 0 <= i < k ==> Outcomes(v, input, tokens, pos, k)[i] == End
    decreases k
  {
    if k > 0 {
      NextSpecUnfolds(v, input, tokens, pos);
      assert NextSpec(v, input, tokens, pos) == (End, v, pos);
      CleanUpIsFinal(v, input, tokens, pos, k - 1);
      assert Outcomes(v, input, tokens, pos, k) == [End] + Outcomes(v, input, tokens, pos, k - 1);
    }
  }

  /** At the root with no paused sub-parser, input that holds only blank
      lines and space characters ends the parser and starts the clean-up. */
  lemma BlankInputEnds(input: seq<Byte>, tokens: seq<Token>, pos: nat)
    requires WellFormed(input, tokens) && pos <= |tokens|
    requires SkipBlanks(input, tokens, pos).0.AtEnd?
    ensures NextSpec(RootState(false, InRoot(None)), input, tokens, pos) == (End, RootState(true, Invalid), |tokens|)
  {
    var v := RootState(false, InRoot(None));
    NextSpecUnfolds(v, input, tokens, pos);
    NextSpecUnfolds(RootState(true, Invalid), input, tokens, |tokens|);
  }

  /** A paragraph that yields an event keeps running: the root parser
      returns the event and stays in the paragraph. */
  lemma ParagraphYieldIsForwarded(s: PG.State<CP.Fields>, input: seq<Byte>, tokens: seq<Token>, pos: nat)
    requires PG.CanRunNext(s, input, tokens, pos)
    requires PG.NextSpec(s, input, tokens, pos).0.ToYield?
    ensures var (r, pos', s') := PG.NextSpec(s, input, tokens, pos);
            NextSpec(RootState(false, InSubParser(ParagraphValue(s))), input, tokens, pos)
            == (Event(r.ev), RootState(false, InSubParser(ParagraphValue(s'))), pos')
  {
    NextSpecUnfolds(RootState(false, InSubParser(ParagraphValue(s))), input, tokens, pos);
  }

  /** A paragraph that pauses at a line feed with input left is resumed
      at once: to the caller the pause is invisible, and the next call goes
      on in the resumed paragraph. */
  lemma ParagraphPauseResumes(s: PG.State<CP.Fields>, input: seq<Byte>, tokens: seq<Token>, pos: nat)
    requires PG.CanRunNext(s, input, tokens, pos)
    requires PG.NextSpec(s, input, tokens, pos).0.ToPauseForNewLine?
    requires PG.NextSpec(s, input, tokens, pos).1 < |tokens|
    ensures var (_, pos', s') := PG.NextSpec(s, input, tokens, pos);
            && ValidState(RootState(false, InSubParser(ParagraphValue(PG.ResumeAndContinueSpec(s')))), input, tokens, pos')
            && NextSpec(RootState(false, InSubParser(ParagraphValue(s))), input, tokens, pos)
               == NextSpec(RootState(false, InSubParser(ParagraphValue(PG.ResumeAndContinueSpec(s')))), input, tokens, pos')
  {
    var (_, pos', s') := PG.NextSpec(s, input, tokens, pos);
    var v := RootState(false, InSubParser(ParagraphValue(s)));
    var w := RootState(false, InRoot(Some(ParagraphValue(s'))));
    NextSpecUnfolds(v, input, tokens, pos);
    assert Step(v, input, tokens, pos) == Continue(w, pos');
    NextSpecUnfolds(w, input, tokens, pos');
  }

  /** A paragraph that pauses at the end of input is told to exit, so the
      next outcome is its `Exit`. */
  lemma ParagraphPauseAtEndExits(s: PG.State<CP.Fields>, input: seq<Byte>, tokens: seq<Token>, pos: nat)
    requires PG.CanRunNext(s, input, tokens, pos)
    requires PG.NextSpec(s, input, tokens, pos).0.ToPauseForNewLine?
    requires PG.NextSpec(s, input, tokens, pos).1 == |tokens|
    ensures NextSpec(RootState(false, InSubParser(ParagraphValue(s))), input, tokens, pos)
            == (Event(SP.Exit), RootState(false, InSubParser(ParagraphValue(PG.Exiting))), |tokens|)
  {
    var (_, pos', s') := PG.NextSpec(s, input, tokens, pos);
    var v := RootState(false, InSubParser(ParagraphValue(s)));
    var w := RootState(false, InRoot(Some(ParagraphValue(s'))));
    var x := RootState(false, InSubParser(ParagraphValue(PG.ToExit)));
    NextSpecUnfolds(v, input, tokens, pos);
    assert Step(v, input, tokens, pos) == Continue(w, pos');
    NextSpecUnfolds(w, input, tokens, pos');
    assert Step(w, input, tokens, pos') == Continue(x, pos');
    NextSpecUnfolds(x, input, tokens, pos');
  }

  /** A sub-parser that is done hands control back to the root, which
      goes on with no paused sub-parser. */
  lemma CodeBlockDoneReturnsToRoot(n: nat, s: CB.State<CP.Fields>, input: seq<Byte>, tokens: seq<Token>, pos: nat)
    requires CB.CanRunNext(s, input, tokens, pos)
    requires CB.NextSpec(n, s, input, tokens, pos).0.Done?
    ensures NextSpec(RootState(false, InSubParser(CodeBlockValue(n, s))), input, tokens, pos)
            == NextSpec(RootState(false, InRoot(None)), input, tokens, CB.NextSpec(n, s, input, tokens, pos).1)
  {
    NextSpecUnfolds(RootState(false, InSubParser(CodeBlockValue(n, s))), input, tokens, pos);
  }

  /** `---` is a thematic break, and the whole run of `-` after it is
      dropped: the parser stops at the first character that is not `-`. */
  lemma ThematicBreakDropsHyphens(input: seq<Byte>, tokens: seq<Token>, pos: nat)
    requires WellFormed(input, tokens) && pos < |tokens| && tokens[pos].IsChar()
    requires NextThreeCharsAhead(input, tokens, pos) == [Some(HYPHEN), Some(HYPHEN), Some(HYPHEN)]
    ensures var (r, pos') := Dispatch(input, tokens, pos);
            && r == ToYield(SP.ThematicBreak)
            && pos + 3 <= pos'
            && (forall j :: pos <= j < pos' ==> CharOf(input, tokens, j) == Some(HYPHEN))
            && NextCharAhead(input, tokens, pos') != Some(HYPHEN)
  {
    DropCountIsMaximalRun(input, tokens, pos + 3, HYPHEN, None);
    assert forall j :: pos <= j < pos + 3 ==> CharOf(input, tokens, j) == NextThreeCharsAhead(input, tokens, pos)[j - pos];
  }

  /** A run of one to six `=` followed by a space enters a heading whose
      level is the length of the run; the read position is after the
      space. */
  lemma EqualsRunEntersHeading(input: seq<Byte>, tokens: seq<Token>, pos: nat, level: nat)
    requires WellFormed(input, tokens) && 1 <= level <= 6 && pos + level < |tokens| && tokens[pos].IsChar()
    requires forall j :: pos <= j < pos + level ==> CharOf(input, tokens, j) == Some(EQUALS)
    requires CharOf(input, tokens, pos + level) == Some(SPACE)
    ensures Dispatch(input, tokens, pos) == (ToEnter(HeadingValue(level)), pos + level + 1)
  {
    assert CharOf(input, tokens, pos) == Some(EQUALS);
    DropCountOfRun(input, tokens, pos + 1, EQUALS, Some(5), level - 1);
  }

  /** A run of `=` either enters a heading or starts a paragraph. A heading
      is entered only when a space follows the run, so a run that is not
      followed by a space (within the first six characters) starts a
      paragraph, whose content is exactly the run. */
  lemma EqualsRunWithoutSpaceIsParagraph(input: seq<Byte>, tokens: seq<Token>, pos: nat)
    requires WellFormed(input, tokens) && pos < |tokens| && tokens[pos].IsChar()
    requires CharOf(input, tokens, pos) == Some(EQUALS)
    ensures var (r, _) := Dispatch(input, tokens, pos);
            r.ToEnter? || r.ToEnterParagraphWithContentBefore?
    ensures var (r, pos') := Dispatch(input, tokens, pos);
            r.ToEnter? ==>
              && pos + 2 <= pos' <= pos + 7
              && r == ToEnter(HeadingValue(pos' - 1 - pos))
              && NextCharAhead(input, tokens, pos' - 1) == Some(SPACE)
              && (forall j :: pos <= j < pos' - 1 ==> CharOf(input, tokens, j) == Some(EQUALS))
    ensures var (r, pos') := Dispatch(input, tokens, pos);
            r.ToEnterParagraphWithContentBefore? ==>
              && r.contentBefore.length == pos' - pos
              && r.contentBefore.length <= 6
              && (forall j :: pos <= j < pos' ==> CharOf(input, tokens, j) == Some(EQUALS))
              && NextCharAhead(input, tokens, pos') != Some(SPACE)
  {
    DropCountIsMaximalRun(input, tokens, pos + 1, EQUALS, Some(5));
  }

  /** Three backticks and `k` more, with no further backtick, enter a code
      block whose closing fence needs `3 + k` backticks. */
  lemma FenceCountsBackticks(input: seq<Byte>, tokens: seq<Token>, pos: nat, k: nat)
    requires WellFormed(input, tokens) && pos + 3 + k <= |tokens| && tokens[pos].IsChar()
    requires forall j :: pos <= j < pos + 3 + k ==> CharOf(input, tokens, j) == Some(BACKTICK)
    requires NextCharAhead(input, tokens, pos + 3 + k) != Some(BACKTICK)
    ensures Dispatch(input, tokens, pos) == (ToEnter(CodeBlockValue(3 + k, CB.Initial)), pos + 3 + k)
  {
    assert NextThreeCharsAhead(input, tokens, pos) == [Some(BACKTICK), Some(BACKTICK), Some(BACKTICK)];
    DropCountOfRun(input, tokens, pos + 3, BACKTICK, None, k);
  }
}
