/** The resumable content sub-parser of
    `rust/rotext/src/block/sub_parsers/content.rs`: it turns mapped tokens
    into `Unparsed`/`Text` ranges and `LineFeed` events, pauses at line
    feeds and stops at the configured end conditions. */
module ContentParser {
  import opened Common
  import opened BlockContext
  import SP = SubParsers

  datatype StepState = Initial | Normal(content: Range) | IsAfterLineFeed

  datatype Mode =
    /** Blank runs at the start of a line are dropped. */
    | Inline
    /** Blank runs are kept as text. */
    | Verbatim

  datatype RepetitiveCharactersCondition = RepetitiveCharactersCondition(
    atLineBeginning: bool,
    atLineEndAndWithSpaceBefore: bool,
    character: Byte,
    /** The least count at a line beginning, the exact count at a line end. */
    minimalCount: nat)

  datatype EndConditions = EndConditions(
    beforeNewLine: bool,
    beforeBlankLine: bool,
    afterRepetitiveCharacters: Option<RepetitiveCharactersCondition>)

  /** `Options`; the defaults are `Initial`, `Inline` and no end condition. */
  datatype Options = Options(initialStepState: StepState, mode: Mode, endConditions: EndConditions)

  const NO_END_CONDITIONS := EndConditions(false, false, None)

  /** The fields of a content parser, as a value. */
  datatype Fields = Fields(
    mode: Mode,
    endConditions: EndConditions,
    nextInitialStepState: StepState,
    isAtFirstLine: bool)

  function NewFields(options: Options): (f: Fields)
    ensures f.isAtFirstLine && f.nextInitialStepState == options.initialStepState
  {
    Fields(options.mode, options.endConditions, options.initialStepState, true)
  }

  datatype InternalResult =
    | ToContinue
    | ToChangeStepStateAndContinue(state: StepState)
    | ToYield(ev: SP.Event)
    | ToPauseForNewLine
    | Done

  /** The events a content parser yields. */
  predicate IsContentEvent(ev: SP.Event) {
    ev.Unparsed? || ev.Text? || ev.LineFeed?
  }

  /** Content events and then one closing `Exit`: how a block's run ends. */
  predicate ContentThenExit(d: seq<SP.Event>) {
    && |d| >= 1
    && d[|d| - 1] == SP.Exit
    && forall i :: 0 <= i < |d| - 1 ==> IsContentEvent(d[i])
  }

  lemma PrependContentEvent(ev: SP.Event, d: seq<SP.Event>)
    requires IsContentEvent(ev) && ContentThenExit(d)
    ensures ContentThenExit([ev] + d)
  {
  }

  /** What a call to `next` demands: a well-formed context, and a line start
      when the parser resumes after a line feed. */
  predicate CanRun(f: Fields, input: seq<Byte>, tokens: seq<Token>, pos: nat) {
    && WellFormed(input, tokens)
    && pos <= |tokens|
    && (f.nextInitialStepState.IsAfterLineFeed? ==> NotAtNextChar(tokens, pos))
  }

  /** `make_content_event`. */
  function MakeContentEvent(mode: Mode, content: Range): (ev: SP.Event)
    ensures (ev.Unparsed? || ev.Text?) && ev.content == content
    ensures ev.Unparsed? <==> mode.Inline?
    ensures ev.Text? <==> mode.Verbatim?
  {
    match mode
    case Inline => SP.Unparsed(content)
    case Verbatim => SP.Text(content)
  }

  /** What a blank run at the start of a line becomes. */
  function BlankResult(mode: Mode, blank: Range): InternalResult {
    match mode
    case Inline => ToContinue
    case Verbatim => ToYield(SP.Text(blank))
  }

  /** `process_in_initial_state`: the result and the new read position. */
  function ProcessInitial(f: Fields, input: seq<Byte>, tokens: seq<Token>, pos: nat): (r: (InternalResult, nat))
    requires WellFormed(input, tokens) && pos <= |tokens|
    ensures r.1 <= |tokens|
    ensures !r.0.Done? ==> r.1 == pos + 1
    ensures r.0.ToChangeStepStateAndContinue? ==> r.0.state.Normal?
    ensures r.0.ToYield? ==> IsContentEvent(r.0.ev)
  {
    match Peek(tokens, pos)
    case None => (Done, pos)
    case Some(t) =>
      match t
      case CharAt(_) =>
        (ToChangeStepStateAndContinue(Normal(Range(CursorAfter(tokens, pos + 1).value, 1))), pos + 1)
      case NextChar =>
        assert TokenFits(input, tokens, pos);
        (ToChangeStepStateAndContinue(Normal(Range(CursorAfter(tokens, pos + 1).value, 1))), pos + 1)
      case LineFeed =>
        (if f.endConditions.beforeNewLine then Done else ToPauseForNewLine, pos + 1)
      case BlankAtLineBeginning(blank) => (BlankResult(f.mode, blank), pos + 1)
      case Text(content) => (ToYield(SP.Text(content)), pos + 1)
  }

  /** The end condition that applies in `Normal` state at a `NextChar`: one
      that looks at line ends, when the next character is a space. */
  function LineEndCondition(f: Fields, input: seq<Byte>, tokens: seq<Token>, pos: nat): (c: Option<RepetitiveCharactersCondition>)
    requires WellFormed(input, tokens)
    ensures c.Some? ==> c.value.atLineEndAndWithSpaceBefore && NextCharAhead(input, tokens, pos) == Some(SPACE)
  {
    match f.endConditions.afterRepetitiveCharacters
    case Some(c) =>
      if c.atLineEndAndWithSpaceBefore && NextCharAhead(input, tokens, pos) == Some(SPACE) then Some(c) else None
    case None => None
  }

  /** `process_in_normal_state`: the result, the new read position and the
      new content range. */
  function ProcessNormal(f: Fields, input: seq<Byte>, tokens: seq<Token>, pos: nat, content: Range)
    : (r: (InternalResult, nat, Range))
    requires WellFormed(input, tokens) && pos <= |tokens|
    ensures pos <= r.1 <= |tokens|
    ensures r.0.ToContinue? ==> r.1 > pos
    ensures !r.0.ToChangeStepStateAndContinue? && !r.0.ToPauseForNewLine? && !r.0.Done?
    ensures r.0.ToYield? ==> IsContentEvent(r.0.ev)
  {
    match Peek(tokens, pos)
    case None => (ToYield(MakeContentEvent(f.mode, content)), pos, content)
    case Some(t) =>
      if t.CharAt? || t.LineFeed? || t.Text? then
        (ToYield(MakeContentEvent(f.mode, content)), pos, content)
      else if t.BlankAtLineBeginning? then
        (BlankResult(f.mode, t.blank), pos + 1, content)
      else
        match LineEndCondition(f, input, tokens, pos)
        case None => (ToContinue, pos + 1, content.(length := content.length + 1))
        case Some(condition) =>
          var confirmed := content;
          var pos1 := pos + 1;
          if NextCharAhead(input, tokens, pos1) != Some(condition.character) then
            (ToContinue, pos1, content.(length := confirmed.length + 1))
          else
            var pos2 := pos1 + 1;
            var dropped := DropCount(input, tokens, pos2, condition.character, Some(condition.minimalCount));
            var pos3 := pos2 + dropped;
            var grown := content.(length := confirmed.length + 2 + dropped);
            if 1 + dropped == condition.minimalCount then
              if !(Peek(tokens, pos3) == Some(LineFeed) || Peek(tokens, pos3) == None) then
                (ToContinue, pos3, grown)
              else
                (ToYield(SP.Unparsed(confirmed)), pos3, content)
            else
              (ToContinue, pos3, grown)
  }

  /** The end condition that applies after a line feed at `CharAt(index)`:
      one that looks at line beginnings, for that very character. */
  function LineBeginningCondition(f: Fields, input: seq<Byte>, index: nat): (c: Option<RepetitiveCharactersCondition>)
    requires index < |input|
    ensures c.Some? ==> c.value.atLineBeginning && c.value.character == input[index]
  {
    match f.endConditions.afterRepetitiveCharacters
    case Some(c) => if c.atLineBeginning && c.character == input[index] then Some(c) else None
    case None => None
  }

  /** `process_in_is_after_line_feed_state`. A `NextChar` right after a line
      feed cannot happen. */
  function ProcessAfterLineFeed(f: Fields, input: seq<Byte>, tokens: seq<Token>, pos: nat): (r: (InternalResult, nat))
    requires WellFormed(input, tokens) && pos <= |tokens| && NotAtNextChar(tokens, pos)
    ensures pos <= r.1 <= |tokens|
    ensures r.0.ToContinue? ==> r.1 == pos + 1 && tokens[pos].BlankAtLineBeginning?
    ensures r.0.ToChangeStepStateAndContinue? ==>
              r.0.state.Initial? || (r.0.state.Normal? && r.1 > pos)
    ensures !r.0.ToPauseForNewLine?
    ensures r.0.ToYield? ==> IsContentEvent(r.0.ev)
  {
    match Peek(tokens, pos)
    case None => (Done, pos)
    case Some(t) =>
      match t
      case CharAt(index) =>
        assert TokenFits(input, tokens, pos);
        (match LineBeginningCondition(f, input, index)
         case None =>
           (if f.isAtFirstLine then ToChangeStepStateAndContinue(Initial) else ToYield(SP.LineFeed), pos)
         case Some(condition) =>
           var dropped := DropCount(input, tokens, pos + 1, condition.character, None);
           if 1 + dropped >= condition.minimalCount then (Done, pos + 1 + dropped)
           else (ToChangeStepStateAndContinue(Normal(Range(index, 1 + dropped))), pos + 1 + dropped))
      case LineFeed =>
        if f.endConditions.beforeBlankLine then (Done, pos + 1) else (ToYield(SP.LineFeed), pos)
      case BlankAtLineBeginning(blank) => (BlankResult(f.mode, blank), pos + 1)
      case Text(_) =>
        (if f.isAtFirstLine then ToChangeStepStateAndContinue(Initial) else ToYield(SP.LineFeed), pos)
  }

  function Rank(state: StepState): nat {
    if state.IsAfterLineFeed? then 1 else 0
  }

  /** The state the loop of `next` continues with, or `None` when it breaks,
      together with the new read position. */
  datatype StepOutcome =
    | Continue(state: StepState, pos: nat)
    | Break(result: SP.Result, pos: nat)

  /** One iteration of the loop in `next`. */
  function Step(f: Fields, input: seq<Byte>, tokens: seq<Token>, pos: nat, state: StepState): (o: StepOutcome)
    requires WellFormed(input, tokens) && pos <= |tokens|
    requires state.IsAfterLineFeed? ==> NotAtNextChar(tokens, pos)
    ensures pos <= o.pos <= |tokens|
    ensures o.Continue? ==>
              && (o.state.IsAfterLineFeed? ==> NotAtNextChar(tokens, o.pos))
              && (o.pos > pos || Rank(o.state) < Rank(state))
    ensures o.Break? && o.result.ToPauseForNewLine? ==> o.pos > pos && tokens[o.pos - 1].LineFeed?
    ensures o.Break? && o.result.Done? && !state.IsAfterLineFeed? ==>
              EndsLine(tokens, o.pos)
    ensures o.Break? && o.result.ToYield? ==> IsContentEvent(o.result.ev)
    ensures state.Initial? && !(o.Break? && o.result.Done?) ==> o.pos > pos
  {
    var (ir, pos', state') :=
      match state
      case Initial => var (ir, p) := ProcessInitial(f, input, tokens, pos); (ir, p, state)
      case Normal(content) =>
        var (ir, p, c) := ProcessNormal(f, input, tokens, pos, content); (ir, p, Normal(c))
      case IsAfterLineFeed => var (ir, p) := ProcessAfterLineFeed(f, input, tokens, pos); (ir, p, state);
    match ir
    case ToContinue =>
      if state'.IsAfterLineFeed? && pos' < |tokens| then
        LineStartsWithCharAt(input, tokens, pos');
        Continue(state', pos')
      else
        Continue(state', pos')
    case ToChangeStepStateAndContinue(s) => Continue(s, pos')
    case ToYield(ev) => Break(SP.ToYield(ev), pos')
    case ToPauseForNewLine => Break(SP.ToPauseForNewLine, pos')
    case Done => Break(SP.Done, pos')
  }

  /** The loop of `next`, run to the break. */
  function Loop(f: Fields, input: seq<Byte>, tokens: seq<Token>, pos: nat, state: StepState): (r: (SP.Result, nat))
    requires WellFormed(input, tokens) && pos <= |tokens|
    requires state.IsAfterLineFeed? ==> NotAtNextChar(tokens, pos)
    ensures pos <= r.1 <= |tokens|
    ensures r.0.ToPauseForNewLine? ==> r.1 > pos && tokens[r.1 - 1].LineFeed?
    ensures r.0.Done? && !state.IsAfterLineFeed? ==> EndsLine(tokens, r.1)
    ensures r.0.ToYield? ==> IsContentEvent(r.0.ev)
    ensures state.Initial? && !r.0.Done? ==> r.1 > pos
    decreases |tokens| - pos, Rank(state)
  {
    match Step(f, input, tokens, pos, state)
    case Continue(s, p) => Loop(f, input, tokens, p, s)
    case Break(result, p) => (result, p)
  }

  /** `Parser::next`: the result, the new read position and the new fields. */
  function NextSpec(f: Fields, input: seq<Byte>, tokens: seq<Token>, pos: nat): (r: (SP.Result, nat, Fields))
    requires CanRun(f, input, tokens, pos)
    ensures pos <= r.1 <= |tokens|
    ensures r.2 == f.(nextInitialStepState := Initial,
                      isAtFirstLine := f.isAtFirstLine && !r.0.ToPauseForNewLine?)
    ensures r.0.ToPauseForNewLine? ==> r.1 > pos && tokens[r.1 - 1].LineFeed?
    ensures r.0.Done? && !f.nextInitialStepState.IsAfterLineFeed? ==>
              EndsLine(tokens, r.1)
    ensures r.0.ToYield? ==> IsContentEvent(r.0.ev)
    ensures f.nextInitialStepState.Initial? && !r.0.Done? ==> r.1 > pos
    ensures f.endConditions.beforeNewLine ==> !r.0.ToPauseForNewLine?
  {
    var f1 := f.(nextInitialStepState := Initial);
    var (result, pos') := Loop(f1, input, tokens, pos, f.nextInitialStepState);
    NeverPausesBeforeNewLine(f1, input, tokens, pos, f.nextInitialStepState);
    (result, pos', if result.ToPauseForNewLine? then f1.(isAtFirstLine := false) else f1)
  }

  /** The content sub-parser. */
  class Parser {
    var mode: Mode
    var endConditions: EndConditions
    var nextInitialStepState: StepState
    var isAtFirstLine: bool

    function Abs(): Fields
      reads this
    {
      Fields(mode, endConditions, nextInitialStepState, isAtFirstLine)
    }

    constructor (options: Options)
      ensures Abs() == NewFields(options)
    {
      mode := options.mode;
      endConditions := options.endConditions;
      nextInitialStepState := options.initialStepState;
      isAtFirstLine := true;
    }

    method ProcessInInitialState(ctx: Context) returns (r: InternalResult)
      requires ctx.Valid()
      modifies ctx
      ensures ctx.Valid()
      ensures (r, ctx.pos) == ProcessInitial(Abs(), ctx.input, ctx.tokens, old(ctx.pos))
    {
      var peeked := ctx.Peek1();
      if peeked.None? {
        return Done;
      }
      match peeked.value
      case CharAt(_) =>
        ctx.ConsumePeeked();
        r := ToChangeStepStateAndContinue(Normal(Range(ctx.cursor.value, 1)));
      case NextChar =>
        assert TokenFits(ctx.input, ctx.tokens, ctx.pos);
        ctx.ConsumePeeked();
        r := ToChangeStepStateAndContinue(Normal(Range(ctx.cursor.value, 1)));
      case LineFeed =>
        ctx.ConsumePeeked();
        r := if endConditions.beforeNewLine then Done else ToPauseForNewLine;
      case BlankAtLineBeginning(blank) =>
        ctx.ConsumePeeked();
        r := match mode
             case Inline => ToContinue
             case Verbatim => ToYield(SP.Text(blank));
      case Text(content) =>
        ctx.ConsumePeeked();
        r := ToYield(SP.Text(content));
    }

    method ProcessInNormalState(ctx: Context, stateContent: Range) returns (r: InternalResult, content: Range)
      requires ctx.Valid()
      modifies ctx
      ensures ctx.Valid()
      ensures (r, ctx.pos, content) == ProcessNormal(Abs(), ctx.input, ctx.tokens, old(ctx.pos), stateContent)
    {
      content := stateContent;
      var peeked := ctx.Peek1();
      if peeked.None? {
        return ToYield(MakeContentEvent(mode, content)), content;
      }
      var t := peeked.value;
      if t.CharAt? || t.LineFeed? || t.Text? {
        return ToYield(MakeContentEvent(mode, content)), content;
      } else if t.BlankAtLineBeginning? {
        ctx.ConsumePeeked();
        r := match mode
             case Inline => ToContinue
             case Verbatim => ToYield(SP.Text(t.blank));
        return;
      }
      var condition: RepetitiveCharactersCondition;
      match endConditions.afterRepetitiveCharacters {
        case None =>
          ctx.ConsumePeeked();
          return ToContinue, content.(length := content.length + 1);
        case Some(c) =>
          if !(c.atLineEndAndWithSpaceBefore && ctx.PeekNextChar() == Some(SPACE)) {
            ctx.ConsumePeeked();
            return ToContinue, content.(length := content.length + 1);
          }
          condition := c;
      }
      var confirmed := content;
      var potentialClosingPartLength := 0;
      ctx.ConsumePeeked();
      potentialClosingPartLength := potentialClosingPartLength + 1;
      if ctx.PeekNextChar() != Some(condition.character) {
        return ToContinue, content.(length := confirmed.length + potentialClosingPartLength);
      }
      ctx.MustTake(1);
      potentialClosingPartLength := potentialClosingPartLength + 1;
      var dropped := ctx.DropWhileChar(condition.character, Some(condition.minimalCount));
      potentialClosingPartLength := potentialClosingPartLength + dropped;
      if 1 + dropped == condition.minimalCount {
        var after := ctx.Peek1();
        if !(after == Some(LineFeed) || after == None) {
          return ToContinue, content.(length := confirmed.length + potentialClosingPartLength);
        }
        r := ToYield(SP.Unparsed(confirmed));
      } else {
        r := ToContinue;
        content := content.(length := confirmed.length + potentialClosingPartLength);
      }
    }

    method ProcessInIsAfterLineFeedState(ctx: Context) returns (r: InternalResult)
      requires ctx.Valid() && NotAtNextChar(ctx.tokens, ctx.pos)
      modifies ctx
      ensures ctx.Valid()
      ensures (r, ctx.pos) == ProcessAfterLineFeed(Abs(), ctx.input, ctx.tokens, old(ctx.pos))
    {
      var peeked := ctx.Peek1();
      if peeked.None? {
        return Done;
      }
      match peeked.value
      case CharAt(index) =>
        assert TokenFits(ctx.input, ctx.tokens, ctx.pos);
        var condition := LineBeginningCondition(Abs(), ctx.input, index);
        if condition.None? {
          if isAtFirstLine {
            return ToChangeStepStateAndContinue(Initial);
          } else {
            return ToYield(SP.LineFeed);
          }
        }
        ctx.ConsumePeeked();
        var potentialClosingPart := Range(index, 1);
        var dropped := ctx.DropWhileChar(condition.value.character, None);
        if 1 + dropped >= condition.value.minimalCount {
          r := Done;
        } else {
          potentialClosingPart := potentialClosingPart.(length := 1 + dropped);
          r := ToChangeStepStateAndContinue(Normal(potentialClosingPart));
        }
      case LineFeed =>
        if endConditions.beforeBlankLine {
          ctx.ConsumePeeked();
          r := Done;
        } else {
          r := ToYield(SP.LineFeed);
        }
      case BlankAtLineBeginning(blank) =>
        ctx.ConsumePeeked();
        r := match mode
             case Inline => ToContinue
             case Verbatim => ToYield(SP.Text(blank));
      case Text(_) =>
        r := if isAtFirstLine then ToChangeStepStateAndContinue(Initial) else ToYield(SP.LineFeed);
    }

    /** `next`. */
    method Next(ctx: Context) returns (r: SP.Result)
      requires ctx.Valid() && CanRun(Abs(), ctx.input, ctx.tokens, ctx.pos)
      modifies this, ctx
      ensures ctx.Valid()
      ensures (r, ctx.pos, Abs()) == NextSpec(old(Abs()), ctx.input, ctx.tokens, old(ctx.pos))
    {
      var state := nextInitialStepState;
      nextInitialStepState := Initial;
      while true
        invariant ctx.Valid() && old(ctx.pos) <= ctx.pos
        invariant state.IsAfterLineFeed? ==> NotAtNextChar(ctx.tokens, ctx.pos)
        invariant Abs() == old(Abs()).(nextInitialStepState := Initial)
        invariant Loop(Abs(), ctx.input, ctx.tokens, ctx.pos, state)
                  == Loop(Abs(), ctx.input, ctx.tokens, old(ctx.pos), old(nextInitialStepState))
        decreases |ctx.tokens| - ctx.pos, Rank(state)
      {
        var o := Pass(ctx, state);
        match o
        case Continue(newState, _) =>
          state := newState;
        case Break(result, _) =>
          if result.ToPauseForNewLine? {
            isAtFirstLine := false;
          }
          return result;
      }
    }

    /** One pass of the loop in `next`: the state's processing, and whether
        the loop goes on (in which state) or ends (with what result). */
    method Pass(ctx: Context, state: StepState) returns (o: StepOutcome)
      requires ctx.Valid() && (state.IsAfterLineFeed? ==> NotAtNextChar(ctx.tokens, ctx.pos))
      modifies ctx
      ensures ctx.Valid()
      ensures o == Step(Abs(), ctx.input, ctx.tokens, old(ctx.pos), state) && ctx.pos == o.pos
    {
      var internalResult: InternalResult;
      var state' := state;
      match state {
        case Initial =>
          internalResult := ProcessInInitialState(ctx);
        case Normal(content) =>
          var content';
          internalResult, content' := ProcessInNormalState(ctx, content);
          state' := Normal(content');
        case IsAfterLineFeed =>
          internalResult := ProcessInIsAfterLineFeedState(ctx);
      }
      match internalResult
      case ToContinue =>
        o := Continue(state', ctx.pos);
      case ToChangeStepStateAndContinue(newState) =>
        o := Continue(newState, ctx.pos);
      case ToYield(ev) =>
        o := Break(SP.ToYield(ev), ctx.pos);
      case ToPauseForNewLine =>
        o := Break(SP.ToPauseForNewLine, ctx.pos);
      case Done =>
        o := Break(SP.Done, ctx.pos);
    }

    /** `resume_from_pause_for_new_line_and_continue`. */
    method ResumeFromPauseForNewLineAndContinue()
      modifies this
      ensures Abs() == old(Abs()).(nextInitialStepState := IsAfterLineFeed)
    {
      nextInitialStepState := IsAfterLineFeed;
    }
  }

  // ---------------------------------------------------------------------
  // Properties of `next`.

  /** In `Initial` state, exhausted input gives `Done`; a `Text` token is
      consumed and yielded unchanged. */
  lemma InitialStateAtEndOrText(f: Fields, input: seq<Byte>, tokens: seq<Token>, pos: nat)
    requires CanRun(f, input, tokens, pos) && f.nextInitialStepState.Initial?
    ensures pos == |tokens| ==> NextSpec(f, input, tokens, pos).0 == SP.Done
    ensures pos < |tokens| && tokens[pos].Text? ==>
              NextSpec(f, input, tokens, pos).0 == SP.ToYield(SP.Text(tokens[pos].content))
              && NextSpec(f, input, tokens, pos).1 == pos + 1
  {
    var f1 := f.(nextInitialStepState := Initial);
    if pos == |tokens| || tokens[pos].Text? {
      assert Loop(f1, input, tokens, pos, Initial) == (Step(f1, input, tokens, pos, Initial).result, Step(f1, input, tokens, pos, Initial).pos);
    }
  }

  /** In `Initial` state, a line feed is consumed; it ends the parser when it
      must end before a new line and pauses it otherwise, and a pause clears
      `isAtFirstLine`. */
  lemma InitialStateAtLineFeed(f: Fields, input: seq<Byte>, tokens: seq<Token>, pos: nat)
    requires CanRun(f, input, tokens, pos) && f.nextInitialStepState.Initial?
    requires pos < |tokens| && tokens[pos].LineFeed?
    ensures var (r, pos', f') := NextSpec(f, input, tokens, pos);
            && pos' == pos + 1
            && r == (if f.endConditions.beforeNewLine then SP.Done else SP.ToPauseForNewLine)
            && (r.ToPauseForNewLine? ==> !f'.isAtFirstLine)
  {
    var f1 := f.(nextInitialStepState := Initial);
    assert Loop(f1, input, tokens, pos, Initial) == (Step(f1, input, tokens, pos, Initial).result, Step(f1, input, tokens, pos, Initial).pos);
  }

  /** A content parser that must end before a new line never pauses: the
      only pause comes from a line feed in `Initial` state. */
  lemma {:induction false} NeverPausesBeforeNewLine(f: Fields, input: seq<Byte>, tokens: seq<Token>, pos: nat, state: StepState)
    requires WellFormed(input, tokens) && pos <= |tokens|
    requires state.IsAfterLineFeed? ==> NotAtNextChar(tokens, pos)
    ensures f.endConditions.beforeNewLine ==> !Loop(f, input, tokens, pos, state).0.ToPauseForNewLine?
    decreases |tokens| - pos, Rank(state)
  {
    match Step(f, input, tokens, pos, state)
    case Continue(s, p) => NeverPausesBeforeNewLine(f, input, tokens, p, s);
    case Break(_, _) =>
  }

  /** A blank run at the start of a line is consumed in every state: it is
      dropped in `Inline` mode, where the loop goes on in the same state, and
      yielded as `Text` in `Verbatim` mode. */
  lemma BlankTokenInEveryState(f: Fields, input: seq<Byte>, tokens: seq<Token>, pos: nat, state: StepState)
    requires WellFormed(input, tokens) && pos < |tokens|
    requires tokens[pos].BlankAtLineBeginning?
    ensures var o := Step(f, input, tokens, pos, state);
            && o.pos == pos + 1
            && (f.mode.Inline? ==> o == Continue(state, pos + 1))
            && (f.mode.Verbatim? ==> o == Break(SP.ToYield(SP.Text(tokens[pos].blank)), pos + 1))
  {
  }

  /** The end conditions under which a `NextChar` always grows the range:
      none looks at line ends. */
  predicate NoLineEndCondition(f: Fields) {
    f.endConditions.afterRepetitiveCharacters.None?
    || !f.endConditions.afterRepetitiveCharacters.value.atLineEndAndWithSpaceBefore
  }

  /** A token on which a `Normal` range is complete: end of input, a new
      chunk, a line feed or a verbatim text. */
  predicate EndsRange(tokens: seq<Token>, pos: nat) {
    pos < |tokens| ==> (tokens[pos].CharAt? || tokens[pos].LineFeed? || tokens[pos].Text?)
  }

  /** In `Normal` state, each of `k` `NextChar`s grows the range by exactly
      one, and the range is yielded, as `Unparsed` in `Inline` mode and as
      `Text` in `Verbatim` mode, at the token that completes it. */
  lemma {:induction false} NormalRangeGrowsByOne(f: Fields, input: seq<Byte>, tokens: seq<Token>, pos: nat, content: Range, k: nat)
    requires WellFormed(input, tokens) && pos + k <= |tokens|
    requires NoLineEndCondition(f)
    requires forall j :: pos <= j < pos + k ==> tokens[j].NextChar?
    requires EndsRange(tokens, pos + k)
    ensures Loop(f, input, tokens, pos, Normal(content))
            == (SP.ToYield(MakeContentEvent(f.mode, content.(length := content.length + k))), pos + k)
    decreases k
  {
    var o := Step(f, input, tokens, pos, Normal(content));
    if k == 0 {
      assert o == Break(SP.ToYield(MakeContentEvent(f.mode, content)), pos);
    } else {
      assert o == Continue(Normal(content.(length := content.length + 1)), pos + 1);
      NormalRangeGrowsByOne(f, input, tokens, pos + 1, content.(length := content.length + 1), k - 1);
    }
  }

  /** From `Initial` state, a first character followed by `k` `NextChar`s
      becomes one range of length `k + 1` that starts at that character. */
  lemma FirstCharOpensRange(f: Fields, input: seq<Byte>, tokens: seq<Token>, pos: nat, k: nat)
    requires CanRun(f, input, tokens, pos) && f.nextInitialStepState.Initial?
    requires pos + 1 + k <= |tokens| && tokens[pos].CharAt?
    requires NoLineEndCondition(f)
    requires forall j :: pos + 1 <= j < pos + 1 + k ==> tokens[j].NextChar?
    requires EndsRange(tokens, pos + 1 + k)
    ensures NextSpec(f, input, tokens, pos).0
            == SP.ToYield(MakeContentEvent(f.mode, Range(tokens[pos].index, k + 1)))
    ensures NextSpec(f, input, tokens, pos).1 == pos + 1 + k
  {
    var f1 := f.(nextInitialStepState := Initial);
    var first := Range(tokens[pos].index, 1);
    assert Step(f1, input, tokens, pos, Initial) == Continue(Normal(first), pos + 1);
    NormalRangeGrowsByOne(f1, input, tokens, pos + 1, first, k);
  }

  /** At a line end, a space followed by exactly `minimalCount` condition
      characters and then a line feed (or the end of input) closes the
      content: the range before the space is yielded as `Unparsed`, and the
      closing characters are consumed. */
  lemma LineEndClosingSequence(f: Fields, input: seq<Byte>, tokens: seq<Token>, pos: nat, content: Range)
    requires WellFormed(input, tokens) && pos < |tokens|
    requires f.endConditions.afterRepetitiveCharacters.Some?
    requires var c := f.endConditions.afterRepetitiveCharacters.value;
             && c.atLineEndAndWithSpaceBefore && c.minimalCount >= 1
             && pos + 1 + c.minimalCount <= |tokens|
             && tokens[pos].NextChar? && CharOf(input, tokens, pos) == Some(SPACE)
             && (forall j :: pos + 1 <= j < pos + 1 + c.minimalCount ==> CharOf(input, tokens, j) == Some(c.character))
             && (pos + 1 + c.minimalCount < |tokens| ==> tokens[pos + 1 + c.minimalCount].LineFeed?)
    ensures var c := f.endConditions.afterRepetitiveCharacters.value;
            ProcessNormal(f, input, tokens, pos, content)
            == (ToYield(SP.Unparsed(content)), pos + 1 + c.minimalCount, content)
  {
    var c := f.endConditions.afterRepetitiveCharacters.value;
    assert CharOf(input, tokens, pos + 1) == Some(c.character);
    DropCountOfRun(input, tokens, pos + 2, c.character, Some(c.minimalCount), c.minimalCount - 1);
  }

  /** After a line feed, a run of the line-beginning condition character is
      consumed whole; when it is at least `minimalCount` long the parser is
      done, and otherwise the run becomes a `Normal` range of its length. */
  lemma AfterLineFeedRepetitiveCharacters(f: Fields, input: seq<Byte>, tokens: seq<Token>, pos: nat)
    requires WellFormed(input, tokens) && pos < |tokens| && tokens[pos].CharAt?
    requires tokens[pos].index < |input|
    requires LineBeginningCondition(f, input, tokens[pos].index).Some?
    ensures var c := LineBeginningCondition(f, input, tokens[pos].index).value;
            var run := 1 + DropCount(input, tokens, pos + 1, c.character, None);
            && (forall j :: pos <= j < pos + run ==> CharOf(input, tokens, j) == Some(c.character))
            && NextCharAhead(input, tokens, pos + run) != Some(c.character)
            && ProcessAfterLineFeed(f, input, tokens, pos)
               == if run >= c.minimalCount then (Done, pos + run)
                  else (ToChangeStepStateAndContinue(Normal(Range(tokens[pos].index, run))), pos + run)
  {
    var c := LineBeginningCondition(f, input, tokens[pos].index).value;
    DropCountIsMaximalRun(input, tokens, pos + 1, c.character, None);
  }

  /** After a line feed, a second line feed (a blank line) is consumed and
      ends the parser when it must end before a blank line; otherwise a
      `LineFeed` event is yielded and the second line feed is left. */
  lemma AfterLineFeedBlankLine(f: Fields, input: seq<Byte>, tokens: seq<Token>, pos: nat)
    requires CanRun(f, input, tokens, pos) && f.nextInitialStepState.IsAfterLineFeed?
    requires pos < |tokens| && tokens[pos].LineFeed?
    ensures NextSpec(f, input, tokens, pos).0
            == if f.endConditions.beforeBlankLine then SP.Done else SP.ToYield(SP.LineFeed)
    ensures NextSpec(f, input, tokens, pos).1
            == if f.endConditions.beforeBlankLine then pos + 1 else pos
  {
    var f1 := f.(nextInitialStepState := Initial);
    assert Loop(f1, input, tokens, pos, IsAfterLineFeed) == (Step(f1, input, tokens, pos, IsAfterLineFeed).result, Step(f1, input, tokens, pos, IsAfterLineFeed).pos);
  }
}
