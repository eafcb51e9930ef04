/** The block phase's view of the global event stream
    (rust/rotext/src/block/global_mapper.rs): `Undetermined` chunks are cut
    into per-byte tokens, verbatim escapings become `Text`, comments vanish,
    and spaces at the beginning of a line are counted. */
module GlobalMapper {
  import opened Common

  /** The events of the global phase that the mapper consumes. */
  datatype GlobalEvent =
    | Undetermined(content: Range)
    | VerbatimEscaping(content: Range, isClosedForcedly: bool)
    | Comment(content: Range)

  /** The tokens the mapper yields. */
  datatype Mapped =
    | CharAt(index: nat)
    | NextChar
    | LineFeed
    | BlankLine(spaces: nat)
    | SpacesAtLineBeginning(count: nat)
    | Text(range: Range)

  /** What is left of the `Undetermined` chunk being cut into tokens. */
  datatype RemainUndetermined = Remain(content: Range, nextOffset: nat, isToStart: bool)

  /** The mutable fields of the mapper, as one value. */
  datatype MapperState = MapperState(
    consumed: nat,
    deferred: Option<Mapped>,
    remain: Option<RemainUndetermined>,
    spaces: Option<nat>)

  /** The global parser only produces ranges inside the input. */
  predicate WellFormedStream(input: seq<Byte>, stream: seq<GlobalEvent>) {
    forall i :: 0 <= i < |stream| ==> stream[i].content.InBounds(input)
  }

  predicate ValidState(input: seq<Byte>, stream: seq<GlobalEvent>, s: MapperState) {
    && WellFormedStream(input, stream)
    && s.consumed <= |stream|
    && (s.remain.Some? ==>
          s.remain.value.content.InBounds(input)
          && s.remain.value.nextOffset <= s.remain.value.content.length)
  }

  function InitialState(): MapperState {
    MapperState(0, None, None, Some(0))
  }

  /** A verbatim escaping of length at least 2 loses one leading and one
      trailing space, if present. */
  function TrimVerbatim(input: seq<Byte>, r: Range): (t: Range)
    requires r.InBounds(input)
    ensures r.start <= t.start && t.End() <= r.End()
    ensures r.length < 2 ==> t == r
    ensures r.length >= 2 ==>
              && t.start == (if input[r.start] == SPACE then r.start + 1 else r.start)
              && t.End() == (if input[r.End() - 1] == SPACE then r.End() - 1 else r.End())
  {
    if r.length < 2 then r
    else
      var (start, length) := if input[r.start] == SPACE then (r.start + 1, r.length - 1)
                             else (r.start, r.length);
      if input[start + length - 1] == SPACE then Range(start, length - 1)
      else Range(start, length)
  }

  /** Weight of the remaining chunk; with the number of unconsumed stream
      events it bounds the iterations of one `next`. */
  function RemainWeight(remain: Option<RemainUndetermined>): nat {
    if remain.None? then 0
    else if remain.value.nextOffset <= remain.value.content.length
    then remain.value.content.length - remain.value.nextOffset + 1
    else 1
  }

  /** One pass of the loop in `next`: either it continues in a new state or
      it returns a token (or the end) with a new state. */
  datatype StepOutcome = Continue(next: MapperState) | Return(result: Option<Mapped>, next: MapperState)

  function Step(input: seq<Byte>, stream: seq<GlobalEvent>, s: MapperState): (o: StepOutcome)
    requires ValidState(input, stream, s) && s.deferred.None?
    ensures ValidState(input, stream, o.next)
    ensures o.Continue? ==>
              && o.next.deferred.None?
              && (|stream| - o.next.consumed < |stream| - s.consumed
                  || (o.next.consumed == s.consumed
                      && RemainWeight(o.next.remain) < RemainWeight(s.remain)))
  {
    if s.remain.Some? then
      var rm := s.remain.value;
      if rm.nextOffset == rm.content.length then
        Continue(s.(remain := None))
      else
        var index := rm.content.start + rm.nextOffset;
        var ch := input[index];
        var advanced := rm.(nextOffset := rm.nextOffset + 1);
        if s.spaces.Some? && ch == SPACE then
          Continue(s.(remain := Some(advanced), spaces := Some(s.spaces.value + 1)))
        else if s.spaces.Some? && ch == LF then
          Return(Some(BlankLine(s.spaces.value)), s.(remain := Some(advanced), spaces := Some(0)))
        else if s.spaces.Some? && s.spaces.value > 0 then
          Return(Some(SpacesAtLineBeginning(s.spaces.value)), s.(spaces := None))
        else if ch == LF then
          Return(Some(LineFeed), s.(remain := Some(advanced.(isToStart := true)), spaces := Some(0)))
        else if rm.isToStart then
          Return(Some(CharAt(index)), s.(remain := Some(advanced.(isToStart := false)), spaces := None))
        else
          Return(Some(NextChar), s.(remain := Some(advanced), spaces := None))
    else if s.consumed == |stream| then
      if s.spaces.Some? && s.spaces.value > 0 then
        Return(Some(SpacesAtLineBeginning(s.spaces.value)), s.(spaces := None))
      else
        Return(None, s.(spaces := None))
    else
      var ev := stream[s.consumed];
      var s1 := s.(consumed := s.consumed + 1);
      match ev
      case Undetermined(content) =>
        Continue(s1.(remain := Some(Remain(content, 0, true))))
      case VerbatimEscaping(content, _) =>
        var text := Text(TrimVerbatim(input, content));
        if s.spaces.Some? && s.spaces.value > 0 then
          Return(Some(SpacesAtLineBeginning(s.spaces.value)), s1.(deferred := Some(text), spaces := None))
        else
          Return(Some(text), s1.(spaces := None))
      case Comment(_) =>
        Continue(s1)
  }

  /** The loop of `next`, run until it returns. */
  function Loop(input: seq<Byte>, stream: seq<GlobalEvent>, s: MapperState): (r: (Option<Mapped>, MapperState))
    requires ValidState(input, stream, s) && s.deferred.None?
    ensures ValidState(input, stream, r.1)
    decreases |stream| - s.consumed, RemainWeight(s.remain)
  {
    match Step(input, stream, s)
    case Continue(s') => Loop(input, stream, s')
    case Return(r, s') => (r, s')
  }

  /** `Loop` goes on after a `Continue` and stops at a `Return`. */
  lemma LoopUnfolds(input: seq<Byte>, stream: seq<GlobalEvent>, s: MapperState)
    requires ValidState(input, stream, s) && s.deferred.None?
    ensures var o := Step(input, stream, s);
            && (o.Continue? ==> Loop(input, stream, s) == Loop(input, stream, o.next))
            && (o.Return? ==> Loop(input, stream, s) == (o.result, o.next))
  {
  }

  /** What one call of `next` returns, and the state it leaves. */
  function NextSpec(input: seq<Byte>, stream: seq<GlobalEvent>, s: MapperState): (r: (Option<Mapped>, MapperState))
    requires ValidState(input, stream, s)
    ensures ValidState(input, stream, r.1)
  {
    if s.deferred.Some? then (s.deferred, s.(deferred := None))
    else Loop(input, stream, s)
  }

  /** `GlobalEventStreamMapper`: the global stream is the sequence of events
      it will yield, read from position `consumed`. */
  class GlobalEventStreamMapper {
    const input: seq<Byte>
    const stream: seq<GlobalEvent>

    var consumed: nat
    var deferred: Option<Mapped>
    var remain: Option<RemainUndetermined>
    var spacesAtLineBeginning: Option<nat>

    function State(): MapperState
      reads this
    {
      MapperState(consumed, deferred, remain, spacesAtLineBeginning)
    }

    ghost predicate Valid()
      reads this
    {
      ValidState(input, stream, State())
    }

    constructor (input: seq<Byte>, stream: seq<GlobalEvent>)
      requires WellFormedStream(input, stream)
      ensures Valid()
      ensures this.input == input && this.stream == stream
      ensures State() == InitialState()
    {
      this.input := input;
      this.stream := stream;
      consumed := 0;
      deferred := None;
      remain := None;
      spacesAtLineBeginning := Some(0);
    }

    method Next() returns (r: Option<Mapped>)
      requires Valid()
      modifies this
      ensures Valid()
      ensures (r, State()) == NextSpec(input, stream, old(State()))
    {
      if deferred.Some? {
        r := deferred;
        deferred := None;
        return;
      }

      while true
        invariant Valid() && deferred.None?
        invariant Loop(input, stream, State()) == Loop(input, stream, old(State()))
        decreases |stream| - consumed, RemainWeight(remain)
      {
        LoopUnfolds(input, stream, State());
        var done;
        done, r := Pass();
        if done {
          return;
        }
      }
    }

    /** One pass of the loop in `next`: it either goes round again or
        returns. */
    method Pass() returns (done: bool, r: Option<Mapped>)
      requires Valid() && deferred.None?
      modifies this
      ensures Valid()
      ensures Step(input, stream, old(State())) == if done then Return(r, State()) else Continue(State())
    {
      if remain.Some? {
        var rm := remain.value;
        if rm.nextOffset == rm.content.length {
          remain := None;
          return false, None;
        }

        var index := rm.content.start + rm.nextOffset;
        var ch := input[index];

        if spacesAtLineBeginning.Some? {
          var spaces := spacesAtLineBeginning.value;
          if ch == SPACE {
            remain := Some(rm.(nextOffset := rm.nextOffset + 1));
            spacesAtLineBeginning := Some(spaces + 1);
            return false, None;
          } else if ch == LF {
            remain := Some(rm.(nextOffset := rm.nextOffset + 1));
            spacesAtLineBeginning := Some(0);
            return true, Some(BlankLine(spaces));
          } else {
            spacesAtLineBeginning := None;
            if spaces > 0 {
              return true, Some(SpacesAtLineBeginning(spaces));
            }
          }
        }

        if ch == LF {
          remain := Some(rm.(nextOffset := rm.nextOffset + 1, isToStart := true));
          spacesAtLineBeginning := Some(0);
          return true, Some(LineFeed);
        } else if rm.isToStart {
          remain := Some(rm.(nextOffset := rm.nextOffset + 1, isToStart := false));
          return true, Some(CharAt(index));
        } else {
          remain := Some(rm.(nextOffset := rm.nextOffset + 1));
          return true, Some(NextChar);
        }
      }

      if consumed == |stream| {
        var spaces := spacesAtLineBeginning;
        spacesAtLineBeginning := None;
        if spaces.Some? && spaces.value > 0 {
          return true, Some(SpacesAtLineBeginning(spaces.value));
        }
        return true, None;
      }

      var next := stream[consumed];
      consumed := consumed + 1;
      match next {
        case Undetermined(content) =>
          remain := Some(Remain(content, 0, true));
        case VerbatimEscaping(content, _) =>
          var mappedText := Text(TrimVerbatim(input, content));
          var spaces := spacesAtLineBeginning;
          spacesAtLineBeginning := None;
          if spaces.Some? && spaces.value > 0 {
            deferred := Some(mappedText);
            return true, Some(SpacesAtLineBeginning(spaces.value));
          }
          return true, Some(mappedText);
        case Comment(_) =>
      }
      return false, None;
    }
  }

  // ---------------------------------------------------------------------
  // Progress: every token makes the state strictly smaller, so `next`
  // terminates and the whole token stream is well defined.

  /** A lexicographic measure on the mapper state. */
  function Key(stream: seq<GlobalEvent>, s: MapperState): (nat, nat, nat, nat) {
    (if s.consumed <= |stream| then |stream| - s.consumed else 0,
     if s.deferred.Some? then 1 else 0,
     RemainWeight(s.remain),
     if s.spaces.Some? then 1 else 0)
  }

  predicate KeyLess(a: (nat, nat, nat, nat), b: (nat, nat, nat, nat)) {
    a.0 < b.0
    || (a.0 == b.0 && a.1 < b.1)
    || (a.0 == b.0 && a.1 == b.1 && a.2 < b.2)
    || (a.0 == b.0 && a.1 == b.1 && a.2 == b.2 && a.3 < b.3)
  }

  /** The mapper is exhausted: nothing left to read and nothing pending. */
  predicate Exhausted(stream: seq<GlobalEvent>, s: MapperState) {
    s.consumed == |stream| && s.deferred.None? && s.remain.None? && s.spaces.None?
  }

  lemma {:induction false} LoopProgress(input: seq<Byte>, stream: seq<GlobalEvent>, s: MapperState)
    requires ValidState(input, stream, s) && s.deferred.None?
    ensures Loop(input, stream, s).0.Some? ==> KeyLess(Key(stream, Loop(input, stream, s).1), Key(stream, s))
    ensures Loop(input, stream, s).0.None? ==> Exhausted(stream, Loop(input, stream, s).1)
    decreases |stream| - s.consumed, RemainWeight(s.remain)
  {
    match Step(input, stream, s)
    case Continue(s') =>
      LoopProgress(input, stream, s');
    case Return(_, _) =>
  }

  /** Each call that yields a token strictly decreases `Key`; a call that
      yields `None` leaves the mapper exhausted, and an exhausted mapper
      keeps yielding `None`. */
  lemma NextProgress(input: seq<Byte>, stream: seq<GlobalEvent>, s: MapperState)
    requires ValidState(input, stream, s)
    ensures NextSpec(input, stream, s).0.Some? ==> KeyLess(Key(stream, NextSpec(input, stream, s).1), Key(stream, s))
    ensures NextSpec(input, stream, s).0.None? ==> Exhausted(stream, NextSpec(input, stream, s).1)
    ensures Exhausted(stream, s) ==> NextSpec(input, stream, s) == (None, s)
  {
    if s.deferred.None? {
      LoopProgress(input, stream, s);
    }
  }

  /** All tokens the mapper yields from state `s` until it yields `None`. */
  function Collect(input: seq<Byte>, stream: seq<GlobalEvent>, s: MapperState): seq<Mapped>
    requires ValidState(input, stream, s)
    decreases Key(stream, s).0, Key(stream, s).1, Key(stream, s).2, Key(stream, s).3
  {
    NextProgress(input, stream, s);
    var (r, s') := NextSpec(input, stream, s);
    if r.None? then [] else [r.value] + Collect(input, stream, s')
  }

  /** The tokens of a whole input. */
  function Tokens(input: seq<Byte>, stream: seq<GlobalEvent>): seq<Mapped>
    requires WellFormedStream(input, stream)
  {
    Collect(input, stream, InitialState())
  }

  // ---------------------------------------------------------------------
  // Properties of a single call.

  /** The first byte of a fresh `Undetermined` chunk, when it is not a line
      feed and not a space still being counted, is reported as `CharAt`. */
  lemma ChunkStartsWithCharAt(input: seq<Byte>, stream: seq<GlobalEvent>, s: MapperState)
    requires ValidState(input, stream, s)
    requires s.deferred.None? && s.remain.None? && s.consumed < |stream|
    requires stream[s.consumed].Undetermined? && stream[s.consumed].content.length > 0
    requires input[stream[s.consumed].content.start] != LF
    requires s.spaces == None || (s.spaces == Some(0) && input[stream[s.consumed].content.start] != SPACE)
    ensures NextSpec(input, stream, s)
            == (Some(CharAt(stream[s.consumed].content.start)),
                MapperState(s.consumed + 1, None, Some(Remain(stream[s.consumed].content, 1, false)), None))
  {
    var s1 := s.(consumed := s.consumed + 1, remain := Some(Remain(stream[s.consumed].content, 0, true)));
    assert Step(input, stream, s) == Continue(s1);
    assert Loop(input, stream, s1) == (Step(input, stream, s1).result, Step(input, stream, s1).next);
  }

  /** A later byte of the same line, not a line feed, is reported as `NextChar`. */
  lemma LaterByteIsNextChar(input: seq<Byte>, stream: seq<GlobalEvent>, s: MapperState)
    requires ValidState(input, stream, s)
    requires s.deferred.None? && s.spaces.None? && s.remain.Some?
    requires !s.remain.value.isToStart
    requires s.remain.value.nextOffset < s.remain.value.content.length
    requires input[s.remain.value.content.start + s.remain.value.nextOffset] != LF
    ensures NextSpec(input, stream, s)
            == (Some(NextChar), s.(remain := Some(s.remain.value.(nextOffset := s.remain.value.nextOffset + 1))))
  {
  }

  /** A line feed is reported as `LineFeed`, the next byte starts a new line
      (`CharAt`), and the count of leading spaces restarts at zero. */
  lemma LineFeedStartsLine(input: seq<Byte>, stream: seq<GlobalEvent>, s: MapperState)
    requires ValidState(input, stream, s)
    requires s.deferred.None? && s.spaces.None? && s.remain.Some?
    requires s.remain.value.nextOffset + 1 < s.remain.value.content.length
    requires input[s.remain.value.content.start + s.remain.value.nextOffset] == LF
    requires input[s.remain.value.content.start + s.remain.value.nextOffset + 1] !in {LF, SPACE}
    ensures NextSpec(input, stream, s).0 == Some(LineFeed)
    ensures NextSpec(input, stream, NextSpec(input, stream, s).1).0
            == Some(CharAt(s.remain.value.content.start + s.remain.value.nextOffset + 1))
  {
    var rm := s.remain.value;
    var s1 := s.(remain := Some(rm.(nextOffset := rm.nextOffset + 1, isToStart := true)), spaces := Some(0));
    assert NextSpec(input, stream, s) == (Some(LineFeed), s1);
  }

  /** The k bytes from index `from` on are spaces. */
  predicate SpacesAhead(input: seq<Byte>, from: nat, k: nat)
    requires from + k <= |input|
  {
    forall j :: from <= j < from + k ==> input[j] == SPACE
  }

  /** A line holding only spaces: n counted spaces plus k more spaces and a
      line feed are reported as one `BlankLine` with n + k spaces, and the
      count restarts at zero. */
  lemma {:induction false} BlankLineCountsSpaces(input: seq<Byte>, stream: seq<GlobalEvent>, s: MapperState, k: nat)
    requires ValidState(input, stream, s)
    requires s.deferred.None? && s.spaces.Some? && s.remain.Some?
    requires s.remain.value.nextOffset + k < s.remain.value.content.length
    requires SpacesAhead(input, s.remain.value.content.start + s.remain.value.nextOffset, k)
    requires input[s.remain.value.content.start + s.remain.value.nextOffset + k] == LF
    ensures NextSpec(input, stream, s)
            == (Some(BlankLine(s.spaces.value + k)),
                s.(remain := Some(s.remain.value.(nextOffset := s.remain.value.nextOffset + k + 1)), spaces := Some(0)))
    decreases k
  {
    var rm := s.remain.value;
    if k > 0 {
      var s1 := s.(remain := Some(rm.(nextOffset := rm.nextOffset + 1)), spaces := Some(s.spaces.value + 1));
      assert input[rm.content.start + rm.nextOffset] == SPACE;
      assert Step(input, stream, s) == Continue(s1);
      BlankLineCountsSpaces(input, stream, s1, k - 1);
    }
  }

  /** Leading spaces before a byte that is neither a space nor a line feed
      are reported once, as `SpacesAtLineBeginning`, only when there is at
      least one; the byte itself is reported by the following call. */
  lemma {:induction false} LeadingSpacesReported(input: seq<Byte>, stream: seq<GlobalEvent>, s: MapperState, k: nat)
    requires ValidState(input, stream, s)
    requires s.deferred.None? && s.spaces.Some? && s.remain.Some?
    requires s.remain.value.nextOffset + k < s.remain.value.content.length
    requires SpacesAhead(input, s.remain.value.content.start + s.remain.value.nextOffset, k)
    requires input[s.remain.value.content.start + s.remain.value.nextOffset + k] !in {LF, SPACE}
    ensures s.spaces.value + k > 0 ==>
              NextSpec(input, stream, s)
              == (Some(SpacesAtLineBeginning(s.spaces.value + k)),
                  s.(remain := Some(s.remain.value.(nextOffset := s.remain.value.nextOffset + k)), spaces := None))
    ensures s.spaces.value + k == 0 ==>
              NextSpec(input, stream, s).0
              == Some(if s.remain.value.isToStart then CharAt(s.remain.value.content.start + s.remain.value.nextOffset)
                      else NextChar)
    decreases k
  {
    var rm := s.remain.value;
    if k > 0 {
      var s1 := s.(remain := Some(rm.(nextOffset := rm.nextOffset + 1)), spaces := Some(s.spaces.value + 1));
      assert input[rm.content.start + rm.nextOffset] == SPACE;
      assert Step(input, stream, s) == Continue(s1);
      LeadingSpacesReported(input, stream, s1, k - 1);
    }
  }

  /** A verbatim escaping becomes `Text` of its trimmed range. When spaces
      at the line beginning are pending, they are reported first and the
      `Text` is deferred to the very next call. */
  lemma VerbatimBecomesText(input: seq<Byte>, stream: seq<GlobalEvent>, s: MapperState)
    requires ValidState(input, stream, s)
    requires s.deferred.None? && s.remain.None? && s.consumed < |stream|
    requires stream[s.consumed].VerbatimEscaping?
    ensures var text := Text(TrimVerbatim(input, stream[s.consumed].content));
            var (r, s') := NextSpec(input, stream, s);
            && s'.consumed == s.consumed + 1 && s'.spaces.None?
            && (if s.spaces.Some? && s.spaces.value > 0
                then r == Some(SpacesAtLineBeginning(s.spaces.value))
                     && NextSpec(input, stream, s') == (Some(text), s'.(deferred := None))
                else r == Some(text) && s'.deferred.None?)
  {
  }

  /** A comment yields no token: the mapper goes on with the next event. */
  lemma CommentYieldsNothing(input: seq<Byte>, stream: seq<GlobalEvent>, s: MapperState)
    requires ValidState(input, stream, s)
    requires s.deferred.None? && s.remain.None? && s.consumed < |stream|
    requires stream[s.consumed].Comment?
    ensures NextSpec(input, stream, s) == NextSpec(input, stream, s.(consumed := s.consumed + 1))
  {
    assert Step(input, stream, s) == Continue(s.(consumed := s.consumed + 1));
  }

  /** At the end of the stream, pending leading spaces are reported once and
      then `None` is returned for good. */
  lemma EndOfStream(input: seq<Byte>, stream: seq<GlobalEvent>, s: MapperState)
    requires ValidState(input, stream, s)
    requires s.deferred.None? && s.remain.None? && s.consumed == |stream|
    ensures s.spaces.Some? && s.spaces.value > 0 ==>
              Collect(input, stream, s) == [SpacesAtLineBeginning(s.spaces.value)]
    ensures !(s.spaces.Some? && s.spaces.value > 0) ==> Collect(input, stream, s) == []
  {
    var s1 := s.(spaces := None);
    NextProgress(input, stream, s1);
    assert Collect(input, stream, s1) == [];
  }

  // ---------------------------------------------------------------------
  // Cases of the module's own test table. The global parser is not part of
  // this model, so each case gives the global events it produces.

  lemma EmptyInputYieldsNothing()
    ensures Tokens([], []) == []
  {
    EndOfStream([], [], InitialState());
  }

  /** "a\nbc": CharAt(0), LineFeed, CharAt(2), NextChar. */
  lemma LineFeedExample()
    ensures Tokens([97, 10, 98, 99], [Undetermined(Range(0, 4))])
            == [CharAt(0), LineFeed, CharAt(2), NextChar]
  {
  }

  /** "  ": spaces alone. */
  lemma SpacesOnlyExample()
    ensures Tokens([32, 32], [Undetermined(Range(0, 2))]) == [SpacesAtLineBeginning(2)]
  {
  }

  /** "a": the first byte of a chunk is a `CharAt`. */
  lemma OneCharExample()
    ensures Tokens([97], [Undetermined(Range(0, 1))]) == [CharAt(0)]
  {
  }

  /** "ab": the second byte of a chunk is a `NextChar`. */
  lemma TwoCharsExample()
    ensures Tokens([97, 98], [Undetermined(Range(0, 2))]) == [CharAt(0), NextChar]
  {
  }

  /** "\n": one empty line. */
  lemma BlankLineExample()
    ensures Tokens([10], [Undetermined(Range(0, 1))]) == [BlankLine(0)]
  {
  }

  /** "a\n": a line feed after text is a `LineFeed`, not a blank line. */
  lemma TextThenLineFeedExample()
    ensures Tokens([97, 10], [Undetermined(Range(0, 2))]) == [CharAt(0), LineFeed]
  {
  }

  /** "\n\n": two empty lines. */
  lemma TwoBlankLinesExample()
    ensures Tokens([10, 10], [Undetermined(Range(0, 2))]) == [BlankLine(0), BlankLine(0)]
  {
  }

  /** "a\n\n": a line feed ends the text line, then a blank line. */
  lemma TextThenBlankLineExample()
    ensures Tokens([97, 10, 10], [Undetermined(Range(0, 3))]) == [CharAt(0), LineFeed, BlankLine(0)]
  {
    var input: seq<Byte> := [97, 10, 10];
    var stream := [Undetermined(Range(0, 3))];
    var s1 := MapperState(1, None, Some(Remain(Range(0, 3), 1, false)), None);
    var s2 := MapperState(1, None, Some(Remain(Range(0, 3), 2, true)), Some(0));
    var s3 := MapperState(1, None, Some(Remain(Range(0, 3), 3, true)), Some(0));
    assert NextSpec(input, stream, InitialState()) == (Some(CharAt(0)), s1);
    assert NextSpec(input, stream, s1) == (Some(LineFeed), s2);
    assert NextSpec(input, stream, s2) == (Some(BlankLine(0)), s3);
    assert Collect(input, stream, s3) == [];
  }

  /** "  \n": spaces before a line feed make a blank line that counts them. */
  lemma SpacesBlankLineExample()
    ensures Tokens([32, 32, 10], [Undetermined(Range(0, 3))]) == [BlankLine(2)]
  {
    var input: seq<Byte> := [32, 32, 10];
    var stream := [Undetermined(Range(0, 3))];
    var s1 := MapperState(1, None, Some(Remain(Range(0, 3), 3, true)), Some(0));
    assert NextSpec(input, stream, InitialState()) == (Some(BlankLine(2)), s1);
    assert Collect(input, stream, s1) == [];
  }

  /** "<%…%>\n": a comment alone on its line leaves the line blank. */
  lemma CommentOnBlankLineExample()
    ensures Tokens([60, 37, 226, 128, 166, 37, 62, 10],
                   [Comment(Range(2, 3)), Undetermined(Range(7, 1))])
            == [BlankLine(0)]
  {
  }

  /** "  <%…%>\n": spaces before a comment are still counted for the blank line. */
  lemma SpacesBeforeCommentExample()
    ensures Tokens([32, 32, 60, 37, 226, 128, 166, 37, 62, 10],
                   [Undetermined(Range(0, 2)), Comment(Range(4, 3)), Undetermined(Range(9, 1))])
            == [BlankLine(2)]
  {
    var input: seq<Byte> := [32, 32, 60, 37, 226, 128, 166, 37, 62, 10];
    var stream := [Undetermined(Range(0, 2)), Comment(Range(4, 3)), Undetermined(Range(9, 1))];
    var t := MapperState(2, None, None, Some(2));
    var s1 := MapperState(3, None, Some(Remain(Range(9, 1), 1, true)), Some(0));
    assert Loop(input, stream, InitialState()) == Loop(input, stream, t);
    assert NextSpec(input, stream, InitialState()) == (Some(BlankLine(2)), s1);
    assert Collect(input, stream, s1) == [];
  }

  /** "  <` `>\n": a verbatim escaping makes the line non-blank. */
  lemma SpacesBeforeVerbatimExample()
    ensures Tokens([32, 32, 60, 96, 32, 96, 62, 10],
                   [Undetermined(Range(0, 2)), VerbatimEscaping(Range(4, 1), false), Undetermined(Range(7, 1))])
            == [SpacesAtLineBeginning(2), Text(Range(4, 1)), LineFeed]
  {
    var input: seq<Byte> := [32, 32, 60, 96, 32, 96, 62, 10];
    var stream := [Undetermined(Range(0, 2)), VerbatimEscaping(Range(4, 1), false), Undetermined(Range(7, 1))];
    var s1 := MapperState(2, Some(Text(Range(4, 1))), None, None);
    var s2 := MapperState(2, None, None, None);
    var s3 := MapperState(3, None, Some(Remain(Range(7, 1), 1, true)), Some(0));
    assert NextSpec(input, stream, InitialState()) == (Some(SpacesAtLineBeginning(2)), s1);
    assert NextSpec(input, stream, s1) == (Some(Text(Range(4, 1))), s2);
    assert NextSpec(input, stream, s2) == (Some(LineFeed), s3);
    assert Collect(input, stream, s3) == [];
  }

  /** "<`a`>": the content of a verbatim escaping is text. */
  lemma VerbatimExample()
    ensures Tokens([60, 96, 97, 96, 62], [VerbatimEscaping(Range(2, 1), false)])
            == [Text(Range(2, 1))]
  {
  }

  /** "<` a `>": one space is trimmed on each side. */
  lemma VerbatimTrimExample()
    ensures Tokens([60, 96, 32, 97, 32, 96, 62], [VerbatimEscaping(Range(2, 3), false)])
            == [Text(Range(3, 1))]
  {
  }

  /** "<`  a  `>": only one space is trimmed on each side. */
  lemma VerbatimWideTrimExample()
    ensures Tokens([60, 96, 32, 32, 97, 32, 32, 96, 62], [VerbatimEscaping(Range(2, 5), false)])
            == [Text(Range(3, 3))]
  {
  }

  /** "<`   `>": three spaces keep the middle one. */
  lemma VerbatimThreeSpacesExample()
    ensures Tokens([60, 96, 32, 32, 32, 96, 62], [VerbatimEscaping(Range(2, 3), false)])
            == [Text(Range(3, 1))]
  {
  }

  /** "<`  `>": two spaces lose one on each side. */
  lemma VerbatimTwoSpacesExample()
    ensures Tokens([60, 96, 32, 32, 96, 62], [VerbatimEscaping(Range(2, 2), false)])
            == [Text(Range(3, 0))]
  {
  }

  /** "<` `>": a single space is kept. */
  lemma VerbatimOneSpaceExample()
    ensures Tokens([60, 96, 32, 96, 62], [VerbatimEscaping(Range(2, 1), false)])
            == [Text(Range(2, 1))]
  {
  }

  /** "a<`` ` ``>bc": an escaping between text; the text after it starts a
      fresh chunk, so its first byte is a `CharAt`. */
  lemma VerbatimBetweenTextExample()
    ensures Tokens([97, 60, 96, 96, 32, 96, 32, 96, 96, 62, 98, 99],
                   [Undetermined(Range(0, 1)), VerbatimEscaping(Range(4, 3), false), Undetermined(Range(10, 2))])
            == [CharAt(0), Text(Range(5, 1)), CharAt(10), NextChar]
  {
  }

  /** "a<` b": an escaping closed by the end of input keeps its leading
      trim only. */
  lemma UnclosedVerbatimExample()
    ensures Tokens([97, 60, 96, 32, 98],
                   [Undetermined(Range(0, 1)), VerbatimEscaping(Range(3, 2), true)])
            == [CharAt(0), Text(Range(4, 1))]
  {
  }

  /** "ab<% … %>c": the comment yields nothing. */
  lemma CommentExample()
    ensures Tokens([97, 98, 60, 37, 32, 226, 128, 166, 32, 37, 62, 99],
                   [Undetermined(Range(0, 2)), Comment(Range(4, 5)), Undetermined(Range(11, 1))])
            == [CharAt(0), NextChar, CharAt(11)]
  {
    var input: seq<Byte> := [97, 98, 60, 37, 32, 226, 128, 166, 32, 37, 62, 99];
    var stream := [Undetermined(Range(0, 2)), Comment(Range(4, 5)), Undetermined(Range(11, 1))];
    var s1 := MapperState(1, None, Some(Remain(Range(0, 2), 1, false)), None);
    var s2 := MapperState(1, None, Some(Remain(Range(0, 2), 2, false)), None);
    var s3 := MapperState(3, None, Some(Remain(Range(11, 1), 1, false)), None);
    assert NextSpec(input, stream, InitialState()) == (Some(CharAt(0)), s1);
    assert NextSpec(input, stream, s1) == (Some(NextChar), s2);
    assert NextSpec(input, stream, s2) == (Some(CharAt(11)), s3);
    assert Collect(input, stream, s3) == [];
  }
}
