/** The block parser's view of its input: the input bytes, the stream of
    mapped tokens it reads from, a read position in that stream, and the
    input cursor.

    `block::context`, `Peekable3` and `InputCursor` are not part of this
    model; their helpers are specified here abstractly, on a token sequence
    with a read position, in the form the sub-parsers use them. */
module BlockContext {
  import opened Common

  /** The mapped tokens of the revision that `content.rs` and `block/mod.rs`
      are written against: a blank run at the start of a line is one
      `BlankAtLineBeginning` token carrying its range. */
  datatype Token =
    | CharAt(index: nat)
    | NextChar
    | LineFeed
    | BlankAtLineBeginning(blank: Range)
    | Text(content: Range)
  {
    /** Whether the token stands for one character of the input. */
    predicate IsChar() { CharAt? || NextChar? }
  }

  /** The cursor after applying one consumed token: `CharAt(i)` moves it to
      `i`, `NextChar` moves it one byte on, other tokens leave it. */
  function Apply(cursor: Option<nat>, t: Token): Option<nat> {
    match t
    case CharAt(i) => Some(i)
    case NextChar => if cursor.Some? then Some(cursor.value + 1) else None
    case _ => cursor
  }

  /** The cursor after the first `n` tokens have been consumed. */
  function CursorAfter(tokens: seq<Token>, n: nat): Option<nat>
    requires n <= |tokens|
  {
    if n == 0 then None else Apply(CursorAfter(tokens, n - 1), tokens[n - 1])
  }

  /** The token stream as the mapper produces it: every `CharAt` points into
      the input, and every `NextChar` continues a run of characters, so that
      the cursor it advances exists and stays inside the input. */
  predicate WellFormed(input: seq<Byte>, tokens: seq<Token>) {
    forall k :: 0 <= k < |tokens| ==> TokenFits(input, tokens, k)
  }

  predicate TokenFits(input: seq<Byte>, tokens: seq<Token>, k: nat)
    requires k < |tokens|
  {
    match tokens[k]
    case CharAt(i) => i < |input|
    case NextChar =>
      && k > 0
      && tokens[k - 1].IsChar()
      && CursorAfter(tokens, k).Some?
      && CursorAfter(tokens, k).value + 1 < |input|
    case _ => true
  }

  /** The byte a character token at position `k` stands for. */
  function CharOf(input: seq<Byte>, tokens: seq<Token>, k: nat): (c: Option<Byte>)
    requires WellFormed(input, tokens) && k < |tokens|
    ensures c.Some? <==> tokens[k].IsChar()
    ensures tokens[k].CharAt? ==> c == Some(input[tokens[k].index])
  {
    assert TokenFits(input, tokens, k);
    match tokens[k]
    case CharAt(i) => Some(input[i])
    case NextChar => Some(input[CursorAfter(tokens, k).value + 1])
    case _ => None
  }

  /** The token at the read position, if any (`peek_1`). */
  function Peek(tokens: seq<Token>, pos: nat): (t: Option<Token>)
    ensures t.Some? <==> pos < |tokens|
    ensures t.Some? ==> t.value == tokens[pos]
  {
    if pos < |tokens| then Some(tokens[pos]) else None
  }

  /** The character of the next token, if that token is a character
      (`peek_next_char`). */
  function NextCharAhead(input: seq<Byte>, tokens: seq<Token>, pos: nat): (c: Option<Byte>)
    requires WellFormed(input, tokens)
    ensures c.Some? <==> pos < |tokens| && tokens[pos].IsChar()
  {
    if pos < |tokens| then CharOf(input, tokens, pos) else None
  }

  /** The characters of the next three tokens (`peek_next_three_chars`). */
  function NextThreeCharsAhead(input: seq<Byte>, tokens: seq<Token>, pos: nat): (cs: seq<Option<Byte>>)
    requires WellFormed(input, tokens)
    ensures |cs| == 3
    ensures forall j :: 0 <= j < 3 ==> cs[j] == NextCharAhead(input, tokens, pos + j)
  {
    [NextCharAhead(input, tokens, pos), NextCharAhead(input, tokens, pos + 1),
     NextCharAhead(input, tokens, pos + 2)]
  }

  /** How many tokens `drop_from_mapper_while_char(_with_maximum)` consumes:
      characters equal to `c`, at most `max` of them when a maximum is
      given. */
  function DropCount(input: seq<Byte>, tokens: seq<Token>, pos: nat, c: Byte, max: Option<nat>): (n: nat)
    requires WellFormed(input, tokens) && pos <= |tokens|
    ensures pos + n <= |tokens|
    ensures max.Some? ==> n <= max.value
    decreases |tokens| - pos
  {
    if (max.Some? && max.value == 0) || NextCharAhead(input, tokens, pos) != Some(c) then 0
    else 1 + DropCount(input, tokens, pos + 1, c, if max.Some? then Some(max.value - 1) else None)
  }

  /** Every dropped token is the character `c`, and the drop stops at the
      first token that is not, unless the maximum was reached first. */
  lemma {:induction false} DropCountIsMaximalRun(input: seq<Byte>, tokens: seq<Token>, pos: nat, c: Byte, max: Option<nat>)
    requires WellFormed(input, tokens) && pos <= |tokens|
    ensures var n := DropCount(input, tokens, pos, c, max);
            && (forall j :: pos <= j < pos + n ==> CharOf(input, tokens, j) == Some(c))
            && ((max.Some? && n == max.value) || NextCharAhead(input, tokens, pos + n) != Some(c))
    decreases |tokens| - pos
  {
    if (max.Some? && max.value == 0) || NextCharAhead(input, tokens, pos) != Some(c) {
    } else {
      DropCountIsMaximalRun(input, tokens, pos + 1, c, if max.Some? then Some(max.value - 1) else None);
    }
  }

  /** A run of exactly `n` characters `c`, not cut short by the maximum, is
      dropped whole. */
  lemma {:induction false} DropCountOfRun(input: seq<Byte>, tokens: seq<Token>, pos: nat, c: Byte, max: Option<nat>, n: nat)
    requires WellFormed(input, tokens) && pos + n <= |tokens|
    requires forall j :: pos <= j < pos + n ==> CharOf(input, tokens, j) == Some(c)
    requires NextCharAhead(input, tokens, pos + n) != Some(c)
    requires max.Some? ==> n <= max.value
    ensures DropCount(input, tokens, pos, c, max) == n
    decreases n
  {
    if n > 0 {
      assert CharOf(input, tokens, pos) == Some(c);
      DropCountOfRun(input, tokens, pos + 1, c, Remaining(max, 1), n - 1);
    }
  }

  /** Consuming a character token leaves the cursor on that character. */
  lemma CursorOnConsumedChar(input: seq<Byte>, tokens: seq<Token>, k: nat)
    requires WellFormed(input, tokens) && k < |tokens| && tokens[k].IsChar()
    ensures CursorAfter(tokens, k + 1).Some?
    ensures CursorAfter(tokens, k + 1).value < |input|
    ensures CharOf(input, tokens, k) == Some(input[CursorAfter(tokens, k + 1).value])
  {
    assert TokenFits(input, tokens, k);
  }

  /** After a line feed, the next token is not a `NextChar`: a new line
      always starts with `CharAt`. */
  lemma LineStartsWithCharAt(input: seq<Byte>, tokens: seq<Token>, pos: nat)
    requires WellFormed(input, tokens) && 0 < pos < |tokens|
    requires !tokens[pos - 1].IsChar()
    ensures !tokens[pos].NextChar?
  {
    assert TokenFits(input, tokens, pos);
  }

  /** The next token is not a `NextChar`: a parser stands at the start of
      a line (or of a chunk), where `IsAfterLineFeed` may begin. */
  predicate NotAtNextChar(tokens: seq<Token>, pos: nat) {
    pos < |tokens| ==> !tokens[pos].NextChar?
  }

  /** The read position is at the end of the input or just after a line
      feed. */
  predicate EndsLine(tokens: seq<Token>, pos: nat) {
    pos == |tokens| || (0 < pos <= |tokens| && tokens[pos - 1].LineFeed?)
  }

  /** The block parser's context. */
  class Context {
    const input: seq<Byte>
    const tokens: seq<Token>
    var pos: nat
    var cursor: Option<nat>

    ghost predicate Valid()
      reads this
    {
      && WellFormed(input, tokens)
      && pos <= |tokens|
      && cursor == CursorAfter(tokens, pos)
    }

    constructor (input: seq<Byte>, tokens: seq<Token>)
      requires WellFormed(input, tokens)
      ensures Valid()
      ensures this.input == input && this.tokens == tokens && pos == 0
    {
      this.input := input;
      this.tokens := tokens;
      pos := 0;
      cursor := None;
    }

    function Peek1(): (t: Option<Token>)
      reads this
      ensures t == Peek(tokens, pos)
    {
      if pos < |tokens| then Some(tokens[pos]) else None
    }

    /** Consumes the peeked token and applies it to the cursor. */
    method ConsumePeeked()
      requires Valid() && pos < |tokens|
      modifies this
      ensures Valid() && pos == old(pos) + 1
    {
      cursor := Apply(cursor, tokens[pos]);
      pos := pos + 1;
    }

    function PeekNextChar(): (c: Option<Byte>)
      requires Valid()
      reads this
      ensures c == NextCharAhead(input, tokens, pos)
    {
      if pos < |tokens| then
        match tokens[pos]
        case CharAt(i) => (assert TokenFits(input, tokens, pos); Some(input[i]))
        case NextChar => (assert TokenFits(input, tokens, pos); Some(input[cursor.value + 1]))
        case _ => None
      else None
    }

    /** `must_take_from_mapper_and_apply_to_cursor(n)`: the caller has seen
        that `n` more tokens exist. */
    method MustTake(n: nat)
      requires Valid() && pos + n <= |tokens|
      modifies this
      ensures Valid() && pos == old(pos) + n
    {
      var i := 0;
      while i < n
        invariant 0 <= i <= n
        invariant Valid() && pos == old(pos) + i
      {
        ConsumePeeked();
        i := i + 1;
      }
    }

    /** `drop_from_mapper_while_char(_with_maximum)`: consumes the run of
        character tokens equal to `c`, at most `max` of them. */
    method DropWhileChar(c: Byte, max: Option<nat>) returns (dropped: nat)
      requires Valid()
      modifies this
      ensures Valid()
      ensures dropped == DropCount(input, tokens, old(pos), c, max)
      ensures pos == old(pos) + dropped
    {
      dropped := 0;
      while (max.None? || dropped < max.value) && PeekNextChar() == Some(c)
        invariant Valid() && pos == old(pos) + dropped
        invariant max.Some? ==> dropped <= max.value
        invariant DropCount(input, tokens, old(pos), c, max)
                  == dropped + DropCount(input, tokens, pos, c, Remaining(max, dropped))
        decreases |tokens| - pos
      {
        ConsumePeeked();
        dropped := dropped + 1;
      }
    }

    /** `take_from_mapper_and_apply_to_cursor_if_applied_cursor_satisfies`
        with the test the root parser passes: the next token is a space or a
        tab character. */
    method TakeIfSpace() returns (taken: bool)
      requires Valid()
      modifies this
      ensures Valid()
      ensures taken == IsSpaceAhead(input, tokens, old(pos))
      ensures pos == old(pos) + (if taken then 1 else 0)
    {
      var c := PeekNextChar();
      if c.Some? && IsSpaceChar(c.value) {
        ConsumePeeked();
        taken := true;
      } else {
        taken := false;
      }
    }
  }

  /** The maximum left after `k` drops. */
  function Remaining(max: Option<nat>, k: nat): Option<nat>
    requires max.Some? ==> k <= max.value
  {
    if max.Some? then Some(max.value - k) else None
  }

  /** `is_space_char`: a space or a tab. */
  predicate IsSpaceChar(c: Byte) { c == SPACE || c == TAB }

  predicate IsSpaceAhead(input: seq<Byte>, tokens: seq<Token>, pos: nat)
    requires WellFormed(input, tokens)
  {
    var c := NextCharAhead(input, tokens, pos);
    c.Some? && IsSpaceChar(c.value)
  }
}
