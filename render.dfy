/** `render_to_html` of `rust/rotext/src/lib.rs` and its two escapers. The
    renderer walks the blended event stream once, writing opening tags and
    pushing the matching closing tag on a stack that `Exit` pops. */
module Render {
  import opened Common

  datatype BlendEvent =
    | LineBreak
    | Text(content: Range)
    | Exit
    | Separator
    | EnterParagraph
    | ThematicBreak
    | EnterHeading1
    | EnterHeading2
    | EnterHeading3
    | EnterHeading4
    | EnterHeading5
    | EnterHeading6
    | EnterCodeBlock

  /** The two escapers: one for element text, one for a double-quoted
      attribute value. */
  datatype Escaper = HtmlText | DoubleQuotedAttribute

  /** The character the escaper must not let through unescaped. */
  function Special(esc: Escaper): char
  {
    if esc == HtmlText then '<' else '"'
  }

  function EscapeChar(esc: Escaper, c: char): (s: string)
    ensures Special(esc) !in s
    ensures c != Special(esc) && c != '&' ==> s == [c]
  {
    if c == '&' then "&amp;"
    else if esc == HtmlText && c == '<' then "&lt;"
    else if esc == DoubleQuotedAttribute && c == '"' then "&quot;"
    else [c]
  }

  /** The escaped form of `s`: each character escaped in turn. */
  function Escape(esc: Escaper, s: string): (r: string)
    ensures |r| >= |s|
  {
    if s == [] then "" else EscapeChar(esc, s[0]) + Escape(esc, s[1..])
  }

  lemma {:induction false} EscapeAppend(esc: Escaper, a: string, b: string)
    ensures Escape(esc, a + b) == Escape(esc, a) + Escape(esc, b)
    decreases |a|
  {
    if a == [] {
      assert a + b == b;
    } else {
      assert (a + b)[0] == a[0] && (a + b)[1..] == a[1..] + b;
      EscapeAppend(esc, a[1..], b);
    }
  }

  lemma EscapeSnoc(esc: Escaper, s: string, c: char)
    ensures Escape(esc, s + [c]) == Escape(esc, s) + EscapeChar(esc, c)
  {
    assert [c][1..] == [] && Escape(esc, [c]) == EscapeChar(esc, c);
    EscapeAppend(esc, s, [c]);
  }

  /** One turn of the escaping loop keeps its invariant. */
  lemma EscapeStep(esc: Escaper, dest: string, input: string, i: nat, before: string, out: string)
    requires i < |input|
    requires before == dest + Escape(esc, input[..i]) && out == before + EscapeChar(esc, input[i])
    ensures out == dest + Escape(esc, input[..i + 1])
  {
    calc {
      dest + Escape(esc, input[..i + 1]);
      { assert input[..i + 1] == input[..i] + [input[i]]; }
      dest + Escape(esc, input[..i] + [input[i]]);
      { EscapeSnoc(esc, input[..i], input[i]); }
      dest + (Escape(esc, input[..i]) + EscapeChar(esc, input[i]));
      out;
    }
  }

  /** `write_escaped_html_text` and `write_escaped_double_quoted_attribute_value`:
      the escaped input is appended to `dest`, which is otherwise kept. */
  method WriteEscaped(esc: Escaper, dest: string, input: string) returns (out: string)
    ensures out == dest + Escape(esc, input)
  {
    out := dest;
    var i := 0;
    while i < |input|
      invariant 0 <= i <= |input|
      invariant out == dest + Escape(esc, input[..i])
    {
      var c := input[i];
      ghost var before := out;
      if c == '&' {
        out := out + "&amp;";
      } else if esc == HtmlText && c == '<' {
        out := out + "&lt;";
      } else if esc == DoubleQuotedAttribute && c == '"' {
        out := out + "&quot;";
      } else {
        out := out + [c];
      }
      assert out == before + EscapeChar(esc, c);
      EscapeStep(esc, dest, input, i, before, out);
      i := i + 1;
    }
    assert input[..i] == input;
  }

  /** The escaped text never contains the escaper's special character. */
  lemma {:induction false} EscapeHasNoSpecial(esc: Escaper, s: string)
    ensures Special(esc) !in Escape(esc, s)
    decreases |s|
  {
    if s != [] {
      EscapeHasNoSpecial(esc, s[1..]);
    }
  }

  /** Text without '&' and without the special character is copied as is. */
  lemma {:induction false} EscapeIdentity(esc: Escaper, s: string)
    requires forall i :: 0 <= i < |s| ==> s[i] != '&' && s[i] != Special(esc)
    ensures Escape(esc, s) == s
    decreases |s|
  {
    if s != [] {
      EscapeIdentity(esc, s[1..]);
      assert [s[0]] + s[1..] == s;
    }
  }

  /** Decodes the entities the escaper writes. */
  function Unescape(esc: Escaper, s: string): string
    decreases |s|
  {
    if |s| >= 5 && s[..5] == "&amp;" then "&" + Unescape(esc, s[5..])
    else if esc == HtmlText && |s| >= 4 && s[..4] == "&lt;" then "<" + Unescape(esc, s[4..])
    else if esc == DoubleQuotedAttribute && |s| >= 6 && s[..6] == "&quot;" then "\"" + Unescape(esc, s[6..])
    else if s == [] then ""
    else [s[0]] + Unescape(esc, s[1..])
  }

  /** Escaping loses nothing: decoding the entities gives the text back. */
  lemma {:induction false} UnescapeEscape(esc: Escaper, s: string)
    ensures Unescape(esc, Escape(esc, s)) == s
    decreases |s|
  {
    if s != [] {
      UnescapeEscape(esc, s[1..]);
      UnescapeChar(esc, s[0], Escape(esc, s[1..]));
      assert [s[0]] + s[1..] == s;
    }
  }

  /** Decoding an escaped character gives the character back, whatever
      follows it. */
  lemma UnescapeChar(esc: Escaper, c: char, tail: string)
    ensures Unescape(esc, EscapeChar(esc, c) + tail) == [c] + Unescape(esc, tail)
  {
    if c == '&' {
      UnescapeAmp(esc, tail);
    } else if esc == HtmlText && c == '<' {
      UnescapeLt(tail);
    } else if esc == DoubleQuotedAttribute && c == '"' {
      UnescapeQuot(tail);
    } else {
      UnescapePlain(esc, c, tail);
    }
  }

  lemma UnescapeAmp(esc: Escaper, tail: string)
    ensures Unescape(esc, "&amp;" + tail) == "&" + Unescape(esc, tail)
  {
    var t := "&amp;" + tail;
    assert t[..5] == "&amp;" && t[5..] == tail;
  }

  lemma UnescapeLt(tail: string)
    ensures Unescape(HtmlText, "&lt;" + tail) == "<" + Unescape(HtmlText, tail)
  {
    var t := "&lt;" + tail;
    assert |t| >= 5 ==> t[..5][1] == 'l';
    assert t[..4] == "&lt;" && t[4..] == tail;
  }

  lemma UnescapeQuot(tail: string)
    ensures Unescape(DoubleQuotedAttribute, "&quot;" + tail) == "\"" + Unescape(DoubleQuotedAttribute, tail)
  {
    var t := "&quot;" + tail;
    assert t[..5][1] == 'q';
    assert t[..6] == "&quot;" && t[6..] == tail;
  }

  lemma UnescapePlain(esc: Escaper, c: char, tail: string)
    requires c != '&' && c != Special(esc)
    ensures Unescape(esc, [c] + tail) == [c] + Unescape(esc, tail)
  {
    var t := [c] + tail;
    assert t[0] == c && t[1..] == tail;
    assert |t| >= 5 ==> t[..5][0] == c;
    assert |t| >= 4 ==> t[..4][0] == c;
    assert |t| >= 6 ==> t[..6][0] == c;
  }

  /** The text of a `Text` event, as `Range::content` gives it. */
  predicate InBounds(events: seq<BlendEvent>, input: seq<Byte>) {
    forall i :: 0 <= i < |events| ==> events[i].Text? ==> events[i].content.InBounds(input)
  }

  /** The opening and closing tag of a block that `Exit` closes later. */
  predicate IsContainer(e: BlendEvent) {
    e.EnterParagraph? || e.EnterHeading1? || e.EnterHeading2? || e.EnterHeading3?
      || e.EnterHeading4? || e.EnterHeading5? || e.EnterHeading6?
  }

  function OpenTag(e: BlendEvent): string
    requires IsContainer(e)
  {
    match e
    case EnterParagraph => "<p>"
    case EnterHeading1 => "<h1>"
    case EnterHeading2 => "<h2>"
    case EnterHeading3 => "<h3>"
    case EnterHeading4 => "<h4>"
    case EnterHeading5 => "<h5>"
    case EnterHeading6 => "<h6>"
  }

  function CloseTag(e: BlendEvent): string
    requires IsContainer(e)
  {
    match e
    case EnterParagraph => "</p>"
    case EnterHeading1 => "</h1>"
    case EnterHeading2 => "</h2>"
    case EnterHeading3 => "</h3>"
    case EnterHeading4 => "</h4>"
    case EnterHeading5 => "</h5>"
    case EnterHeading6 => "</h6>"
  }

  const CODE_BLOCK_OPEN := "<x-code-block info-string=\""
  const CODE_BLOCK_CLOSE := "</x-code-block>"

  /** What rendering leaves: the output and the closing tags not yet
      written, innermost last; or a panic. */
  datatype Outcome = Rendered(html: string, stack: seq<string>) | Panicked

  /** Renders `events` after `html` has been written with `stack` open. */
  function Go(input: seq<Byte>, events: seq<BlendEvent>, html: string, stack: seq<string>): Outcome
    requires InBounds(events, input)
    decreases |events|, 1
  {
    if events == [] then Rendered(html, stack)
    else
      assert InBounds(events[1..], input);
      var rest := events[1..];
      match events[0]
      case LineBreak => Go(input, rest, html + "<br>", stack)
      case Text(r) => Go(input, rest, html + Escape(HtmlText, Common.Text(r, input)), stack)
      case Exit =>
        if stack == [] then Panicked
        else Go(input, rest, html + stack[|stack| - 1], stack[..|stack| - 1])
      case Separator => Panicked
      case ThematicBreak => Go(input, rest, html + "<hr>", stack)
      case EnterCodeBlock => Info(input, rest, html + CODE_BLOCK_OPEN, stack + [CODE_BLOCK_CLOSE])
      case _ => Go(input, rest, html + OpenTag(events[0]), stack + [CloseTag(events[0])])
  }

  /** Inside the info string of a code block: `Text` is written as an
      attribute value until `Separator` closes the attribute; the end of the
      stream or any other event there panics. */
  function Info(input: seq<Byte>, events: seq<BlendEvent>, html: string, stack: seq<string>): Outcome
    requires InBounds(events, input)
    decreases |events|, 0
  {
    if events == [] then Panicked
    else
      assert InBounds(events[1..], input);
      match events[0]
      case Text(r) => Info(input, events[1..], html + Escape(DoubleQuotedAttribute, Common.Text(r, input)), stack)
      case Separator => Go(input, events[1..], html + "\">", stack)
      case _ => Panicked
  }

  /** `render_to_html`. The closing tags of blocks still open when the
      stream ends are not written. */
  method RenderToHtml(input: seq<Byte>, events: seq<BlendEvent>) returns (result: string)
    requires InBounds(events, input)
    requires Go(input, events, "", []).Rendered?
    ensures result == Go(input, events, "", []).html
  {
    result := "";
    var stack: seq<string> := [];
    var i := 0;
    while i < |events|
      invariant 0 <= i <= |events|
      invariant InBounds(events[i..], input)
      invariant Go(input, events[i..], result, stack) == Go(input, events, "", [])
    {
      var ev := events[i];
      assert events[i..][1..] == events[i + 1..];
      i := i + 1;
      match ev {
        case LineBreak => result := result + "<br>";
        case Text(r) => result := WriteEscaped(HtmlText, result, Common.Text(r, input));
        case Exit =>
          result := result + stack[|stack| - 1];
          stack := stack[..|stack| - 1];
        case Separator => assert false;
        case EnterParagraph =>
          stack := stack + ["</p>"];
          result := result + "<p>";
        case ThematicBreak => result := result + "<hr>";
        case EnterHeading1 =>
          stack := stack + ["</h1>"];
          result := result + "<h1>";
        case EnterHeading2 =>
          stack := stack + ["</h2>"];
          result := result + "<h2>";
        case EnterHeading3 =>
          stack := stack + ["</h3>"];
          result := result + "<h3>";
        case EnterHeading4 =>
          stack := stack + ["</h4>"];
          result := result + "<h4>";
        case EnterHeading5 =>
          stack := stack + ["</h5>"];
          result := result + "<h5>";
        case EnterHeading6 =>
          stack := stack + ["</h6>"];
          result := result + "<h6>";
        case EnterCodeBlock =>
          stack := stack + [CODE_BLOCK_CLOSE];
          result := result + CODE_BLOCK_OPEN;
          while true
            invariant 0 <= i <= |events|
            invariant InBounds(events[i..], input)
            invariant Info(input, events[i..], result, stack) == Go(input, events, "", [])
            decreases |events| - i
          {
            assert i < |events|;
            var infoEv := events[i];
            assert events[i..][1..] == events[i + 1..];
            i := i + 1;
            match infoEv {
              case Text(r) => result := WriteEscaped(DoubleQuotedAttribute, result, Common.Text(r, input));
              case Separator => break;
              case _ => assert false;
            }
          }
          result := result + "\">";
      }
    }
  }

  /** Whether a stream rendered with `depth` blocks open runs to its end
      without a panic: no `Exit` below depth 0, no `Separator` outside a code
      block's info string, and every info string closed by a `Separator`. */
  predicate Fits(events: seq<BlendEvent>, depth: nat)
    decreases |events|, 1
  {
    if events == [] then true
    else
      match events[0]
      case Exit => depth > 0 && Fits(events[1..], depth - 1)
      case Separator => false
      case EnterCodeBlock => InfoFits(events[1..], depth + 1)
      case LineBreak => Fits(events[1..], depth)
      case Text(_) => Fits(events[1..], depth)
      case ThematicBreak => Fits(events[1..], depth)
      case _ => Fits(events[1..], depth + 1)
  }

  predicate InfoFits(events: seq<BlendEvent>, depth: nat)
    decreases |events|, 0
  {
    events != [] &&
    match events[0]
    case Text(_) => InfoFits(events[1..], depth)
    case Separator => Fits(events[1..], depth)
    case _ => false
  }

  /** Rendering never panics exactly when the stream fits the depth of the
      stack it starts from; the stack then only grows and shrinks by the
      stream's own blocks. */
  lemma {:induction false} GoFits(input: seq<Byte>, events: seq<BlendEvent>, html: string, stack: seq<string>)
    requires InBounds(events, input)
    ensures Go(input, events, html, stack).Rendered? <==> Fits(events, |stack|)
    decreases |events|, 1
  {
    if events != [] {
      assert InBounds(events[1..], input);
      match events[0] {
        case EnterCodeBlock => InfoFitsIff(input, events[1..], html + CODE_BLOCK_OPEN, stack + [CODE_BLOCK_CLOSE]);
        case Exit =>
          if stack != [] {
            GoFits(input, events[1..], html + stack[|stack| - 1], stack[..|stack| - 1]);
          }
        case Separator =>
        case LineBreak => GoFits(input, events[1..], html + "<br>", stack);
        case Text(r) => GoFits(input, events[1..], html + Escape(HtmlText, Common.Text(r, input)), stack);
        case ThematicBreak => GoFits(input, events[1..], html + "<hr>", stack);
        case _ => GoFits(input, events[1..], html + OpenTag(events[0]), stack + [CloseTag(events[0])]);
      }
    }
  }

  lemma {:induction false} InfoFitsIff(input: seq<Byte>, events: seq<BlendEvent>, html: string, stack: seq<string>)
    requires InBounds(events, input)
    ensures Info(input, events, html, stack).Rendered? <==> InfoFits(events, |stack|)
    decreases |events|, 0
  {
    if events != [] {
      assert InBounds(events[1..], input);
      match events[0] {
        case Text(r) => InfoFitsIff(input, events[1..], html + Escape(DoubleQuotedAttribute, Common.Text(r, input)), stack);
        case Separator => GoFits(input, events[1..], html + "\">", stack);
        case _ =>
      }
    }
  }

  /** Rendering a prefix that completes, then the rest, is rendering the
      whole stream. */
  lemma {:induction false} GoAppend(input: seq<Byte>, a: seq<BlendEvent>, b: seq<BlendEvent>, html: string, stack: seq<string>)
    requires InBounds(a + b, input)
    requires InBounds(a, input) && Go(input, a, html, stack).Rendered?
    ensures InBounds(b, input)
    ensures Go(input, a + b, html, stack) == Go(input, b, Go(input, a, html, stack).html, Go(input, a, html, stack).stack)
    decreases |a|, 1
  {
    assert forall i :: 0 <= i < |b| ==> b[i] == (a + b)[|a| + i];
    if a == [] {
      assert a + b == b;
    } else {
      assert (a + b)[0] == a[0] && (a + b)[1..] == a[1..] + b;
      assert InBounds(a[1..], input);
      match a[0] {
        case EnterCodeBlock => InfoAppend(input, a[1..], b, html + CODE_BLOCK_OPEN, stack + [CODE_BLOCK_CLOSE]);
        case Exit => GoAppend(input, a[1..], b, html + stack[|stack| - 1], stack[..|stack| - 1]);
        case LineBreak => GoAppend(input, a[1..], b, html + "<br>", stack);
        case Text(r) => GoAppend(input, a[1..], b, html + Escape(HtmlText, Common.Text(r, input)), stack);
        case ThematicBreak => GoAppend(input, a[1..], b, html + "<hr>", stack);
        case Separator => assert false;
        case _ => GoAppend(input, a[1..], b, html + OpenTag(a[0]), stack + [CloseTag(a[0])]);
      }
    }
  }

  lemma {:induction false} InfoAppend(input: seq<Byte>, a: seq<BlendEvent>, b: seq<BlendEvent>, html: string, stack: seq<string>)
    requires InBounds(a + b, input)
    requires InBounds(a, input) && Info(input, a, html, stack).Rendered?
    ensures InBounds(b, input)
    ensures Info(input, a + b, html, stack) == Go(input, b, Info(input, a, html, stack).html, Info(input, a, html, stack).stack)
    decreases |a|, 0
  {
    assert forall i :: 0 <= i < |b| ==> b[i] == (a + b)[|a| + i];
    assert (a + b)[0] == a[0] && (a + b)[1..] == a[1..] + b;
    assert InBounds(a[1..], input);
    match a[0] {
      case Text(r) => InfoAppend(input, a[1..], b, html + Escape(DoubleQuotedAttribute, Common.Text(r, input)), stack);
      case Separator => GoAppend(input, a[1..], b, html + "\">", stack);
    }
  }

  /** Rendering does not look at what was written before nor at the blocks
      opened before: with output `prefix` in front and tags `outer` below,
      the same stream writes the same text and leaves the same tags on top. */
  lemma {:induction false} GoFrame(input: seq<Byte>, events: seq<BlendEvent>, html: string, stack: seq<string>,
                                   prefix: string, outer: seq<string>)
    requires InBounds(events, input)
    requires Go(input, events, html, stack).Rendered?
    ensures Go(input, events, prefix + html, outer + stack)
         == Rendered(prefix + Go(input, events, html, stack).html, outer + Go(input, events, html, stack).stack)
    decreases |events|, 1
  {
    if events != [] {
      assert InBounds(events[1..], input);
      match events[0] {
        case EnterCodeBlock =>
          assert outer + stack + [CODE_BLOCK_CLOSE] == outer + (stack + [CODE_BLOCK_CLOSE]);
          assert prefix + html + CODE_BLOCK_OPEN == prefix + (html + CODE_BLOCK_OPEN);
          InfoFrame(input, events[1..], html + CODE_BLOCK_OPEN, stack + [CODE_BLOCK_CLOSE], prefix, outer);
        case Exit =>
          var all := outer + stack;
          assert all[|all| - 1] == stack[|stack| - 1];
          assert all[..|all| - 1] == outer + stack[..|stack| - 1];
          assert prefix + html + stack[|stack| - 1] == prefix + (html + stack[|stack| - 1]);
          GoFrame(input, events[1..], html + stack[|stack| - 1], stack[..|stack| - 1], prefix, outer);
        case Separator => assert false;
        case LineBreak =>
          assert prefix + html + "<br>" == prefix + (html + "<br>");
          GoFrame(input, events[1..], html + "<br>", stack, prefix, outer);
        case Text(r) =>
          var t := Escape(HtmlText, Common.Text(r, input));
          assert prefix + html + t == prefix + (html + t);
          GoFrame(input, events[1..], html + t, stack, prefix, outer);
        case ThematicBreak =>
          assert prefix + html + "<hr>" == prefix + (html + "<hr>");
          GoFrame(input, events[1..], html + "<hr>", stack, prefix, outer);
        case _ =>
          var o, c := OpenTag(events[0]), CloseTag(events[0]);
          assert outer + stack + [c] == outer + (stack + [c]);
          assert prefix + html + o == prefix + (html + o);
          GoFrame(input, events[1..], html + o, stack + [c], prefix, outer);
      }
    }
  }

  lemma {:induction false} InfoFrame(input: seq<Byte>, events: seq<BlendEvent>, html: string, stack: seq<string>,
                                     prefix: string, outer: seq<string>)
    requires InBounds(events, input)
    requires Info(input, events, html, stack).Rendered?
    ensures Info(input, events, prefix + html, outer + stack)
         == Rendered(prefix + Info(input, events, html, stack).html, outer + Info(input, events, html, stack).stack)
    decreases |events|, 0
  {
    assert InBounds(events[1..], input);
    match events[0] {
      case Text(r) =>
        var t := Escape(DoubleQuotedAttribute, Common.Text(r, input));
        assert prefix + html + t == prefix + (html + t);
        InfoFrame(input, events[1..], html + t, stack, prefix, outer);
      case Separator =>
        assert prefix + html + "\">" == prefix + (html + "\">");
        GoFrame(input, events[1..], html + "\">", stack, prefix, outer);
    }
  }

  lemma InBoundsConcat(input: seq<Byte>, a: seq<BlendEvent>, b: seq<BlendEvent>)
    requires InBounds(a, input) && InBounds(b, input)
    ensures InBounds(a + b, input)
  {
    forall i | 0 <= i < |a + b|
      ensures (a + b)[i].Text? ==> (a + b)[i].content.InBounds(input)
    {
      if i >= |a| {
        assert (a + b)[i] == b[i - |a|];
      }
    }
  }

  /** A balanced body followed by `Exit`, rendered after `pre` with the
      closing tag `c` open, writes the body and then `c`. */
  lemma ClosedBody(input: seq<Byte>, body: seq<BlendEvent>, pre: string, c: string)
    requires InBounds(body, input)
    requires Go(input, body, "", []).Rendered? && Go(input, body, "", []).stack == []
    ensures InBounds(body + [Exit], input)
    ensures Go(input, body + [Exit], pre, [c]) == Rendered(pre + Go(input, body, "", []).html + c, [])
  {
    var h := Go(input, body, "", []).html;
    InBoundsConcat(input, body, [Exit]);
    GoFrame(input, body, "", [], pre, [c]);
    assert pre + "" == pre && [c] + [] == [c];
    assert Go(input, body, pre, [c]) == Rendered(pre + h, [c]);
    GoAppend(input, body, [Exit], pre, [c]);
    assert Go(input, body + [Exit], pre, [c]) == Go(input, [Exit], pre + h, [c]);
    assert [Exit][1..] == [] && [c][..0] == [];
  }

  /** Tags are well nested: a paragraph or heading around a stream that
      closes what it opens renders as the opening tag, the inner output and
      the matching closing tag. */
  lemma ContainerNesting(input: seq<Byte>, e: BlendEvent, inner: seq<BlendEvent>)
    requires IsContainer(e) && InBounds(inner, input)
    requires Go(input, inner, "", []).Rendered? && Go(input, inner, "", []).stack == []
    ensures InBounds([e] + inner + [Exit], input)
    ensures Go(input, [e] + inner + [Exit], "", [])
         == Rendered(OpenTag(e) + Go(input, inner, "", []).html + CloseTag(e), [])
  {
    var o, c := OpenTag(e), CloseTag(e);
    ClosedBody(input, inner, o, c);
    InBoundsConcat(input, [e], inner + [Exit]);
    var events := [e] + (inner + [Exit]);
    assert events == [e] + inner + [Exit];
    assert events[0] == e && events[1..] == inner + [Exit];
    assert "" + o == o && [] + [c] == [c];
    assert Go(input, events, "", []) == Go(input, inner + [Exit], o, [c]);
  }

  /** The attribute text the `Text` events of an info string write. */
  function InfoText(input: seq<Byte>, infos: seq<BlendEvent>): string
    requires InBounds(infos, input)
  {
    if infos == [] || !infos[0].Text? then ""
    else
      assert InBounds(infos[1..], input);
      Escape(DoubleQuotedAttribute, Common.Text(infos[0].content, input)) + InfoText(input, infos[1..])
  }

  lemma {:induction false} InfoTexts(input: seq<Byte>, infos: seq<BlendEvent>, rest: seq<BlendEvent>, html: string, stack: seq<string>)
    requires forall i :: 0 <= i < |infos| ==> infos[i].Text?
    requires InBounds(infos, input) && InBounds(rest, input)
    ensures InBounds(infos + rest, input)
    ensures Info(input, infos + rest, html, stack) == Info(input, rest, html + InfoText(input, infos), stack)
    decreases |infos|
  {
    InBoundsConcat(input, infos, rest);
    if infos == [] {
      assert infos + rest == rest && html + InfoText(input, infos) == html;
    } else {
      var all := infos + rest;
      assert all[0] == infos[0] && all[1..] == infos[1..] + rest;
      assert InBounds(infos[1..], input);
      var t := Escape(DoubleQuotedAttribute, Common.Text(infos[0].content, input));
      InfoTexts(input, infos[1..], rest, html + t, stack);
      calc {
        Info(input, all, html, stack);
        Info(input, infos[1..] + rest, html + t, stack);
        Info(input, rest, html + t + InfoText(input, infos[1..]), stack);
        { AppendAssoc(html, t, InfoText(input, infos[1..])); }
        Info(input, rest, html + InfoText(input, infos), stack);
      }
    }
  }

  /** The `Separator` that ends an info string closes the attribute and
      hands the rest to the ordinary renderer. */
  lemma SeparatorThenBody(input: seq<Byte>, body: seq<BlendEvent>, html: string, stack: seq<string>)
    requires InBounds(body, input)
    ensures InBounds([Separator] + body, input)
    ensures Info(input, [Separator] + body, html, stack) == Go(input, body, html + "\">", stack)
  {
    InBoundsConcat(input, [Separator], body);
    var events := [Separator] + body;
    assert events[0] == Separator && events[1..] == body;
  }

  /** A code block renders as the element with its info string escaped into
      the attribute, then the code, then the closing tag. */
  lemma CodeBlockNesting(input: seq<Byte>, infos: seq<BlendEvent>, code: seq<BlendEvent>)
    requires forall i :: 0 <= i < |infos| ==> infos[i].Text?
    requires InBounds(infos, input) && InBounds(code, input)
    requires Go(input, code, "", []).Rendered? && Go(input, code, "", []).stack == []
    ensures InBounds([EnterCodeBlock] + infos + [Separator] + code + [Exit], input)
    ensures Go(input, [EnterCodeBlock] + infos + [Separator] + code + [Exit], "", [])
         == Rendered(CODE_BLOCK_OPEN + InfoText(input, infos) + "\">" + Go(input, code, "", []).html + CODE_BLOCK_CLOSE, [])
  {
    var c := CODE_BLOCK_CLOSE;
    var attr := CODE_BLOCK_OPEN + InfoText(input, infos);
    ClosedBody(input, code, attr + "\">", c);
    SeparatorThenBody(input, code + [Exit], attr, [c]);
    var tail := [Separator] + (code + [Exit]);
    InfoTexts(input, infos, tail, CODE_BLOCK_OPEN, [c]);
    InBoundsConcat(input, [EnterCodeBlock], infos + tail);
    var events := [EnterCodeBlock] + (infos + tail);
    AppendAssoc([Separator], code, [Exit]);
    AppendAssoc(infos, [Separator] + code, [Exit]);
    AppendAssoc(infos, [Separator], code);
    AppendAssoc([EnterCodeBlock], infos + [Separator] + code, [Exit]);
    AppendAssoc([EnterCodeBlock], infos + [Separator], code);
    AppendAssoc([EnterCodeBlock], infos, [Separator]);
    assert events == [EnterCodeBlock] + infos + [Separator] + code + [Exit];
    assert events[0] == EnterCodeBlock && events[1..] == infos + tail;
    assert "" + CODE_BLOCK_OPEN == CODE_BLOCK_OPEN && [] + [c] == [c];
    assert Go(input, events, "", []) == Info(input, infos + tail, CODE_BLOCK_OPEN, [c]);
  }
}
