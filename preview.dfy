/** The playground's preview pane (`Preview/mod.tsx`): the lookup list built
    from the `data-sourcemap` attributes of the rendered document, the scroll
    synchronisation with the editor through the origin-tagged top line, and
    the geometry of the active-lines highlight.

    The DOM and the `ScrollUtils` helpers are not modelled: what they measure
    or compute arrives as parameters (the `*Env` records below). */
module Preview {
  import opened Common
  import opened Strings

  // ---------------------------------------------------------------- lookup list

  /** What `Number(x)` gives for one piece of a sourcemap attribute: a line
      number for a decimal numeral (the empty string counts as 0), `NaN` for
      a missing piece, and, for any other text, a value this model does not
      compute. */
  datatype JsNumber = Num(value: nat) | NaN | Unread(text: string)

  function ToNumber(piece: Option<string>): (n: JsNumber)
    ensures piece.None? <==> n == NaN
    ensures piece.Some? && AllDigits(piece.value) ==> n == Num(DigitsValue(piece.value))
    ensures n.Unread? ==> piece.Some? && !AllDigits(piece.value)
  {
    match piece
    case None => NaN
    case Some(s) => if AllDigits(s) then Num(DigitsValue(s)) else Unread(s)
  }

  /** One raw lookup-list entry: the element (its position among the
      `[data-sourcemap]` elements, in document order) and its line range. */
  datatype RawEntry = RawEntry(element: nat, startLine: JsNumber, endLine: JsNumber)

  /** The entry of the `index`-th element, whose attribute is `sourcemap`:
      the start is the piece before the first '-', and the end the piece
      between the first '-' and the next one (or the end of the string), as
      JavaScript's array destructuring of `split("-")` gives. */
  function EntryOf(index: nat, sourcemap: string): (e: RawEntry)
    ensures e.element == index
  {
    var pieces := Split(sourcemap, '-');
    RawEntry(index, ToNumber(Some(pieces[0])), ToNumber(if |pieces| > 1 then Some(pieces[1]) else None))
  }

  /** `!html`: no document, or an empty one. */
  predicate Falsy(html: Option<string>) { html.None? || html.value == "" }

  /** The document-rendering effect's list building: an empty document gives
      the empty list; otherwise every element carrying a sourcemap gives one
      entry, in document order. `sourcemaps` are the attributes of the
      morphed document. */
  method BuildLookupListRaw(html: Option<string>, sourcemaps: seq<string>) returns (raw: seq<RawEntry>)
    ensures Falsy(html) ==> raw == []
    ensures !Falsy(html) ==> |raw| == |sourcemaps| && forall i :: 0 <= i < |raw| ==> raw[i] == EntryOf(i, sourcemaps[i])
  {
    if Falsy(html) {
      return [];
    }
    raw := [];
    var i := 0;
    while i < |sourcemaps|
      invariant 0 <= i <= |sourcemaps|
      invariant |raw| == i
      invariant forall k :: 0 <= k < i ==> raw[k] == EntryOf(k, sourcemaps[k])
    {
      var pieces := Split(sourcemaps[i], '-');
      var startLnStr := pieces[0];
      var endLnStr := if |pieces| > 1 then Some(pieces[1]) else None;
      raw := raw + [RawEntry(i, ToNumber(Some(startLnStr)), ToNumber(endLnStr))];
      i := i + 1;
    }
  }

  /** An attribute "a-b", as written for a block spanning lines a to b,
      reads back as that line range. */
  lemma SourcemapRoundTrip(index: nat, a: nat, b: nat)
    ensures EntryOf(index, DecimalString(a) + "-" + DecimalString(b)) == RawEntry(index, Num(a), Num(b))
  {
    var sa, sb := DecimalString(a), DecimalString(b);
    assert sa + "-" + sb == sa + ['-'] + sb;
    DigitsHaveNoSep(sa, '-');
    DigitsHaveNoSep(sb, '-');
    SplitAfterPiece(sa, sb, '-');
    SplitNoSep(sb, '-');
    DecimalRoundTrip(a);
    DecimalRoundTrip(b);
  }

  /** An attribute without '-' has no end line: `Number(undefined)` is NaN. */
  lemma SourcemapWithoutEnd(index: nat, a: nat)
    ensures EntryOf(index, DecimalString(a)) == RawEntry(index, Num(a), NaN)
  {
    DigitsHaveNoSep(DecimalString(a), '-');
    SplitNoSep(DecimalString(a), '-');
    DecimalRoundTrip(a);
  }

  // ---------------------------------------------------------------- scroll sync

  /** The top line's number: a line, or infinity, with which the editor asks
      the preview to scroll to its bottom. */
  datatype LineNumber = Finite(line: int) | Infinity

  /** Who wrote the top line last. */
  datatype Origin = Editor | PreviewPane

  datatype TopLine = TopLine(number: LineNumber, setFrom: Option<Origin>)

  /** `scrollToLine`'s verdict. */
  datatype ScrollResult = Scrolled | NotScrolled

  /** What `scrollToTopLine` reads from the page: the lookup list's length,
      `scrollHeight - offsetHeight` of the scroll container, the line that
      `getScrollLocalByY` and `scrollLocalToLine` give for that offset, and
      what `scrollToLine` returns and leaves in `wasAtBottom`. */
  datatype ScrollEnv = ScrollEnv(
    listLength: nat, maxTop: real, lineAtMaxTop: int,
    scrollResult: ScrollResult, wasAtBottomAfter: bool)

  /** What `handleScroll` reads: the lookup list's length, the line at the
      current scroll offset, and whether the pane is scrolled to its bottom. */
  datatype ScrollEventEnv = ScrollEventEnv(listLength: nat, line: int, atBottom: bool)

  /** The synchronisation state: the auto-scroll counter, the `wasAtBottom`
      signal, the shared top line, and the top lines this pane has written,
      oldest first. */
  datatype SyncState = SyncState(
    pendingAutoScrolls: nat, wasAtBottom: bool, topLine: TopLine, published: seq<TopLine>)

  /** `scrollToTopLine`. */
  function AfterScrollToTopLine(s: SyncState, env: ScrollEnv): (t: SyncState)
  {
    if s.topLine.setFrom.None? || s.topLine.setFrom == Some(PreviewPane) then s
    else if env.listLength == 0 then s
    else if s.topLine.number.Infinity? then
      if env.maxTop < 0.0 then s
      else
        var v := TopLine(Finite(env.lineAtMaxTop), Some(Editor));
        s.(topLine := v, published := s.published + [v])
    else
      s.(wasAtBottom := env.wasAtBottomAfter,
         pendingAutoScrolls := if env.scrollResult == Scrolled then s.pendingAutoScrolls + 1 else s.pendingAutoScrolls)
  }

  /** The effect on the top line: `scrollToTopLine`, run once more when it
      wrote the top line itself. */
  function TopLineEffect(s: SyncState, env: ScrollEnv): (t: SyncState)
  {
    var u := AfterScrollToTopLine(s, env);
    if |u.published| > |s.published| then AfterScrollToTopLine(u, env) else u
  }

  /** `handleScroll`. */
  function AfterHandleScroll(s: SyncState, env: ScrollEventEnv): (t: SyncState)
  {
    if s.pendingAutoScrolls > 0 then s.(pendingAutoScrolls := s.pendingAutoScrolls - 1)
    else if env.listLength == 0 then s
    else if env.atBottom && s.topLine.setFrom == Some(Editor) && AtOrBefore(env.line, s.topLine.number) then s
    else
      var v := TopLine(Finite(env.line), Some(PreviewPane));
      s.(topLine := v, published := s.published + [v])
  }

  /** `line <= number` for a JavaScript number that may be infinite. */
  predicate AtOrBefore(line: int, number: LineNumber) {
    number.Infinity? || line <= number.line
  }

  /** `scrollToTopLine` does nothing for a top line without origin or
      written by this pane, nor while the lookup list is empty. */
  lemma ScrollToTopLineIgnores(s: SyncState, env: ScrollEnv)
    requires s.topLine.setFrom != Some(Editor) || env.listLength == 0
    ensures AfterScrollToTopLine(s, env) == s
  {
    match s.topLine.setFrom {
      case None =>
      case Some(Editor) =>
      case Some(PreviewPane) =>
    }
  }

  /** A request for the bottom is turned into the line at the bottom, tagged
      as the editor's, and nothing is scrolled or counted; when the pane
      cannot scroll at all nothing happens. */
  lemma BottomRequestWritesBack(s: SyncState, env: ScrollEnv)
    requires s.topLine == TopLine(Infinity, Some(Editor)) && env.listLength > 0
    ensures env.maxTop < 0.0 ==> AfterScrollToTopLine(s, env) == s
    ensures env.maxTop >= 0.0 ==>
      var t := AfterScrollToTopLine(s, env);
      t.topLine == TopLine(Finite(env.lineAtMaxTop), Some(Editor)) &&
      t.published == s.published + [t.topLine] &&
      t.pendingAutoScrolls == s.pendingAutoScrolls && t.wasAtBottom == s.wasAtBottom
  {
  }

  /** The write-back re-runs the effect, which scrolls to the computed line:
      the counter grows by one exactly when that scroll happened. */
  lemma BottomRequestThenScroll(s: SyncState, env: ScrollEnv)
    requires s.topLine == TopLine(Infinity, Some(Editor)) && env.listLength > 0 && env.maxTop >= 0.0
    ensures TopLineEffect(s, env).topLine == TopLine(Finite(env.lineAtMaxTop), Some(Editor))
    ensures TopLineEffect(s, env).pendingAutoScrolls == s.pendingAutoScrolls + (if env.scrollResult == Scrolled then 1 else 0)
  {
  }

  /** The counter moves by at most one per call: up only when `scrollToLine`
      says it scrolled, down only from a positive value. */
  lemma CounterSteps(s: SyncState, env: ScrollEnv, ev: ScrollEventEnv)
    ensures var t := AfterScrollToTopLine(s, env);
      t.pendingAutoScrolls == s.pendingAutoScrolls ||
      (t.pendingAutoScrolls == s.pendingAutoScrolls + 1 && env.scrollResult == Scrolled)
    ensures var t := AfterHandleScroll(s, ev);
      if s.pendingAutoScrolls > 0 then t.pendingAutoScrolls == s.pendingAutoScrolls - 1
      else t.pendingAutoScrolls == 0
  {
  }

  /** While auto-scrolls are pending, a scroll event only uses one of them up
      and publishes nothing. */
  lemma PendingScrollSuppressed(s: SyncState, ev: ScrollEventEnv)
    requires s.pendingAutoScrolls > 0
    ensures AfterHandleScroll(s, ev) == s.(pendingAutoScrolls := s.pendingAutoScrolls - 1)
  {
  }

  /** `handleScroll` publishes the line at the scroll offset, tagged as the
      preview's, unless the list is empty or the pane sits at its bottom
      below a line the editor asked for; otherwise the top line is kept. */
  lemma HandleScrollPublishes(s: SyncState, ev: ScrollEventEnv)
    requires s.pendingAutoScrolls == 0
    ensures var t := AfterHandleScroll(s, ev);
      (ev.listLength > 0 && !(ev.atBottom && s.topLine.setFrom == Some(Editor) && AtOrBefore(ev.line, s.topLine.number)))
      <==> t.published == s.published + [TopLine(Finite(ev.line), Some(PreviewPane))]
    ensures var t := AfterHandleScroll(s, ev);
      t.published == s.published ==> t == s
  {
  }

  /** A top line the preview wrote does not come back to it: the effect that
      the write re-runs leaves the state alone. */
  lemma PreviewWriteDoesNotEcho(s: SyncState, ev: ScrollEventEnv, env: ScrollEnv)
    ensures var t := AfterHandleScroll(s, ev);
      TopLineEffect(t, env) == t || t.topLine == s.topLine
  {
  }

  /** One occurrence the synchronisation reacts to. */
  datatype SyncEvent =
    | TopLineChanged(env: ScrollEnv)
    | ScrollEvent(ev: ScrollEventEnv)
    | OutputResized(atBottom: bool)

  function Step(s: SyncState, e: SyncEvent): SyncState
  {
    match e
    case TopLineChanged(env) => TopLineEffect(s, env)
    case ScrollEvent(ev) => AfterHandleScroll(s, ev)
    case OutputResized(atBottom) => s.(wasAtBottom := atBottom)
  }

  /** Whether a `scrollToTopLine` run in state `s` scrolls the pane. */
  predicate ScrollsPane(s: SyncState, env: ScrollEnv) {
    s.topLine.setFrom == Some(Editor) && env.listLength > 0 && s.topLine.number.Finite? && env.scrollResult == Scrolled
  }

  /** The auto-scrolls a sequence of occurrences performs, and the scroll
      events it swallows. */
  function AutoScrolls(s: SyncState, es: seq<SyncEvent>): (n: nat)
    decreases |es|
  {
    if es == [] then 0
    else
      var here :=
        match es[0]
        case TopLineChanged(env) =>
          var u := AfterScrollToTopLine(s, env);
          (if ScrollsPane(s, env) then 1 else 0) +
          (if |u.published| > |s.published| && ScrollsPane(u, env) then 1 else 0)
        case _ => 0;
      here + AutoScrolls(Step(s, es[0]), es[1..])
  }

  function Swallowed(s: SyncState, es: seq<SyncEvent>): (n: nat)
    decreases |es|
  {
    if es == [] then 0
    else (if es[0].ScrollEvent? && s.pendingAutoScrolls > 0 then 1 else 0) + Swallowed(Step(s, es[0]), es[1..])
  }

  function Run(s: SyncState, es: seq<SyncEvent>): SyncState
    decreases |es|
  {
    if es == [] then s else Run(Step(s, es[0]), es[1..])
  }

  /** The counter is the auto-scrolls performed minus the scroll events they
      caused that were swallowed: every swallowed event is paid for by an
      auto-scroll. */
  lemma {:induction false} CounterBalance(s: SyncState, es: seq<SyncEvent>)
    ensures Run(s, es).pendingAutoScrolls + Swallowed(s, es) == s.pendingAutoScrolls + AutoScrolls(s, es)
    decreases |es|
  {
    if es != [] {
      CounterBalance(Step(s, es[0]), es[1..]);
      StepBalance(s, es[0]);
    }
  }

  lemma OriginCases(o: Option<Origin>)
    ensures o.None? || o == Some(Editor) || o == Some(PreviewPane)
  {
    match o {
      case None =>
      case Some(Editor) =>
      case Some(PreviewPane) =>
    }
  }

  /** One occurrence's share of `CounterBalance`. */
  lemma StepBalance(s: SyncState, e: SyncEvent)
    ensures Step(s, e).pendingAutoScrolls + (if e.ScrollEvent? && s.pendingAutoScrolls > 0 then 1 else 0)
      == s.pendingAutoScrolls + AutoScrolls(s, [e])
  {
    assert [e][1..] == [];
    match e
    case TopLineChanged(env) =>
      var u := AfterScrollToTopLine(s, env);
      OriginCases(s.topLine.setFrom);
      OriginCases(u.topLine.setFrom);
      assert u.pendingAutoScrolls == s.pendingAutoScrolls + (if ScrollsPane(s, env) then 1 else 0);
      if |u.published| > |s.published| {
        var w := AfterScrollToTopLine(u, env);
        assert w.pendingAutoScrolls == u.pendingAutoScrolls + (if ScrollsPane(u, env) then 1 else 0);
      }
    case ScrollEvent(ev) =>
    case OutputResized(b) =>
  }

  /** The synchronisation as `createScrollSyncing` keeps it. */
  class ScrollSync {
    var pendingAutoScrolls: nat
    var wasAtBottom: bool
    var topLine: TopLine
    var published: seq<TopLine>

    function Abs(): SyncState
      reads this
    {
      SyncState(pendingAutoScrolls, wasAtBottom, topLine, published)
    }

    /** Set-up: `wasAtBottom` is measured, then the two effects run once each. */
    constructor (initialTopLine: TopLine, atBottom: bool, env: ScrollEnv)
      ensures Abs() == TopLineEffect(TopLineEffect(SyncState(0, atBottom, initialTopLine, []), env), env)
    {
      pendingAutoScrolls := 0;
      wasAtBottom := atBottom;
      topLine := initialTopLine;
      published := [];
      new;
      RunTopLineEffect(env);
      RunTopLineEffect(env);
    }

    method SetTopLine(v: TopLine)
      modifies this
      ensures Abs() == old(Abs()).(topLine := v, published := old(published) + [v])
    {
      topLine := v;
      published := published + [v];
    }

    method ScrollToTopLine(env: ScrollEnv)
      modifies this
      ensures Abs() == AfterScrollToTopLine(old(Abs()), env)
    {
      if topLine.setFrom.None? || topLine.setFrom == Some(PreviewPane) {
        return;
      }
      if env.listLength == 0 {
        return;
      }
      if topLine.number.Infinity? {
        var maxTop := env.maxTop;
        if maxTop < 0.0 {
          return;
        }
        SetTopLine(TopLine(Finite(env.lineAtMaxTop), Some(Editor)));
        return;
      }
      wasAtBottom := env.wasAtBottomAfter;
      if env.scrollResult == Scrolled {
        pendingAutoScrolls := pendingAutoScrolls + 1;
      }
    }

    /** The top-line effect and the text-change effect: both run
        `scrollToTopLine`, and a top line it writes runs it again. */
    method RunTopLineEffect(env: ScrollEnv)
      modifies this
      ensures Abs() == TopLineEffect(old(Abs()), env)
    {
      var before := |published|;
      ScrollToTopLine(env);
      if |published| > before {
        ScrollToTopLine(env);
      }
    }

    /** The editor writes the top line. */
    method EditorSetsTopLine(v: TopLine, env: ScrollEnv)
      modifies this
      ensures Abs() == TopLineEffect(old(Abs()).(topLine := v), env)
    {
      topLine := v;
      RunTopLineEffect(env);
    }

    /** `handleScroll`, followed by the effect its write re-runs. */
    method HandleScroll(ev: ScrollEventEnv, env: ScrollEnv)
      modifies this
      ensures Abs() == AfterHandleScroll(old(Abs()), ev)
    {
      ghost var s := Abs();
      if pendingAutoScrolls > 0 {
        pendingAutoScrolls := pendingAutoScrolls - 1;
        return;
      }
      if ev.listLength == 0 {
        return;
      }
      var line := ev.line;
      if ev.atBottom && topLine.setFrom == Some(Editor) && AtOrBefore(line, topLine.number) {
        return;
      }
      SetTopLine(TopLine(Finite(line), Some(PreviewPane)));
      PreviewWriteDoesNotEcho(s, ev, env);
      RunTopLineEffect(env);
    }

    /** The resize observer on the output re-measures `wasAtBottom`. */
    method OutputResized(atBottom: bool)
      modifies this
      ensures Abs() == old(Abs()).(wasAtBottom := atBottom)
    {
      wasAtBottom := atBottom;
    }
  }

  // ---------------------------------------------------------------- highlight

  /** A roasted lookup-list item: the element's offset from the top of the
      content and its height. */
  datatype LookupItem = LookupItem(offsetTop: real, heightPx: real)

  datatype Highlight = Highlight(topPx: real, heightPx: real)

  /** The highlight effect: nothing is updated while the list is empty or no
      lines are active; otherwise the rectangle runs from the top of the
      first active line's item to the bottom of the last one's.
      `topIndex` and `bottomIndex` are the `indexInLookupList` that
      `getScrollLocalByLine` gives for the first and the last active line;
      the second is looked up only when the two lines differ. */
  function HighlightRect(list: seq<LookupItem>, activeLines: Option<(int, int)>, topIndex: nat, bottomIndex: nat): (h: Option<Highlight>)
    requires |list| > 0 && activeLines.Some? ==> topIndex < |list| && bottomIndex < |list|
    ensures h.Some? <==> |list| > 0 && activeLines.Some?
    ensures h.Some? ==> h.value.topPx == list[topIndex].offsetTop
    ensures h.Some? && activeLines.value.0 == activeLines.value.1 ==> h.value.heightPx == list[topIndex].heightPx
    ensures h.Some? && activeLines.value.0 != activeLines.value.1 ==>
      h.value.topPx + h.value.heightPx == list[bottomIndex].offsetTop + list[bottomIndex].heightPx
  {
    if |list| == 0 || activeLines.None? then None
    else
      var bottom := if activeLines.value.0 == activeLines.value.1 then topIndex else bottomIndex;
      var topItem := list[topIndex];
      var bottomItem := if topIndex == bottom then topItem else list[bottom];
      Some(Highlight(topItem.offsetTop, bottomItem.offsetTop + bottomItem.heightPx - topItem.offsetTop))
  }
}
