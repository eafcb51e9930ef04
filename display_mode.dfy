/** The widget of `packages/ankor/src/create-widget-component.tsx`: the
    display-mode state machine `createDisplayModeFSM`, the popper placement
    `calculatePopperPosition` and the change-only size signal of
    `createSizeSyncer`.

    The state machine is written twice. `Fsm` and the functions over it say
    what each handler does; the class `Widget` keeps the same state in
    fields and its methods update them step by step, each proved to end in
    the state the function names. A `setTimeout` callback is an explicit
    "timer fired" input, and the reactive effects are run synchronously
    right after the signal write that triggers them, in creation order. */
module DisplayMode {
  import opened Common

  datatype Mode = Closed | Floating | Pinned

  /** The `delayedAutoOpen` signal: `undefined` before anything was written,
      `null` once cleared, or a pending request to open. */
  datatype AutoOpenRequest = Unset | Cleared | Requested(shouldCollapse: bool)

  /** `collapsible()` is `true`, `false` or `null`; only `true` is truthy. */
  predicate Truthy(c: Option<bool>) { c == Some(true) }

  /** The signals and closure flags of one state machine, the two inputs
      `openable()` and `collapsible()`, and how many leave and touch timers
      are still to fire. */
  datatype Fsm = Fsm(
    mode: Mode,
    collapsed: bool,
    delayed: AutoOpenRequest,
    userInteracted: bool,
    leaving: bool,
    touched: bool,
    openable: bool,
    collapsible: Option<bool>,
    leaveTimers: nat,
    touchTimers: nat)

  /** What the handlers keep true: a widget that cannot open is closed and
      has no recorded interaction, the stored collapse flag is off unless
      collapsing is allowed, and a pending leave or touch reset always has
      a timer that will fire. */
  predicate Valid(s: Fsm) {
    (!s.openable ==> s.mode == Closed && !s.userInteracted)
    && (!Truthy(s.collapsible) ==> !s.collapsed)
    && (s.leaving ==> s.leaveTimers > 0)
    && (s.touched ==> s.touchTimers > 0)
  }

  /** The `collapsed` accessor the widget reads. */
  function ReportedCollapsed(s: Fsm): (r: bool)
    ensures r ==> Truthy(s.collapsible) && s.collapsed
  {
    Truthy(s.collapsible) && s.collapsed
  }

  /** The effect on `collapsible` and `delayedAutoOpen`. */
  function CollapseEffect(s: Fsm): Fsm
  {
    var s1 := if !Truthy(s.collapsible) then s.(collapsed := false) else s;
    if Truthy(s.collapsible) && s.delayed.Requested? && s.delayed.shouldCollapse then s1.(collapsed := true) else s1
  }

  /** The effect on `openable` and `delayedAutoOpen`. */
  function OpenEffect(s: Fsm): Fsm
  {
    if !s.openable then s.(mode := Closed, userInteracted := false)
    else if s.delayed.Requested? then s.(mode := Pinned)
    else s
  }

  /** Writing `delayedAutoOpen`: a request is a fresh object and always
      notifies; clearing notifies only when the value changes. */
  function SetDelayed(s: Fsm, v: AutoOpenRequest): Fsm
  {
    if v.Requested? || v != s.delayed then OpenEffect(CollapseEffect(s.(delayed := v))) else s
  }

  /** `setUserInteracted(true)`: the first interaction clears a pending
      auto-open. */
  function MarkInteracted(s: Fsm): Fsm
  {
    if s.userInteracted then s else SetDelayed(s.(userInteracted := true), Cleared)
  }

  /** The machine right after creation, once the effects have run. */
  function Initial(mode: Mode, openable: bool, collapsible: Option<bool>): Fsm
  {
    var s := Fsm(mode, false, Unset, false, false, false, openable, collapsible, 0, 0);
    OpenEffect(CollapseEffect(s))
  }

  function Enter(s: Fsm): Fsm
  {
    if !s.openable then s
    else s.(leaving := false, mode := if s.mode == Closed then Floating else s.mode)
  }

  function Leave(s: Fsm): Fsm
  {
    if !s.openable || s.leaving then s
    else if s.mode == Floating then s.(leaving := true, leaveTimers := s.leaveTimers + 1)
    else s
  }

  function LeaveTimerFired(s: Fsm): Fsm
    requires s.leaveTimers > 0
  {
    var s1 := s.(leaveTimers := s.leaveTimers - 1);
    if s.leaving then s1.(mode := Closed, leaving := false) else s1
  }

  function TouchEnd(s: Fsm): Fsm
  {
    s.(touched := true, touchTimers := s.touchTimers + 1)
  }

  function TouchTimerFired(s: Fsm): Fsm
    requires s.touchTimers > 0
  {
    s.(touched := false, touchTimers := s.touchTimers - 1)
  }

  function TogglePinning(s: Fsm): Fsm
  {
    if !s.openable then s
    else
      var s1 := MarkInteracted(s).(collapsed := false);
      var mode := if s1.touched then Closed else if s1.mode == Pinned then Floating else Pinned;
      s1.(mode := mode, touched := false)
  }

  /** The label click as the source has it: the guard tests whether the
      `openable` option exists, which it always does. */
  function ClickLabelAsWritten(s: Fsm): Fsm
  {
    var s1 := MarkInteracted(s);
    if s1.mode == Pinned then
      if !Truthy(s1.collapsible) then s1 else s1.(collapsed := !s1.collapsed)
    else s1.(collapsed := false, mode := Pinned)
  }

  /** The label click guarded on `openable()`, like every other handler. */
  function ClickLabel(s: Fsm): Fsm
  {
    if !s.openable then s else ClickLabelAsWritten(s)
  }

  function AutoOpen(s: Fsm, shouldCollapse: bool): Fsm
  {
    SetDelayed(s, Requested(shouldCollapse))
  }

  function Expand(s: Fsm): Fsm
  {
    if !s.openable then s else MarkInteracted(s).(collapsed := false)
  }

  /** A new value of the `openable()` input re-runs the open effect. */
  function SetOpenable(s: Fsm, openable: bool): Fsm
  {
    if openable == s.openable then s else OpenEffect(s.(openable := openable))
  }

  /** A new value of the `collapsible()` input re-runs the collapse effect. */
  function SetCollapsible(s: Fsm, collapsible: Option<bool>): Fsm
  {
    if collapsible == s.collapsible then s else CollapseEffect(s.(collapsible := collapsible))
  }

  lemma InitialIsValid(mode: Mode, openable: bool, collapsible: Option<bool>)
    ensures Valid(Initial(mode, openable, collapsible))
    ensures openable ==> Initial(mode, openable, collapsible).mode == mode
  {
  }

  /** Writing `delayedAutoOpen` and running its effects keeps the machine
      valid and changes neither the leave nor the touch bookkeeping. */
  lemma SetDelayedKeepsValid(s: Fsm, v: AutoOpenRequest)
    requires Valid(s)
    ensures Valid(SetDelayed(s, v))
    ensures SetDelayed(s, v).leaving == s.leaving && SetDelayed(s, v).touched == s.touched
    ensures SetDelayed(s, v).leaveTimers == s.leaveTimers && SetDelayed(s, v).touchTimers == s.touchTimers
    ensures SetDelayed(s, v).openable == s.openable && SetDelayed(s, v).collapsible == s.collapsible
  {
  }

  lemma MarkInteractedKeepsValid(s: Fsm)
    requires Valid(s) && s.openable
    ensures Valid(MarkInteracted(s)) && MarkInteracted(s).openable
    ensures MarkInteracted(s).touched == s.touched && MarkInteracted(s).collapsible == s.collapsible
    ensures MarkInteracted(s).userInteracted
  {
    if !s.userInteracted {
      SetDelayedKeepsValid(s.(userInteracted := true), Cleared);
    }
  }

  /** Pointer and touch events and their timers keep the machine valid. */
  lemma PointerEventsKeepValid(s: Fsm)
    requires Valid(s)
    ensures Valid(Enter(s)) && Valid(Leave(s)) && Valid(TouchEnd(s))
    ensures s.leaveTimers > 0 ==> Valid(LeaveTimerFired(s))
    ensures s.touchTimers > 0 ==> Valid(TouchTimerFired(s))
  {
  }

  /** The pin toggle, the label click and `expand` keep the machine valid. */
  lemma ClicksKeepValid(s: Fsm)
    requires Valid(s)
    ensures Valid(TogglePinning(s)) && Valid(ClickLabel(s)) && Valid(Expand(s))
  {
    if s.openable {
      MarkInteractedKeepsValid(s);
    }
  }

  /** Auto-open requests and changes of the two inputs keep the machine
      valid. */
  lemma RequestsKeepValid(s: Fsm, shouldCollapse: bool, openable: bool, collapsible: Option<bool>)
    requires Valid(s)
    ensures Valid(AutoOpen(s, shouldCollapse))
    ensures Valid(SetOpenable(s, openable)) && Valid(SetCollapsible(s, collapsible))
  {
    SetDelayedKeepsValid(s, Requested(shouldCollapse));
  }

  /** The unguarded label click pins a widget that cannot open. */
  lemma ClickLabelAsWrittenPinsUnopenable()
    ensures var s := Initial(Closed, false, Some(false));
      Valid(s) && !s.openable && ClickLabelAsWritten(s).mode == Pinned && !Valid(ClickLabelAsWritten(s))
  {
  }

  /** `enter` opens a closed widget as floating, keeps an open one as it is,
      and cancels a pending leave. */
  lemma EnterOpensAndCancelsLeave(s: Fsm)
    requires s.openable
    ensures !Enter(s).leaving
    ensures Enter(s).mode == (if s.mode == Closed then Floating else s.mode)
  {
  }

  /** A leave followed by a timer closes a floating widget; an enter before
      the timer fires keeps it floating. */
  lemma LeaveThenTimer(s: Fsm)
    requires Valid(s) && s.openable && s.mode == Floating && !s.leaving
    ensures LeaveTimerFired(Leave(s)).mode == Closed
    ensures LeaveTimerFired(Enter(Leave(s))).mode == Floating
  {
  }

  /** The pin toggle always expands, records an interaction and forgets a
      touch; after a touch it closes, otherwise it swaps pinned and floating
      (and pins a closed widget). */
  lemma TogglePinningOutcome(s: Fsm)
    requires Valid(s) && s.openable
    ensures var t := TogglePinning(s);
      !t.collapsed && !t.touched && t.userInteracted
      && t.mode == (if s.touched then Closed else if MarkInteracted(s).mode == Pinned then Floating else Pinned)
  {
  }

  /** The pin toggle leaves a pending leave in place: a floating widget the
      pointer has just left and that is then pinned is still closed by the
      leave timer. Only `enter` cancels a pending leave. */
  lemma ToggleKeepsPendingLeave(s: Fsm)
    requires Valid(s) && s.openable && s.mode == Floating && !s.leaving && !s.touched
    ensures var t := TogglePinning(Leave(s));
      t.mode == Pinned && t.leaving && t.leaveTimers > 0 && LeaveTimerFired(t).mode == Closed
  {
  }

  /** A touch on the pin toggle followed by the click it causes closes the
      widget instead of pinning it. */
  lemma TouchThenToggleCloses(s: Fsm)
    requires Valid(s) && s.openable
    ensures TogglePinning(TouchEnd(s)).mode == Closed
  {
  }

  /** A label click pins an unpinned widget expanded; on a pinned widget it
      flips `collapsed` when collapsing is allowed and otherwise changes
      nothing but the interaction record. */
  lemma ClickLabelOutcome(s: Fsm)
    requires Valid(s) && s.openable
    ensures s.mode != Pinned ==> ClickLabel(s).mode == Pinned && !ClickLabel(s).collapsed
    ensures s.mode == Pinned && Truthy(s.collapsible) ==> ClickLabel(s).collapsed == !s.collapsed && ClickLabel(s).mode == Pinned
    ensures s.mode == Pinned && !Truthy(s.collapsible) ==> ClickLabel(s).(userInteracted := s.userInteracted, delayed := s.delayed) == s
  {
  }

  /** An auto-open request pins an openable widget, collapsed when it asked
      to be and collapsing is allowed. */
  lemma AutoOpenPins(s: Fsm, shouldCollapse: bool)
    requires Valid(s) && s.openable
    ensures AutoOpen(s, shouldCollapse).mode == Pinned
    ensures shouldCollapse && Truthy(s.collapsible) ==> AutoOpen(s, shouldCollapse).collapsed
    ensures !Truthy(s.collapsible) ==> !AutoOpen(s, shouldCollapse).collapsed
  {
  }

  /** The first user interaction withdraws a pending auto-open, so a later
      change of `openable` does not pin the widget again. */
  lemma InteractionWithdrawsAutoOpen(s: Fsm)
    requires Valid(s) && s.openable && !s.userInteracted
    ensures !TogglePinning(s).delayed.Requested? && !Expand(s).delayed.Requested? && !ClickLabel(s).delayed.Requested?
  {
  }

  /** Turning `openable` off closes the widget and forgets the interaction;
      turning `collapsible` off clears the stored collapse flag. */
  lemma InputsOff(s: Fsm)
    requires Valid(s)
    ensures SetOpenable(s, false).mode == Closed && !SetOpenable(s, false).userInteracted
    ensures !SetCollapsible(s, Some(false)).collapsed && !SetCollapsible(s, None).collapsed
    ensures !ReportedCollapsed(SetCollapsible(s, Some(false)))
  {
  }

  /** The state machine as the closure keeps it: one field per signal and
      per closure flag. Each method is one handler, timer callback or input
      change, and ends in the state the function of the same name gives. */
  class Widget {
    var displayMode: Mode
    var collapsed: bool
    var delayedAutoOpen: AutoOpenRequest
    var userInteracted: bool
    var leaving: bool
    var pinningTogglerTouched: bool
    var openable: bool
    var collapsible: Option<bool>
    var pendingLeaveTimers: nat
    var pendingTouchTimers: nat

    function Abs(): Fsm
      reads this
    {
      Fsm(displayMode, collapsed, delayedAutoOpen, userInteracted, leaving, pinningTogglerTouched,
          openable, collapsible, pendingLeaveTimers, pendingTouchTimers)
    }

    constructor (initialDisplayMode: Mode, openable: bool, collapsible: Option<bool>)
      ensures Abs() == Initial(initialDisplayMode, openable, collapsible)
    {
      displayMode := initialDisplayMode;
      collapsed := false;
      delayedAutoOpen := Unset;
      userInteracted := false;
      leaving := false;
      pinningTogglerTouched := false;
      this.openable := openable;
      this.collapsible := collapsible;
      pendingLeaveTimers := 0;
      pendingTouchTimers := 0;
      new;
      RunCollapseEffect();
      RunOpenEffect();
    }

    method RunCollapseEffect()
      modifies this
      ensures Abs() == CollapseEffect(old(Abs()))
    {
      if !Truthy(collapsible) {
        collapsed := false;
      }
      if collapsible == Some(true) && delayedAutoOpen.Requested? && delayedAutoOpen.shouldCollapse {
        collapsed := true;
      }
    }

    method RunOpenEffect()
      modifies this
      ensures Abs() == OpenEffect(old(Abs()))
    {
      if !openable {
        displayMode := Closed;
        userInteracted := false;
      } else if delayedAutoOpen.Requested? {
        displayMode := Pinned;
      }
    }

    method SetDelayedAutoOpen(v: AutoOpenRequest)
      modifies this
      ensures Abs() == SetDelayed(old(Abs()), v)
    {
      if v.Requested? || v != delayedAutoOpen {
        delayedAutoOpen := v;
        RunCollapseEffect();
        RunOpenEffect();
      }
    }

    /** `setUserInteracted(true)` and the effect watching it. */
    method MarkUserInteracted()
      modifies this
      ensures Abs() == MarkInteracted(old(Abs()))
    {
      if !userInteracted {
        userInteracted := true;
        SetDelayedAutoOpen(Cleared);
      }
    }

    method HandleEnter()
      modifies this
      ensures Abs() == Enter(old(Abs()))
    {
      if !openable {
        return;
      }
      leaving := false;
      if displayMode == Closed {
        displayMode := Floating;
      }
    }

    /** Arms the leave timer; `HandleLeaveTimer` is its callback. */
    method HandleLeave()
      modifies this
      ensures Abs() == Leave(old(Abs()))
    {
      if !openable {
        return;
      }
      if leaving {
        return;
      }
      if displayMode == Floating {
        leaving := true;
        pendingLeaveTimers := pendingLeaveTimers + 1;
      }
    }

    method HandleLeaveTimer()
      requires pendingLeaveTimers > 0
      modifies this
      ensures Abs() == LeaveTimerFired(old(Abs()))
    {
      pendingLeaveTimers := pendingLeaveTimers - 1;
      if leaving {
        displayMode := Closed;
        leaving := false;
      }
    }

    method HandleTouchPinningTogglerEnd()
      modifies this
      ensures Abs() == TouchEnd(old(Abs()))
    {
      pinningTogglerTouched := true;
      pendingTouchTimers := pendingTouchTimers + 1;
    }

    method HandleTouchTimer()
      requires pendingTouchTimers > 0
      modifies this
      ensures Abs() == TouchTimerFired(old(Abs()))
    {
      pinningTogglerTouched := false;
      pendingTouchTimers := pendingTouchTimers - 1;
    }

    method HandleTogglePinning()
      modifies this
      ensures Abs() == TogglePinning(old(Abs()))
    {
      if !openable {
        return;
      }
      MarkUserInteracted();
      collapsed := false;
      if pinningTogglerTouched {
        displayMode := Closed;
      } else {
        displayMode := if displayMode == Pinned then Floating else Pinned;
      }
      pinningTogglerTouched := false;
    }

    /** The label click, guarded on `openable()`. */
    method HandleClickLabel()
      modifies this
      ensures Abs() == ClickLabel(old(Abs()))
    {
      if !openable {
        return;
      }
      MarkUserInteracted();
      if displayMode == Pinned {
        if !Truthy(collapsible) {
          return;
        }
        collapsed := !collapsed;
      } else {
        collapsed := false;
        displayMode := Pinned;
      }
    }

    method HandleAutoOpen(shouldCollapse: bool)
      modifies this
      ensures Abs() == AutoOpen(old(Abs()), shouldCollapse)
    {
      SetDelayedAutoOpen(Requested(shouldCollapse));
    }

    method HandleExpand()
      modifies this
      ensures Abs() == Expand(old(Abs()))
    {
      if !openable {
        return;
      }
      MarkUserInteracted();
      collapsed := false;
    }

    method ChangeOpenable(v: bool)
      modifies this
      ensures Abs() == SetOpenable(old(Abs()), v)
    {
      if v != openable {
        openable := v;
        RunOpenEffect();
      }
    }

    method ChangeCollapsible(v: Option<bool>)
      modifies this
      ensures Abs() == SetCollapsible(old(Abs()), v)
    {
      if v != collapsible {
        collapsible := v;
        RunCollapseEffect();
      }
    }
  }

  /** An openable widget that the pointer leaves and re-enters before the
      leave timer fires stays floating. */
  method LeaveAndReturnScenario() returns (modeBeforeTimer: Mode, modeAfterTimer: Mode)
    ensures modeBeforeTimer == Floating && modeAfterTimer == Floating
  {
    var w := new Widget(Closed, true, Some(false));
    w.HandleEnter();
    w.HandleLeave();
    w.HandleEnter();
    modeBeforeTimer := w.displayMode;
    w.HandleLeaveTimer();
    modeAfterTimer := w.displayMode;
  }

  /** A touch on the pin toggle, the click it causes and then the touch
      timer: the widget closes and the touch is forgotten. */
  method TouchToggleScenario() returns (mode: Mode, touched: bool)
    ensures mode == Closed && !touched
  {
    var w := new Widget(Closed, true, Some(false));
    w.HandleEnter();
    w.HandleTouchPinningTogglerEnd();
    w.HandleTogglePinning();
    w.HandleTouchTimer();
    mode, touched := w.displayMode, w.pinningTogglerTouched;
  }

  /** The popper's offset from its anchor. */
  datatype Position = Position(topPx: real, leftPx: real)

  /** A bounding client rectangle. */
  datatype Rect = Rect(left: real, top: real, width: real, bottom: real)

  /** `calculatePopperPosition`: nothing when the label is inside a hidden
      element (it has no offset parent); otherwise the popper sits under the
      label, shifted left when it would overflow the anchor. */
  function CalculatePopperPosition(labelHasOffsetParent: bool, labelRect: Rect, anchorRect: Rect, popperWidthPx: real): (p: Option<Position>)
    ensures p.None? <==> !labelHasOffsetParent
    ensures p.Some? ==> p.value.topPx == labelRect.bottom - anchorRect.top
    ensures p.Some? ==> p.value.leftPx <= labelRect.left - anchorRect.left && p.value.leftPx + popperWidthPx <= anchorRect.width
    ensures p.Some? ==> p.value.leftPx == labelRect.left - anchorRect.left || p.value.leftPx + popperWidthPx == anchorRect.width
  {
    if !labelHasOffsetParent then None
    else
      var l1, l2 := labelRect.left - anchorRect.left, anchorRect.width - popperWidthPx;
      Some(Position(labelRect.bottom - anchorRect.top, if l1 <= l2 then l1 else l2))
  }

  /** A measured element size. */
  datatype Size = Size(widthPx: real, heightPx: real)

  /** `createSizeSyncer`: the size signal and the number of times it
      notified its readers. */
  class SizeSyncer {
    var size: Option<Size>
    var notifications: nat

    constructor ()
      ensures size == None && notifications == 0
    {
      size := None;
      notifications := 0;
    }

    /** `syncSize` with the element's current rectangle: a size equal to the
        one already published is not published again. */
    method SyncSize(widthPx: real, heightPx: real)
      modifies this
      ensures size == Some(Size(widthPx, heightPx))
      ensures old(size) == Some(Size(widthPx, heightPx)) ==> notifications == old(notifications)
      ensures old(size) != Some(Size(widthPx, heightPx)) ==> notifications == old(notifications) + 1
    {
      if size.Some? && size.value.widthPx == widthPx && size.value.heightPx == heightPx {
        return;
      }
      size := Some(Size(widthPx, heightPx));
      notifications := notifications + 1;
    }

    /** The `enabled` effect: enabling measures at once, disabling clears
        the size (a signal notifies only when its value changes). */
    method SetEnabled(enabled: bool, widthPx: real, heightPx: real)
      modifies this
      ensures enabled ==> size == Some(Size(widthPx, heightPx))
      ensures !enabled ==> size == None
      ensures old(size) == size ==> notifications == old(notifications)
      ensures old(size) != size ==> notifications == old(notifications) + 1
    {
      if enabled {
        SyncSize(widthPx, heightPx);
      } else if size != None {
        size := None;
        notifications := notifications + 1;
      }
    }
  }
}
