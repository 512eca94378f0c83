/**
  The toast notification element (components/toast.js): an auto-dismiss timer that
  hovering pauses, a `close` that runs once, and drag-to-dismiss that swipes the toast
  away when the drag went far enough.

  Timers are modelled by their handles: `pending` holds every timeout that has been
  scheduled and has neither fired nor been cleared, `timer` the one `_timer` refers to.
 */
module Toasts {
  import opened JsValues

  /** The timeout used when no usable `timeout` attribute is given, in milliseconds. */
  const DEFAULT_TIMEOUT: int := 4000
  /** The largest drag distance ever needed to dismiss, in pixels. */
  const SWIPE_MAX_THRESHOLD: int := 120
  /** Where a swiped toast exits to, in pixels left or right. */
  const SWIPE_EXIT_OFFSET: int := 200

  /** The events a toast dispatches. */
  datatype ToastEvent = Opened | Closed(reason: string) | Dismissed(reason: string)

  /** `_timer`: no timer, or the handle of the one last armed. */
  datatype Timer = NoTimer | Armed(handle: nat)

  /** `_pointer`: the drag in progress, where it started and how far it has gone. */
  datatype Pointer = Pointer(active: bool, startX: int, currentX: int)

  /** The `timeout` option of `Toast.show`: left out (it defaults to 4000) or given. */
  datatype ShowTimeout = Omitted | Given(ms: int)

  /** The `_timeout` a `timeout` attribute gives: a falsy attribute (`null` when absent,
      or empty) means the default, any other is read by `parseInt` in base 10. */
  function ParseTimeout(attribute: JsValue): (t: ParsedInt)
    ensures !Truthy(attribute) ==> t == Num(DEFAULT_TIMEOUT)
    ensures Truthy(attribute) ==> t == ParseInt(attribute.s)
  {
    if Truthy(attribute) then ParseInt(attribute.s) else Num(DEFAULT_TIMEOUT)
  }

  /** `ParseTimeout` is `parseInt(attribute || "4000", 10)`: the default is written as the
      numeral "4000", which parses back to 4000. */
  lemma ParseTimeoutDefaultsToNumeral(attribute: JsValue)
    ensures ParseTimeout(attribute) == ParseInt(ToStr(Or(attribute, Str("4000"))))
  {
    if !Truthy(attribute) {
      assert Numeral(4000) == Numeral(400) + ['0'];
      assert Numeral(400) == Numeral(40) + ['0'];
      assert Numeral(40) == Numeral(4) + ['0'];
      assert ToStr(Or(attribute, Str("4000"))) == NumberToString(DEFAULT_TIMEOUT);
      ParseIntOfNumberToString(DEFAULT_TIMEOUT);
    }
  }

  /** A `timeout` attribute written as the decimal numeral of `ms` reads back as `ms`. */
  lemma TimeoutAttributeRoundTrip(ms: int)
    ensures ParseTimeout(Str(NumberToString(ms))) == Num(ms)
  {
    ParseIntOfNumberToString(ms);
  }

  /** Whether `_startTimer` arms a timer: not when the timeout is a number <= 0
      (a `NaN` timeout is not <= 0, so it does arm one). */
  predicate ArmsTimer(timeout: ParsedInt)
    ensures ArmsTimer(timeout) <==> timeout.NaN? || timeout.n > 0
  {
    !(timeout.Num? && timeout.n <= 0)
  }

  /** The timeout a toast made by `Toast.show` ends up with: a falsy 0 sets no attribute,
      so the default applies then too. */
  function ShownTimeout(timeout: ShowTimeout): (ms: int)
    ensures ms != 0
    ensures timeout.Given? && timeout.ms != 0 ==> ms == timeout.ms
    ensures timeout == Omitted || timeout == Given(0) ==> ms == DEFAULT_TIMEOUT
  {
    match timeout
    case Omitted => DEFAULT_TIMEOUT
    case Given(ms) => if ms != 0 then ms else DEFAULT_TIMEOUT
  }

  function Abs(x: int): nat {
    if x < 0 then -x else x
  }

  function Min(a: int, b: int): int {
    if a <= b then a else b
  }

  /** `Math.abs(dx) > Math.min(120, width * 0.4)`, with both sides scaled by 5 so that it
      stays in integers: the drag dismisses when it went more than 120 pixels or more
      than two fifths of the toast's width. */
  function SwipeDismisses(dx: int, width: nat): (dismiss: bool)
    ensures dismiss <==> Abs(dx) > SWIPE_MAX_THRESHOLD || 5 * Abs(dx) > 2 * width
    ensures dismiss ==> dx != 0
  {
    5 * Abs(dx) > Min(5 * SWIPE_MAX_THRESHOLD, 2 * width)
  }

  class Toast {
    /** `_timeout`, as parsed. */
    var timeout: ParsedInt
    var timer: Timer
    /** Handles of the timeouts scheduled and neither fired nor cleared. */
    var pending: set<nat>
    /** The handle the next scheduled timeout gets; handles are positive. */
    var nextHandle: nat
    var pointer: Pointer
    var dismissed: bool
    /** Whether the exit animation runs, and the `--out-x` offset it runs to. */
    var exiting: bool
    var exitOffset: int
    /** The reason of each pending once-only `animationend` listener that finishes removal. */
    var exitListeners: seq<string>
    /** Whether the element has been removed from the document. */
    var removed: bool
    var events: seq<ToastEvent>

    ghost predicate Valid()
      reads this
    {
      nextHandle >= 1 &&
      (forall h :: h in pending ==> 1 <= h < nextHandle) &&
      (timer.Armed? ==> 1 <= timer.handle < nextHandle)
    }

    /** The constructor, given the `timeout` attribute present at that point. */
    constructor (timeoutAttribute: JsValue)
      ensures Valid()
      ensures timeout == ParseTimeout(timeoutAttribute)
      ensures timer == NoTimer && pending == {} && nextHandle == 1
      ensures pointer == Pointer(false, 0, 0) && !dismissed
      ensures !exiting && exitOffset == 0 && exitListeners == [] && !removed && events == []
    {
      timeout := ParseTimeout(timeoutAttribute);
      timer := NoTimer;
      pending := {};
      nextHandle := 1;
      pointer := Pointer(false, 0, 0);
      dismissed := false;
      exiting, exitOffset, exitListeners, removed := false, 0, [], false;
      events := [];
    }

    /** `attributeChangedCallback` for `timeout` (a removed attribute reads as `null`). */
    method AttributeChangedCallback(name: string, newValue: JsValue)
      requires Valid()
      modifies this
      ensures Valid()
      ensures timeout == if name == "timeout" then ParseTimeout(newValue) else old(timeout)
      ensures timer == old(timer) && pending == old(pending) && nextHandle == old(nextHandle)
      ensures pointer == old(pointer) && dismissed == old(dismissed)
      ensures exiting == old(exiting) && exitOffset == old(exitOffset)
      ensures exitListeners == old(exitListeners) && removed == old(removed)
      ensures events == old(events)
    {
      if name == "timeout" {
        timeout := ParseTimeout(newValue);
      }
    }

    /** `Toast.show({timeout})`: create the element, then set `timeout` only when the
        option is truthy. */
    static method Show(timeout: ShowTimeout) returns (t: Toast)
      ensures t.Valid()
      ensures t.timeout == Num(ShownTimeout(timeout))
      ensures t.timer == NoTimer && t.pending == {} && t.nextHandle == 1
      ensures t.pointer == Pointer(false, 0, 0) && !t.dismissed
      ensures !t.exiting && t.exitOffset == 0 && t.exitListeners == [] && !t.removed
      ensures t.events == []
    {
      var ms := match timeout case Omitted => DEFAULT_TIMEOUT case Given(ms) => ms;
      t := new Toast(Null);
      if ms != 0 {
        TimeoutAttributeRoundTrip(ms);
        t.AttributeChangedCallback("timeout", Str(NumberToString(ms)));
      }
    }

    /** `_startTimer`: schedule `close("timeout")` unless the timeout is <= 0. Arming a new
        timer does not clear the one `_timer` held: that one stays scheduled. */
    method StartTimer()
      requires Valid()
      modifies this
      ensures Valid()
      ensures !ArmsTimer(timeout) ==> timer == old(timer) && pending == old(pending) &&
                                      nextHandle == old(nextHandle)
      ensures ArmsTimer(timeout) ==> timer == Armed(old(nextHandle)) &&
                                     pending == old(pending) + {old(nextHandle)} &&
                                     old(nextHandle) !in old(pending) &&
                                     nextHandle == old(nextHandle) + 1
      ensures timeout == old(timeout) && pointer == old(pointer) && dismissed == old(dismissed)
      ensures exiting == old(exiting) && exitOffset == old(exitOffset)
      ensures exitListeners == old(exitListeners) && removed == old(removed)
      ensures events == old(events)
    {
      if timeout.Num? && timeout.n <= 0 {
        return;
      }
      timer := Armed(nextHandle);
      pending := pending + {nextHandle};
      nextHandle := nextHandle + 1;
    }

    /** `_clearTimer`: cancel the timer `_timer` holds, if any, and forget it. */
    method ClearTimer()
      requires Valid()
      modifies this
      ensures Valid()
      ensures timer == NoTimer
      ensures pending == if old(timer).Armed? then old(pending) - {old(timer).handle} else old(pending)
      ensures nextHandle == old(nextHandle)
      ensures timeout == old(timeout) && pointer == old(pointer) && dismissed == old(dismissed)
      ensures exiting == old(exiting) && exitOffset == old(exitOffset)
      ensures exitListeners == old(exitListeners) && removed == old(removed)
      ensures events == old(events)
    {
      if timer.Armed? {
        pending := pending - {timer.handle};
        timer := NoTimer;
      }
    }

    /** `close(reason)`: the first call marks the toast dismissed, cancels the timer, starts
        the exit animation towards the drag offset (or -200px without one) and dispatches
        `toast:close`; every later call does nothing. */
    method Close(reason: string)
      requires Valid()
      modifies this
      ensures Valid()
      ensures old(dismissed) ==>
                dismissed && timer == old(timer) && pending == old(pending) &&
                exiting == old(exiting) && exitOffset == old(exitOffset) &&
                exitListeners == old(exitListeners) && events == old(events)
      ensures !old(dismissed) ==>
                dismissed && timer == NoTimer &&
                pending == (if old(timer).Armed? then old(pending) - {old(timer).handle}
                            else old(pending)) &&
                exiting &&
                exitOffset == (if pointer.currentX != 0 then pointer.currentX else -SWIPE_EXIT_OFFSET) &&
                exitListeners == old(exitListeners) + [reason] &&
                events == old(events) + [Closed(reason)]
      ensures nextHandle == old(nextHandle) && timeout == old(timeout) && pointer == old(pointer)
      ensures removed == old(removed)
    {
      if dismissed {
        return;
      }
      dismissed := true;
      ClearTimer();
      exitOffset := if pointer.currentX != 0 then pointer.currentX else -SWIPE_EXIT_OFFSET;
      exiting := true;
      events := events + [Closed(reason)];
      exitListeners := exitListeners + [reason];
    }

    /** `_onCloseClick`. */
    method CloseButtonClick()
      requires Valid()
      modifies this
      ensures Valid()
      ensures old(dismissed) ==>
                timer == old(timer) && pending == old(pending) &&
                exiting == old(exiting) && exitOffset == old(exitOffset) &&
                exitListeners == old(exitListeners) && events == old(events)
      ensures !old(dismissed) ==>
                timer == NoTimer &&
                pending == (if old(timer).Armed? then old(pending) - {old(timer).handle}
                            else old(pending)) &&
                exiting &&
                exitOffset == (if pointer.currentX != 0 then pointer.currentX else -SWIPE_EXIT_OFFSET) &&
                exitListeners == old(exitListeners) + ["button"] &&
                events == old(events) + [Closed("button")]
      ensures dismissed && nextHandle == old(nextHandle) && timeout == old(timeout)
      ensures pointer == old(pointer) && removed == old(removed)
    {
      Close("button");
    }

    /** A scheduled timeout fires: it is no longer pending, and it calls `close("timeout")`
        (which does nothing once the toast is dismissed). `_timer` is not reset here. */
    method TimeoutFires(handle: nat)
      requires Valid() && handle in pending
      modifies this
      ensures Valid()
      ensures handle !in pending
      ensures old(dismissed) ==>
                timer == old(timer) && pending == old(pending) - {handle} &&
                exiting == old(exiting) && exitOffset == old(exitOffset) &&
                exitListeners == old(exitListeners) && events == old(events)
      ensures !old(dismissed) ==>
                timer == NoTimer &&
                pending == (if old(timer).Armed? then old(pending) - {handle, old(timer).handle}
                            else old(pending) - {handle}) &&
                exiting &&
                exitOffset == (if pointer.currentX != 0 then pointer.currentX else -SWIPE_EXIT_OFFSET) &&
                exitListeners == old(exitListeners) + ["timeout"] &&
                events == old(events) + [Closed("timeout")]
      ensures dismissed && nextHandle == old(nextHandle) && timeout == old(timeout)
      ensures pointer == old(pointer) && removed == old(removed)
    {
      pending := pending - {handle};
      Close("timeout");
    }

    /** The entry frame after connection: dispatch `toast:open` and start the timer. */
    method EntryFrame()
      requires Valid()
      modifies this
      ensures Valid()
      ensures events == old(events) + [Opened]
      ensures ArmsTimer(timeout) ==> timer == Armed(old(nextHandle)) &&
                                     pending == old(pending) + {old(nextHandle)}
      ensures !ArmsTimer(timeout) ==> timer == old(timer) && pending == old(pending)
      ensures nextHandle == if ArmsTimer(timeout) then old(nextHandle) + 1 else old(nextHandle)
      ensures dismissed == old(dismissed) && pointer == old(pointer) && timeout == old(timeout)
      ensures exiting == old(exiting) && exitOffset == old(exitOffset)
      ensures exitListeners == old(exitListeners) && removed == old(removed)
    {
      events := events + [Opened];
      StartTimer();
    }

    /** `_onMouseEnter`: hovering pauses auto-dismiss. */
    method MouseEnter()
      requires Valid()
      modifies this
      ensures Valid()
      ensures timer == NoTimer
      ensures pending == if old(timer).Armed? then old(pending) - {old(timer).handle} else old(pending)
      ensures dismissed == old(dismissed) && pointer == old(pointer) && events == old(events)
      ensures timeout == old(timeout) && nextHandle == old(nextHandle)
      ensures exiting == old(exiting) && exitOffset == old(exitOffset)
      ensures exitListeners == old(exitListeners) && removed == old(removed)
    {
      ClearTimer();
    }

    /** `_onMouseLeave`: leaving re-arms auto-dismiss. */
    method MouseLeave()
      requires Valid()
      modifies this
      ensures Valid()
      ensures ArmsTimer(timeout) ==> timer == Armed(old(nextHandle)) &&
                                     pending == old(pending) + {old(nextHandle)} &&
                                     nextHandle == old(nextHandle) + 1
      ensures !ArmsTimer(timeout) ==> timer == old(timer) && pending == old(pending) &&
                                      nextHandle == old(nextHandle)
      ensures dismissed == old(dismissed) && pointer == old(pointer) && events == old(events)
      ensures timeout == old(timeout)
      ensures exiting == old(exiting) && exitOffset == old(exitOffset)
      ensures exitListeners == old(exitListeners) && removed == old(removed)
    {
      StartTimer();
    }

    /** `_onPointerDown`: start a drag at `clientX` and pause auto-dismiss. */
    method PointerDown(clientX: int)
      requires Valid()
      modifies this
      ensures Valid()
      ensures pointer == Pointer(true, clientX, 0)
      ensures timer == NoTimer
      ensures pending == if old(timer).Armed? then old(pending) - {old(timer).handle} else old(pending)
      ensures dismissed == old(dismissed) && events == old(events) && timeout == old(timeout)
      ensures nextHandle == old(nextHandle) && exiting == old(exiting)
      ensures exitOffset == old(exitOffset) && exitListeners == old(exitListeners)
      ensures removed == old(removed)
    {
      pointer := Pointer(true, clientX, 0);
      ClearTimer();
    }

    /** `_onPointerMove`: while a drag is active, record how far it has gone. */
    method PointerMove(clientX: int)
      requires Valid()
      modifies this
      ensures Valid()
      ensures pointer == if old(pointer).active
                         then old(pointer).(currentX := clientX - old(pointer).startX)
                         else old(pointer)
      ensures timeout == old(timeout) && timer == old(timer) && pending == old(pending)
      ensures nextHandle == old(nextHandle) && dismissed == old(dismissed)
      ensures exiting == old(exiting) && exitOffset == old(exitOffset)
      ensures exitListeners == old(exitListeners) && removed == old(removed)
      ensures events == old(events)
    {
      if !pointer.active {
        return;
      }
      pointer := pointer.(currentX := clientX - pointer.startX);
    }

    /** `_onPointerUp`, given the toast's width: end the drag; a far enough drag swipes the
        toast away in its direction and dispatches `toast:close` with "swipe" (without
        marking it dismissed), a shorter one re-arms auto-dismiss. Nothing happens when no
        drag is active. */
    method PointerUp(width: nat)
      requires Valid()
      modifies this
      ensures Valid()
      ensures !old(pointer).active ==>
                pointer == old(pointer) && timer == old(timer) && pending == old(pending) &&
                exiting == old(exiting) && exitOffset == old(exitOffset) &&
                exitListeners == old(exitListeners) && events == old(events)
      ensures old(pointer).active ==> pointer == old(pointer).(active := false)
      ensures old(pointer).active && SwipeDismisses(old(pointer).currentX, width) ==>
                exiting &&
                exitOffset == (if old(pointer).currentX > 0 then SWIPE_EXIT_OFFSET
                               else -SWIPE_EXIT_OFFSET) &&
                exitListeners == old(exitListeners) + ["swipe"] &&
                events == old(events) + [Closed("swipe")] &&
                timer == old(timer) && pending == old(pending)
      ensures old(pointer).active && !SwipeDismisses(old(pointer).currentX, width) ==>
                exiting == old(exiting) && exitOffset == old(exitOffset) &&
                exitListeners == old(exitListeners) && events == old(events) &&
                (ArmsTimer(timeout) ==> timer == Armed(old(nextHandle)) &&
                                        pending == old(pending) + {old(nextHandle)}) &&
                (!ArmsTimer(timeout) ==> timer == old(timer) && pending == old(pending))
      ensures nextHandle == if old(pointer).active && !SwipeDismisses(old(pointer).currentX, width) &&
                               ArmsTimer(timeout)
                            then old(nextHandle) + 1 else old(nextHandle)
      ensures dismissed == old(dismissed) && timeout == old(timeout) && removed == old(removed)
    {
      if !pointer.active {
        return;
      }
      pointer := pointer.(active := false);
      var dx := pointer.currentX;
      if SwipeDismisses(dx, width) {
        exitOffset := if dx > 0 then SWIPE_EXIT_OFFSET else -SWIPE_EXIT_OFFSET;
        exiting := true;
        exitListeners := exitListeners + ["swipe"];
        events := events + [Closed("swipe")];
      } else {
        StartTimer();
      }
    }

    /** The exit animation ends: every pending exit listener runs `_finalizeRemove(reason)`
        once. The first removal disconnects the element, which cancels the timer; each
        listener then dispatches `toast:dismissed`. */
    method ExitAnimationEnd()
      requires Valid()
      modifies this
      ensures Valid()
      ensures exitListeners == []
      ensures events == old(events) + DismissedEvents(old(exitListeners))
      ensures removed == (old(removed) || old(exitListeners) != [])
      ensures !old(removed) && old(exitListeners) != [] ==>
                timer == NoTimer &&
                pending == (if old(timer).Armed? then old(pending) - {old(timer).handle}
                            else old(pending))
      ensures old(removed) || old(exitListeners) == [] ==>
                timer == old(timer) && pending == old(pending)
      ensures dismissed == old(dismissed) && pointer == old(pointer) && timeout == old(timeout)
      ensures nextHandle == old(nextHandle) && exiting == old(exiting) && exitOffset == old(exitOffset)
    {
      var listeners := exitListeners;
      ghost var oldEvents, wasRemoved, oldTimer, oldPending := events, removed, timer, pending;
      ghost var cancelled := if oldTimer.Armed? then oldPending - {oldTimer.handle} else oldPending;
      exitListeners := [];
      for i := 0 to |listeners|
        invariant Valid()
        invariant exitListeners == []
        invariant events == oldEvents + DismissedEvents(listeners[..i])
        invariant removed == (wasRemoved || i > 0)
        invariant !wasRemoved && i > 0 ==> timer == NoTimer && pending == cancelled
        invariant wasRemoved || i == 0 ==> timer == oldTimer && pending == oldPending
        invariant dismissed == old(dismissed) && pointer == old(pointer) && timeout == old(timeout)
        invariant nextHandle == old(nextHandle) && exiting == old(exiting)
        invariant exitOffset == old(exitOffset)
      {
        if !removed {
          removed := true;
          ClearTimer();
        }
        events := events + [Dismissed(listeners[i])];
        assert listeners[..i + 1] == listeners[..i] + [listeners[i]];
      }
      assert listeners[..|listeners|] == listeners;
    }
  }

  /** The `toast:dismissed` events the given exit listeners dispatch, in order. */
  function DismissedEvents(listeners: seq<string>): (evs: seq<ToastEvent>)
    ensures |evs| == |listeners|
    ensures forall i :: 0 <= i < |listeners| ==> evs[i] == Dismissed(listeners[i])
  {
    if listeners == [] then []
    else DismissedEvents(listeners[..|listeners| - 1]) + [Dismissed(listeners[|listeners| - 1])]
  }

  /** A swipe does not mark the toast dismissed, so a later `close()` runs again and
      dispatches a second `toast:close`. */
  method SwipeThenClose() returns (events: seq<ToastEvent>)
    ensures events == [Closed("swipe"), Closed("api")]
  {
    var t := new Toast(Null);
    t.PointerDown(10);
    t.PointerMove(-150);
    t.PointerUp(300);
    t.Close("api");
    events := t.events;
  }

  /** A short drag re-arms the timer, leaving the mouse re-arms it again without clearing
      the first one, and coming back clears only the second: the first still fires and
      closes the toast by "timeout" while the pointer is over it. */
  method OverwrittenTimerStillFires() returns (stillPending: set<nat>, events: seq<ToastEvent>)
    ensures stillPending == {2}
    ensures events == [Opened, Closed("timeout")]
  {
    var t := new Toast(Null);
    t.EntryFrame();          // arms timer 1
    t.MouseEnter();          // clears timer 1
    t.PointerDown(10);
    t.PointerMove(30);
    t.PointerUp(300);        // 20px is short of the threshold: arms timer 2
    t.MouseLeave();          // arms timer 3; timer 2 is no longer referenced
    t.MouseEnter();          // clears timer 3 only
    stillPending := t.pending;
    t.TimeoutFires(2);
    events := t.events;
  }
}
