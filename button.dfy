/** Button input of src/hardware/button.py: which handler a GPIO button
    calls on press and on release, and how the time a button was held is
    measured from the two.

    The callbacks of the application are the type parameters: `P` names a
    press callback and `H` a hold callback (one taking the hold time).
    Timestamps are parameters in seconds rather than readings of a clock. */
module ButtonInput {
  import opened Common

  /** What the GPIO button runs on a press: a callback of the application
      directly, or the handler's own `_on_press`, which records the time. */
  datatype PressHandler<P> = Direct(callback: P) | RecordPress

  /** `when_pressed`, `when_released` (the release handler calls
      `_on_release` with the hold callback it holds) and `_hold_start`. */
  datatype ButtonState<P, H> = ButtonState(
    whenPressed: Option<PressHandler<P>>,
    whenReleased: Option<H>,
    holdStart: Option<real>)

  /** The application callback a button event ends up calling, if any. */
  datatype Fired<P, H> = NothingFired | PressFired(press: P) | HoldFired(hold: H, duration: real)

  datatype ButtonStep<P, H> = ButtonStep(state: ButtonState<P, H>, fired: Fired<P, H>)

  /** A handler whose GPIO button has no handlers yet and which has seen no
      press (button.py:38-46). */
  function Unwired<P, H>(): (b: ButtonState<P, H>)
    ensures b.whenPressed == None && b.whenReleased == None && b.holdStart == None
  {
    ButtonState(None, None, None)
  }

  /** `_setup_callbacks` (button.py:58-74). A press callback is wired directly
      only when there is no hold callback; a hold callback replaces the press
      handler by the recorder, so a press callback given with it is dropped. */
  function AfterSetup<P, H>(b: ButtonState<P, H>, press: Option<P>, hold: Option<H>): (r: ButtonState<P, H>)
    ensures r.holdStart == b.holdStart
    ensures hold.Some? ==> r.whenPressed == Some(RecordPress) && r.whenReleased == hold
    ensures hold.None? && press.Some? ==> r.whenPressed == Some(Direct(press.value)) && r.whenReleased == b.whenReleased
    ensures hold.None? && press.None? ==> r == b
    ensures r.whenPressed != b.whenPressed && r.whenPressed.Some? && r.whenPressed.value.Direct? ==>
      hold.None? && press == Some(r.whenPressed.value.callback)
  {
    var first := if press.Some? && hold.None? then b.(whenPressed := Some(Direct(press.value))) else b;
    if hold.Some? then first.(whenPressed := Some(RecordPress), whenReleased := hold) else first
  }

  /** `_on_press` (button.py:76-79): remember when the press happened. */
  function AfterRecordPress<P, H>(b: ButtonState<P, H>, now: real): (r: ButtonState<P, H>)
    ensures r.holdStart == Some(now)
    ensures r.whenPressed == b.whenPressed && r.whenReleased == b.whenReleased
  {
    b.(holdStart := Some(now))
  }

  /** `_on_release` (button.py:81-92): with a recorded press, forget it and
      call the hold callback once with the time since that press; with none,
      call nothing. */
  function AfterRelease<P, H>(b: ButtonState<P, H>, callback: H, now: real): (r: ButtonStep<P, H>)
    ensures r.state == b.(holdStart := None)
    ensures b.holdStart.None? ==> r.fired == NothingFired
    ensures b.holdStart.Some? ==> r.fired.HoldFired? && r.fired.hold == callback
    ensures b.holdStart.Some? ==> b.holdStart.value + r.fired.duration == now
  {
    if b.holdStart.Some? then
      ButtonStep(b.(holdStart := None), HoldFired(callback, now - b.holdStart.value))
    else
      ButtonStep(b, NothingFired)
  }

  /** A physical press: the GPIO button runs its `when_pressed` handler. */
  function AfterPhysicalPress<P, H>(b: ButtonState<P, H>, now: real): (r: ButtonStep<P, H>)
    ensures b.whenPressed.None? ==> r == ButtonStep(b, NothingFired)
    ensures b.whenPressed == Some(RecordPress) ==> r == ButtonStep(b.(holdStart := Some(now)), NothingFired)
    ensures b.whenPressed.Some? && b.whenPressed.value.Direct? ==>
      r == ButtonStep(b, PressFired(b.whenPressed.value.callback))
  {
    match b.whenPressed
    case None => ButtonStep(b, NothingFired)
    case Some(Direct(p)) => ButtonStep(b, PressFired(p))
    case Some(RecordPress) => ButtonStep(AfterRecordPress(b, now), NothingFired)
  }

  /** A physical release: the GPIO button runs its `when_released` handler. */
  function AfterPhysicalRelease<P, H>(b: ButtonState<P, H>, now: real): (r: ButtonStep<P, H>)
    ensures b.whenReleased.None? ==> r == ButtonStep(b, NothingFired)
    ensures r.state.whenPressed == b.whenPressed && r.state.whenReleased == b.whenReleased
    ensures r.fired.HoldFired? ==> b.whenReleased == Some(r.fired.hold) && b.holdStart.Some?
    ensures !r.fired.PressFired?
  {
    match b.whenReleased
    case None => ButtonStep(b, NothingFired)
    case Some(h) => AfterRelease(b, h, now)
  }

  /** A button wired with a hold callback reports, on release, the time since
      its press. */
  lemma PressThenReleaseMeasuresHold<P, H>(b: ButtonState<P, H>, pressedAt: real, releasedAt: real)
    requires b.whenPressed == Some(RecordPress) && b.whenReleased.Some?
    ensures var pressed := AfterPhysicalPress(b, pressedAt).state;
      AfterPhysicalRelease(pressed, releasedAt) ==
        ButtonStep(b.(holdStart := None), HoldFired(b.whenReleased.value, releasedAt - pressedAt))
  {
  }

  /** Of two presses before a release, the later one is measured from. */
  lemma LatestPressWins<P, H>(b: ButtonState<P, H>, first: real, second: real, releasedAt: real)
    requires b.whenPressed == Some(RecordPress) && b.whenReleased.Some?
    ensures var pressed := AfterPhysicalPress(AfterPhysicalPress(b, first).state, second).state;
      AfterPhysicalRelease(pressed, releasedAt).fired == HoldFired(b.whenReleased.value, releasedAt - second)
  {
  }

  /** A second release in a row calls nothing: the first one consumed the
      recorded press. */
  lemma SecondReleaseFiresNothing<P, H>(b: ButtonState<P, H>, first: real, second: real)
    ensures var once := AfterPhysicalRelease(b, first).state;
      AfterPhysicalRelease(once, second) == ButtonStep(once, NothingFired)
  {
  }

  /** A button wired only with a press callback calls it on every press and
      never tracks a hold. */
  lemma DirectPressNeverTracksHold<P, H>(press: P, now: real)
    ensures var b := AfterSetup(Unwired<P, H>(), Some(press), None);
      && AfterPhysicalPress(b, now) == ButtonStep(b, PressFired(press))
      && AfterPhysicalRelease(b, now) == ButtonStep(b, NothingFired)
  {
  }

  /** A button wired with a hold callback never calls a press callback,
      whatever press callback it was given. */
  lemma HoldWiringDropsPressCallback<P, H>(press: Option<P>, hold: H, b: ButtonState<P, H>, now: real)
    requires b.whenPressed == AfterSetup(Unwired<P, H>(), press, Some(hold)).whenPressed
    ensures !AfterPhysicalPress(b, now).fired.PressFired?
    ensures !AfterPhysicalRelease(b, now).fired.PressFired?
  {
  }

  /** The handler object. `_on_release` gets its callback from the lambda
      that `_setup_callbacks` installs. */
  class ButtonHandler<P, H> {
    var whenPressed: Option<PressHandler<P>>
    var whenReleased: Option<H>
    var holdStart: Option<real>

    ghost function Snapshot(): ButtonState<P, H>
      reads this
    {
      ButtonState(whenPressed, whenReleased, holdStart)
    }

    /** `__init__` (button.py:22-56), without the GPIO device itself. */
    constructor (press: Option<P>, hold: Option<H>)
      ensures Snapshot() == AfterSetup(Unwired<P, H>(), press, hold)
      ensures holdStart == None
    {
      holdStart := None;
      whenPressed := None;
      whenReleased := None;
      new;
      SetupCallbacks(press, hold);
    }

    method SetupCallbacks(press: Option<P>, hold: Option<H>)
      modifies this
      ensures Snapshot() == AfterSetup(old(Snapshot()), press, hold)
    {
      if press.Some? && hold.None? {
        whenPressed := Some(Direct(press.value));
      }
      if hold.Some? {
        whenPressed := Some(RecordPress);
        whenReleased := hold;
      }
    }

    method OnPress(now: real)
      modifies this
      ensures Snapshot() == AfterRecordPress(old(Snapshot()), now)
    {
      holdStart := Some(now);
    }

    /** Returns the callback to call and the hold time to call it with. */
    method OnRelease(callback: H, now: real) returns (fired: Fired<P, H>)
      modifies this
      ensures ButtonStep(Snapshot(), fired) == AfterRelease(old(Snapshot()), callback, now)
    {
      fired := NothingFired;
      if holdStart.Some? {
        var holdDuration := now - holdStart.value;
        holdStart := None;
        fired := HoldFired(callback, holdDuration);
      }
    }
  }
}
