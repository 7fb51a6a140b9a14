/** The appliance as main.py assembles it: four GPIO buttons wired to the
    callbacks by the table `buttons_config` (main.py:72-77), the callbacks
    acting on the update flow, the backlight and system control, and the
    confirmation timer firing as an event of its own.

    The machine takes physical events (a button going down or up at a time,
    or the timer firing) and shows what the wiring lets through. Because a
    button given both a press and a hold callback keeps only the hold
    callback (src/hardware/button.py:68-74), the presses of buttons 2 and 3
    never reach `button2_pressed` or `button3_pressed`, and no update command
    is ever started. */
module Appliance {
  import opened Common
  import opened PiHoleService
  import opened ButtonInput
  import opened Coordinator

  type Handler = ButtonState<PressClosure, HoldClosure>

  /** One row of `buttons_config`: the press and the hold callback. */
  datatype Wiring = Wiring(press: Option<PressClosure>, hold: Option<HoldClosure>)

  /** `buttons_config` (main.py:72-77), for buttons 1 to 4. */
  const BUTTONS_CONFIG: seq<Wiring> := [
    Wiring(Some(Button1Pressed), None),
    Wiring(Some(Button2Pressed), Some(Button2Held)),
    Wiring(Some(Button3Pressed), Some(Button3Held)),
    Wiring(None, Some(Button4Held))
  ]

  /** The handler a row gives a new button. */
  function Wired(w: Wiring): Handler
  {
    AfterSetup(Unwired(), w.press, w.hold)
  }

  /** What the table wires: button 1 calls its press callback directly and
      tracks no hold; buttons 2, 3 and 4 record presses and call their hold
      callbacks, so the press callbacks given to buttons 2 and 3 are dropped. */
  lemma WiringTable()
    ensures Wired(BUTTONS_CONFIG[0]) == ButtonState(Some(Direct(Button1Pressed)), None, None)
    ensures Wired(BUTTONS_CONFIG[1]) == ButtonState(Some(RecordPress), Some(Button2Held), None)
    ensures Wired(BUTTONS_CONFIG[2]) == ButtonState(Some(RecordPress), Some(Button3Held), None)
    ensures Wired(BUTTONS_CONFIG[3]) == ButtonState(Some(RecordPress), Some(Button4Held), None)
  {
  }

  datatype ButtonId = One | Two | Three | Four

  function Index(b: ButtonId): (i: nat)
    ensures i < |BUTTONS_CONFIG|
  {
    match b
    case One => 0
    case Two => 1
    case Three => 2
    case Four => 3
  }

  /** A physical event. */
  datatype Physical =
    | PressButton(button: ButtonId, at: real)
    | ReleaseButton(button: ButtonId, at: real)
    | TimerFires

  /** A physical event, with how the outside world answers while it is handled. */
  datatype Input = Input(event: Physical, env: Env)

  datatype Machine = Machine(app: AppState, buttons: seq<Handler>)

  /** The appliance after start-up: idle flow, backlight at 100%, buttons
      wired by the table, no press recorded. */
  function PowerOn(ledAvailable: bool): (m: Machine)
    ensures |m.buttons| == |BUTTONS_CONFIG| && m.app == AppBoot(ledAvailable)
    ensures forall i | 0 <= i < |BUTTONS_CONFIG| :: m.buttons[i] == Wired(BUTTONS_CONFIG[i])
    ensures forall i | 0 <= i < |BUTTONS_CONFIG| :: m.buttons[i].holdStart == None
  {
    Machine(AppBoot(ledAvailable), [
      Wired(BUTTONS_CONFIG[0]), Wired(BUTTONS_CONFIG[1]),
      Wired(BUTTONS_CONFIG[2]), Wired(BUTTONS_CONFIG[3])
    ])
  }

  /** Runs the callback a button event fired, if any. An exception escaping a
      callback leaves the objects as they were when it was raised. */
  function Deliver(a: AppState, fired: Fired<PressClosure, HoldClosure>, env: Env): AppState
  {
    match fired
    case NothingFired => a
    case PressFired(p) => AfterCall(a, Press(p), env).state
    case HoldFired(h, d) => AfterCall(a, Hold(h, d), env).state
  }

  /** One physical event: gpiozero runs the handler the button was given
      (button.py:68-92), or the confirmation timer calls `_handle_timeout`
      (pihole.py:40-48). No event rewires a button; a button event touches
      only that button's handler; a timer event touches only the flow. */
  function Next(m: Machine, input: Input): (r: Machine)
    requires |m.buttons| == |BUTTONS_CONFIG|
    ensures |r.buttons| == |BUTTONS_CONFIG|
    ensures forall i | 0 <= i < |BUTTONS_CONFIG| ::
      r.buttons[i].whenPressed == m.buttons[i].whenPressed && r.buttons[i].whenReleased == m.buttons[i].whenReleased
    ensures !input.event.TimerFires? ==>
      forall i | 0 <= i < |BUTTONS_CONFIG| && i != Index(input.event.button) :: r.buttons[i] == m.buttons[i]
    ensures input.event.TimerFires? ==>
      r.buttons == m.buttons && r.app == m.app.(pihole := AfterTimeout(m.app.pihole))
  {
    match input.event
    case PressButton(b, at) =>
      var step := AfterPhysicalPress(m.buttons[Index(b)], at);
      Machine(Deliver(m.app, step.fired, input.env), m.buttons[Index(b) := step.state])
    case ReleaseButton(b, at) =>
      var step := AfterPhysicalRelease(m.buttons[Index(b)], at);
      Machine(Deliver(m.app, step.fired, input.env), m.buttons[Index(b) := step.state])
    case TimerFires =>
      m.(app := m.app.(pihole := AfterTimeout(m.app.pihole)))
  }

  /** A sequence of physical events, in order. The wiring a button was
      given at start-up is kept whatever happens. */
  function RunInputs(m: Machine, inputs: seq<Input>): (r: Machine)
    requires |m.buttons| == |BUTTONS_CONFIG|
    ensures |r.buttons| == |BUTTONS_CONFIG|
    ensures forall i | 0 <= i < |BUTTONS_CONFIG| ::
      r.buttons[i].whenPressed == m.buttons[i].whenPressed && r.buttons[i].whenReleased == m.buttons[i].whenReleased
    decreases |inputs|
  {
    if inputs == [] then m else RunInputs(Next(m, inputs[0]), inputs[1..])
  }

  /** No update command appears in a log. */
  predicate NoUpdateRun(es: seq<Effect>)
  {
    forall i | 0 <= i < |es| :: !es[i].Run?
  }

  /** What every reachable machine satisfies: the buttons keep the wiring of
      the table, the flow and backlight invariants hold, and no update
      command has run. */
  ghost predicate MachineInv(m: Machine)
  {
    && |m.buttons| == |BUTTONS_CONFIG|
    && (forall i | 0 <= i < |BUTTONS_CONFIG| ::
          && m.buttons[i].whenPressed == Wired(BUTTONS_CONFIG[i]).whenPressed
          && m.buttons[i].whenReleased == Wired(BUTTONS_CONFIG[i]).whenReleased)
    && AppInv(m.app)
    && NoUpdateRun(m.app.pihole.effects)
  }

  /** Every callback except `button3_pressed` leaves the log free of update
      commands. */
  lemma OnlyConfirmRuns(a: AppState, call: Call, env: Env)
    requires NoUpdateRun(a.pihole.effects) && call != Press(Button3Pressed)
    ensures NoUpdateRun(AfterCall(a, call, env).state.pihole.effects)
  {
  }

  /** With the table's wiring, a press delivers only `button1_pressed`, and a
      release delivers only hold callbacks. */
  lemma WiredPressesDeliver(m: Machine, b: ButtonId, at: real)
    requires MachineInv(m)
    ensures var f := AfterPhysicalPress(m.buttons[Index(b)], at).fired;
      f.NothingFired? || f == PressFired(Button1Pressed)
    ensures !AfterPhysicalRelease(m.buttons[Index(b)], at).fired.PressFired?
  {
  }

  lemma NextKeepsInvariant(m: Machine, input: Input)
    requires MachineInv(m)
    ensures MachineInv(Next(m, input))
  {
  }

  lemma {:induction false} RunKeepsInvariant(m: Machine, inputs: seq<Input>)
    requires MachineInv(m)
    ensures MachineInv(RunInputs(m, inputs))
    decreases |inputs|
  {
    if inputs != [] {
      NextKeepsInvariant(m, inputs[0]);
      RunKeepsInvariant(Next(m, inputs[0]), inputs[1..]);
    }
  }

  lemma PowerOnSatisfiesInvariant(ledAvailable: bool)
    ensures MachineInv(PowerOn(ledAvailable))
  {
  }

  /** Whatever the buttons do, whenever the timer fires and however the
      outside world answers, the appliance as wired never starts a gravity
      or Pi-hole update. */
  lemma NoUpdateEverRuns(ledAvailable: bool, inputs: seq<Input>)
    ensures NoUpdateRun(RunInputs(PowerOn(ledAvailable), inputs).app.pihole.effects)
  {
    PowerOnSatisfiesInvariant(ledAvailable);
    RunKeepsInvariant(PowerOn(ledAvailable), inputs);
  }

  /** At every point at most one confirmation timer is live, and one is live
      exactly while an update selection is pending. */
  lemma AtMostOneLiveTimer(ledAvailable: bool, inputs: seq<Input>)
    ensures var flow := RunInputs(PowerOn(ledAvailable), inputs).app.pihole;
      |flow.live| <= 1 && (flow.waiting <==> |flow.live| == 1)
  {
    PowerOnSatisfiesInvariant(ledAvailable);
    RunKeepsInvariant(PowerOn(ledAvailable), inputs);
  }

  /** While a selection is pending, pressing button 3 (the confirm button of
      the prompt) reaches no callback: only the press time is recorded. */
  lemma ConfirmPressIsSwallowed(m: Machine, at: real, env: Env)
    requires MachineInv(m)
    ensures Next(m, Input(PressButton(Three, at), env)).app == m.app
  {
    WiringTable();
  }

  /** Holding button 2 for a second or more from idle, in the repository as
      written: the flow arms and the missing selection screen raises, so the
      flow stays armed with no prompt shown; when the timer fires the flow is
      cancelled once, and a later firing changes nothing. */
  lemma HoldButton2ThenTimeout(ledAvailable: bool, pressedAt: real, releasedAt: real, env: Env)
    requires releasedAt - pressedAt >= 1.0 && env.show == AS_WRITTEN_SHOW
    ensures var armed := RunInputs(PowerOn(ledAvailable),
        [Input(PressButton(Two, pressedAt), env), Input(ReleaseButton(Two, releasedAt), env)]);
      && armed.app.pihole.waiting
      && armed.app.pihole.timer == Some(Timer(0, CONFIRMATION_TIMEOUT))
      && armed.app.pihole.live == {0}
      && armed.app.pihole.effects == []
    ensures var expired := RunInputs(PowerOn(ledAvailable),
        [Input(PressButton(Two, pressedAt), env), Input(ReleaseButton(Two, releasedAt), env),
         Input(TimerFires, env)]);
      && !expired.app.pihole.waiting
      && expired.app.pihole.timer == None
      && expired.app.pihole.live == {}
      && expired.app.pihole.effects == CANCEL_FEEDBACK
      && Next(expired, Input(TimerFires, env)) == expired
  {
    var m0 := PowerOn(ledAvailable);
    var i1 := Input(PressButton(Two, pressedAt), env);
    var i2 := Input(ReleaseButton(Two, releasedAt), env);
    var i3 := Input(TimerFires, env);
    WiringTable();
    var m1 := Next(m0, i1);
    assert m1.buttons[1].holdStart == Some(pressedAt);
    assert m1.app == m0.app;
    var m2 := Next(m1, i2);
    assert m2.app == AfterCall(m0.app, Hold(Button2Held, releasedAt - pressedAt), env).state;
    assert [i1, i2][1..] == [i2];
    assert RunInputs(m0, [i1, i2]) == m2 by {
      assert RunInputs(m1, [i2]) == RunInputs(m2, []);
    }
    var m3 := Next(m2, i3);
    assert [i1, i2, i3][1..] == [i2, i3];
    assert [i2, i3][1..] == [i3];
    assert RunInputs(m0, [i1, i2, i3]) == m3 by {
      assert RunInputs(m2, [i3]) == RunInputs(m3, []);
      assert RunInputs(m1, [i2, i3]) == RunInputs(m2, [i3]);
    }
  }
}
