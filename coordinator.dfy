/** The button callbacks of main.py (lines 29-66): each callback looks at the
    update flow's waiting flag and then cancels the pending update, steps the
    backlight, forwards to the update flow, forwards to system control, or
    does nothing.

    Two of the forwarded calls name methods that the PiHole class does not
    define: main.py:49 calls `handle_button2_press` and main.py:54 calls
    `handle_button3_held`, while src/services/pihole.py:67, 79 and 86 define
    `handle_button2_held`, `handle_button3_press` and `handle_button4_press`.
    Such a call raises AttributeError after the guard and changes nothing;
    the route `Missing(name)` stands for it. */
module Coordinator {
  import opened Common
  import opened PiHoleService
  import Backlight
  import SystemControl

  /** The press callbacks `button1_pressed`, `button2_pressed`, `button3_pressed`. */
  datatype PressClosure = Button1Pressed | Button2Pressed | Button3Pressed

  /** The hold callbacks `button2_held`, `button3_held`, `button4_held`. */
  datatype HoldClosure = Button2Held | Button3Held | Button4Held

  /** One call of a callback; a hold callback receives the hold time. */
  datatype Call = Press(press: PressClosure) | Hold(hold: HoldClosure, holdTime: real)

  /** Where a callback sends the event. */
  datatype Route =
    | CancelPending                  // manager.pihole.cancel_update()
    | StepBrightness                 // manager.backlight.step_brightness()
    | Ignore                         // the guard fails: nothing is called
    | ArmUpdate(holdTime: real)      // manager.pihole.handle_button2_held(hold_time)
    | ConfirmGravity                 // manager.pihole.handle_button3_press()
    | ToSystemControl(holdTime: real) // manager.system.handle_button4_held(hold_time)
    | Missing(name: string)          // a call of a method PiHole does not define

  /** The guard table of main.py:29-66. Arming happens only from idle, and
      nothing reaches system control or the backlight while an update
      selection is pending. */
  function RouteOf(call: Call, waiting: bool): (r: Route)
    ensures r == CancelPending <==>
      waiting && (call == Press(Button1Pressed) || (call.Hold? && call.hold == Button4Held))
    ensures r == StepBrightness <==> !waiting && call == Press(Button1Pressed)
    ensures r.ArmUpdate? <==> !waiting && call.Hold? && call.hold == Button2Held
    ensures r == ConfirmGravity <==> waiting && call == Press(Button3Pressed)
    ensures r.ToSystemControl? <==> !waiting && call.Hold? && call.hold == Button4Held
    ensures r.ArmUpdate? || r.ToSystemControl? ==> r.holdTime == call.holdTime
    ensures r.Missing? <==>
      (waiting && call == Press(Button2Pressed)) || (!waiting && call.Hold? && call.hold == Button3Held)
    ensures r.Missing? ==> r.name == (if call.Press? then "handle_button2_press" else "handle_button3_held")
  {
    match call
    case Press(Button1Pressed) => if waiting then CancelPending else StepBrightness
    case Press(Button2Pressed) => if waiting then Missing("handle_button2_press") else Ignore
    case Press(Button3Pressed) => if waiting then ConfirmGravity else Ignore
    case Hold(Button2Held, t) => if waiting then Ignore else ArmUpdate(t)
    case Hold(Button3Held, t) => if waiting then Ignore else Missing("handle_button3_held")
    case Hold(Button4Held, t) => if waiting then CancelPending else ToSystemControl(t)
  }

  /** The objects the callbacks act on, as values: the update flow, the
      backlight, and the log of reboot and shutdown commands issued. */
  datatype AppState = AppState(
    pihole: FlowState,
    backlight: Backlight.BacklightState,
    issued: seq<SystemControl.SystemAction>)

  datatype AppStep = AppStep(state: AppState, status: Status)

  /** How the outside world answers during one callback: the selection
      screen, an update command, the PWM device, and a system command. */
  datatype Env = Env(
    show: ShowOutcome,
    update: CommandOutcome,
    ledAccepts: bool,
    system: CommandOutcome)

  ghost predicate AppInv(a: AppState)
  {
    Inv(a.pihole) && Backlight.Inv(a.backlight)
  }

  /** The objects right after start-up. */
  function AppBoot(ledAvailable: bool): (a: AppState)
    ensures AppInv(a) && !a.pihole.waiting && a.backlight.step == 0 && a.issued == []
  {
    AppState(IDLE, Backlight.Boot(ledAvailable), [])
  }

  /** The effect of one callback. */
  function AfterCall(a: AppState, call: Call, env: Env): (r: AppStep)
    // button1_pressed: cancel while waiting, leaving the backlight alone
    ensures call == Press(Button1Pressed) && a.pihole.waiting ==>
      r == AppStep(a.(pihole := AfterCancel(a.pihole)), Ok)
    // button1_pressed: step the backlight once while idle; its errors are logged, not raised
    ensures call == Press(Button1Pressed) && !a.pihole.waiting ==>
      r == AppStep(a.(backlight := Backlight.AfterStepBrightness(a.backlight, env.ledAccepts).state), Ok)
    // button2_held: forwarded only while idle
    ensures call.Hold? && call.hold == Button2Held && a.pihole.waiting ==> r == AppStep(a, Ok)
    ensures call.Hold? && call.hold == Button2Held && !a.pihole.waiting ==>
      var f := AfterHold2(a.pihole, call.holdTime, env.show); r == AppStep(a.(pihole := f.state), f.status)
    // button2_pressed, button3_pressed: nothing while idle
    ensures call.Press? && call.press != Button1Pressed && !a.pihole.waiting ==> r == AppStep(a, Ok)
    // button3_pressed: confirms the gravity update while waiting
    ensures call == Press(Button3Pressed) && a.pihole.waiting ==>
      var f := AfterConfirm(a.pihole, GravityUpdate, env.update); r == AppStep(a.(pihole := f.state), f.status)
    // the two calls of undefined methods
    ensures call == Press(Button2Pressed) && a.pihole.waiting ==>
      r == AppStep(a, Raised(AttributeError("handle_button2_press")))
    ensures call.Hold? && call.hold == Button3Held ==>
      r == AppStep(a, if a.pihole.waiting then Ok else Raised(AttributeError("handle_button3_held")))
    // button4_held: cancel while waiting, never reaching system control
    ensures call.Hold? && call.hold == Button4Held && a.pihole.waiting ==>
      r == AppStep(a.(pihole := AfterCancel(a.pihole)), Ok)
    // button4_held: while idle, system control gets the same hold time
    ensures call.Hold? && call.hold == Button4Held && !a.pihole.waiting ==>
      var action := SystemControl.ActionFor(call.holdTime);
      && r.state == a.(issued := a.issued + (if action == SystemControl.NoAction then [] else [action]))
      && r.status == SystemControl.HandleButton4Held(call.holdTime, env.system).status
    // a new confirmation timer is started only from idle
    ensures r.state.pihole.started != a.pihole.started ==> !a.pihole.waiting
    ensures AppInv(a) ==> AppInv(r.state)
  {
    match RouteOf(call, a.pihole.waiting)
    case CancelPending =>
      AppStep(a.(pihole := AfterCancel(a.pihole)), Ok)
    case StepBrightness =>
      AppStep(a.(backlight := Backlight.AfterStepBrightness(a.backlight, env.ledAccepts).state), Ok)
    case Ignore =>
      AppStep(a, Ok)
    case ArmUpdate(t) =>
      var f := AfterHold2(a.pihole, t, env.show);
      AppStep(a.(pihole := f.state), f.status)
    case ConfirmGravity =>
      var f := AfterConfirm(a.pihole, GravityUpdate, env.update);
      AppStep(a.(pihole := f.state), f.status)
    case ToSystemControl(t) =>
      var result := SystemControl.HandleButton4Held(t, env.system);
      var issued := if result.action == SystemControl.NoAction then [] else [result.action];
      AppStep(a.(issued := a.issued + issued), result.status)
    case Missing(name) =>
      AppStep(a, Raised(AttributeError(name)))
  }

  /** The callbacks of main.py over the shared controller objects. */
  class Coordinator {
    const pihole: PiHole
    const backlight: Backlight.DisplayBacklight
    ghost var issued: seq<SystemControl.SystemAction>

    ghost function Snapshot(): AppState
      reads this, pihole, backlight
    {
      AppState(pihole.Snapshot(), backlight.Snapshot(), issued)
    }

    ghost predicate Valid()
      reads this, pihole, backlight
    {
      pihole.Valid() && backlight.Valid()
    }

    /** The controllers as ButtonManager creates them
        (src/controllers/button_manager.py:29-32). */
    constructor (ledAvailable: bool)
      ensures Valid() && fresh(pihole) && fresh(backlight)
      ensures Snapshot() == AppBoot(ledAvailable)
    {
      pihole := new PiHole();
      backlight := new Backlight.DisplayBacklight(ledAvailable);
      issued := [];
    }

    /** Runs the callback `call` (main.py:29-66). */
    method Dispatch(call: Call, env: Env) returns (status: Status)
      requires Valid()
      modifies this, pihole, backlight
      ensures Valid()
      ensures AppStep(Snapshot(), status) == AfterCall(old(Snapshot()), call, env)
    {
      status := Ok;
      match call {
        case Press(Button1Pressed) =>
          if pihole.waiting {
            pihole.CancelUpdate();
            return;
          }
          // try: step, then read the new level; except Exception: log it
          var stepped := backlight.StepBrightness(env.ledAccepts);
          if stepped == Ok {
            var current := backlight.GetBrightnessPercentage();
          }
        case Hold(Button2Held, holdTime) =>
          if !pihole.waiting {
            status := pihole.HandleButton2Held(holdTime, env.show);
          }
        case Press(Button2Pressed) =>
          if pihole.waiting {
            // main.py:49: PiHole has no handle_button2_press
            status := Raised(AttributeError("handle_button2_press"));
          }
        case Hold(Button3Held, holdTime) =>
          if !pihole.waiting {
            // main.py:54: PiHole has no handle_button3_held
            status := Raised(AttributeError("handle_button3_held"));
          }
        case Press(Button3Pressed) =>
          if pihole.waiting {
            status := pihole.HandleButton3Press(env.update);
          }
        case Hold(Button4Held, holdTime) =>
          if pihole.waiting {
            pihole.CancelUpdate();
            return;
          }
          var result := SystemControl.HandleButton4Held(holdTime, env.system);
          if result.action != SystemControl.NoAction {
            issued := issued + [result.action];
          }
          status := result.status;
      }
    }
  }
}
