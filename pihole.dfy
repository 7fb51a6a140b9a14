/** The Pi-hole update selection flow of src/services/pihole.py.

    A long press of button 2 arms the flow: the controller starts waiting for
    a confirmation and starts a single-shot timer of CONFIRMATION_TIMEOUT
    seconds. While it waits, a confirm press clears the state and runs an
    update command; a cancel, or the timer firing, clears the state and
    switches the display back to the PADD window.

    The timer is a value `Timer(id, interval)`: `started` counts the timers
    created so far and gives each its id, and the ghost set `live` holds the
    ids of the timers that were started and not cancelled. The display, the
    console and the commands are recorded in the ghost log `effects`. */
module PiHoleService {
  import opened Common

  /** The two update commands (`pihole -g` and `pihole -up`). */
  datatype Command = GravityUpdate | PiHoleUpdate

  /** A message printed on the control window. */
  datatype Notice =
    | UpdateCancelled
    | Completed(command: Command)   // the command exited with code 0
    | Failed(command: Command)      // the command exited with another code
    | Errored(command: Command)     // running the command raised SubprocessError

  /** What the controller does to the world, in the order it does it. */
  datatype Effect =
    | Say(notice: Notice)
    | Sleep(seconds: nat)
    | SwitchToPadd
    | ShowUpdateSelection
    | Run(command: Command, pending: bool)  // `pending`: the waiting flag when the command starts

  /** How `self.display.show_update_selection()` ended (pihole.py:75): it
      returned True, returned False, or raised. */
  datatype ShowOutcome = Shown | NotShown | ShowRaised(error: Error)

  /** DisplayManager (src/display/manager.py) defines show_gravity_update and
      show_pihole_update but no show_update_selection, so in the repository as
      written the call at pihole.py:75 raises AttributeError. */
  const AS_WRITTEN_SHOW: ShowOutcome := ShowRaised(AttributeError("show_update_selection"))

  /** A `threading.Timer` that calls `_handle_timeout` after `interval` seconds. */
  datatype Timer = Timer(id: nat, interval: nat)

  /** The controller's fields `_waiting_for_confirmation` and
      `_confirmation_timer`, with the timer bookkeeping and the effect log. */
  datatype FlowState = FlowState(
    waiting: bool,
    timer: Option<Timer>,
    live: set<nat>,
    started: nat,
    effects: seq<Effect>)

  /** The state after an operation, and how the operation ended. */
  datatype FlowStep = FlowStep(state: FlowState, status: Status)

  function TimerIds(t: Option<Timer>): set<nat>
  {
    if t.Some? then {t.value.id} else {}
  }

  /** What holds between operations: the controller waits exactly when it
      holds a timer, that timer is the only one still live, and it was started
      with the confirmation timeout. */
  ghost predicate Inv(s: FlowState)
  {
    && (s.waiting <==> s.timer.Some?)
    && s.live == TimerIds(s.timer)
    && (s.timer.Some? ==> s.timer.value.id < s.started && s.timer.value.interval == CONFIRMATION_TIMEOUT)
  }

  /** A new controller (pihole.py:29-30). */
  const IDLE: FlowState := FlowState(false, None, {}, 0, [])

  /** The messages and display switch of a cancellation (pihole.py:62-65). */
  const CANCEL_FEEDBACK: seq<Effect> := [Say(UpdateCancelled), Sleep(FEEDBACK_DELAY), SwitchToPadd]

  /** `self._confirmation_timer.cancel()` on the stored timer, if any. */
  function CancelStored(s: FlowState): (r: FlowState)
    ensures r.live == s.live - TimerIds(s.timer)
    ensures r.(live := s.live) == s
  {
    if s.timer.Some? then s.(live := s.live - {s.timer.value.id}) else s
  }

  /** `_start_confirmation_timer` (pihole.py:36-42): cancel the stored timer,
      then store and start a new one. */
  function AfterStartTimer(s: FlowState): (r: FlowState)
    ensures r.timer == Some(Timer(s.started, CONFIRMATION_TIMEOUT))
    ensures r.started == s.started + 1 && r.waiting == s.waiting && r.effects == s.effects
    ensures s.started in r.live
    ensures s.live == TimerIds(s.timer) ==> r.live == {s.started}
  {
    var c := CancelStored(s);
    c.(timer := Some(Timer(s.started, CONFIRMATION_TIMEOUT)), live := c.live + {s.started}, started := s.started + 1)
  }

  /** `_clear_confirmation_state` (pihole.py:50-56): from any state, the flag
      is down and no timer is stored or live. */
  function AfterClear(s: FlowState): (r: FlowState)
    ensures !r.waiting && r.timer == None
    ensures r.started == s.started && r.effects == s.effects
    ensures r.live == s.live - TimerIds(s.timer)
    ensures s.live == TimerIds(s.timer) ==> r.live == {}
    ensures Inv(s) ==> Inv(r)
  {
    CancelStored(s).(timer := None, waiting := false)
  }

  /** `cancel_update` (pihole.py:58-65). */
  function AfterCancel(s: FlowState): (r: FlowState)
    ensures !s.waiting ==> r == s
    ensures s.waiting ==> !r.waiting && r.timer == None && r.started == s.started
    ensures s.waiting ==> r.effects == s.effects + CANCEL_FEEDBACK
    ensures s.waiting && s.live == TimerIds(s.timer) ==> r.live == {}
    ensures Inv(s) ==> Inv(r) && !r.waiting
  {
    if s.waiting then
      var c := AfterClear(s.(effects := s.effects + [Say(UpdateCancelled)]));
      c.(effects := c.effects + [Sleep(FEEDBACK_DELAY), SwitchToPadd])
    else
      s
  }

  /** `_handle_timeout` (pihole.py:44-48), run when a timer fires. It does
      not ask which timer fired: it acts on the flag alone. */
  function AfterTimeout(s: FlowState): (r: FlowState)
    ensures !s.waiting ==> r == s
    ensures s.waiting ==> !r.waiting && r.timer == None && r.effects == s.effects + CANCEL_FEEDBACK
    ensures Inv(s) ==> Inv(r) && r.live == {}
  {
    if s.waiting then AfterCancel(s) else s
  }

  /** `handle_button2_held` (pihole.py:67-77). A hold of at least one second
      arms the flow; then the selection screen is asked for. */
  function AfterHold2(s: FlowState, holdTime: real, show: ShowOutcome): (r: FlowStep)
    ensures holdTime < 1.0 ==> r == FlowStep(s, Ok)
    ensures holdTime >= 1.0 ==> r.state.started == s.started + 1
    // armed: waiting, with the new timer as the only live one
    ensures holdTime >= 1.0 && !show.NotShown? ==>
      && r.state.waiting
      && r.state.timer == Some(Timer(s.started, CONFIRMATION_TIMEOUT))
      && (s.live == TimerIds(s.timer) ==> r.state.live == {s.started})
    ensures holdTime >= 1.0 && show == Shown ==>
      r.status == Ok && r.state.effects == s.effects + [ShowUpdateSelection]
    // the screen call raised: the arm stays and the exception propagates
    ensures holdTime >= 1.0 && show.ShowRaised? ==>
      r.status == Raised(show.error) && r.state.effects == s.effects
    // the screen could not be shown: the arm is undone
    ensures holdTime >= 1.0 && show == NotShown ==>
      && r.status == Ok
      && !r.state.waiting && r.state.timer == None
      && (s.live == TimerIds(s.timer) ==> r.state.live == {})
      && r.state.effects == s.effects + CANCEL_FEEDBACK
    ensures Inv(s) ==> Inv(r.state)
  {
    if holdTime >= 1.0 then
      var armed := AfterStartTimer(s.(waiting := true));
      match show
      case Shown => FlowStep(armed.(effects := armed.effects + [ShowUpdateSelection]), Ok)
      case NotShown => FlowStep(AfterCancel(armed), Ok)
      case ShowRaised(e) => FlowStep(armed, Raised(e))
    else
      FlowStep(s, Ok)
  }

  /** The message an update prints when its command ends (pihole.py:113-122). */
  function Report(command: Command, outcome: CommandOutcome): (n: Notice)
    ensures !n.UpdateCancelled? && n.command == command
    ensures n.Completed? <==> outcome == Exited(0)
    ensures n.Errored? <==> outcome.SubprocessFailure?
  {
    match outcome
    case Exited(code) => if code == 0 then Completed(command) else Failed(command)
    case SubprocessFailure => Errored(command)
  }

  /** `update_gravity` / `update_pihole` (pihole.py:93-126, 128-161): run the
      command, report how it ended, and in the `finally` tail wait and switch
      back to PADD. Only SubprocessError escapes, as ServiceError. */
  function AfterUpdate(s: FlowState, command: Command, outcome: CommandOutcome): (r: FlowStep)
    ensures r.state.(effects := s.effects) == s
    ensures |r.state.effects| == |s.effects| + 4 && r.state.effects[..|s.effects|] == s.effects
    ensures r.state.effects[|s.effects|] == Run(command, s.waiting)
    ensures r.state.effects[|s.effects| + 1] == Say(Report(command, outcome))
    ensures r.state.effects[|s.effects| + 2..] == [Sleep(FEEDBACK_DELAY), SwitchToPadd]
    ensures r.status == Ok <==> outcome.Exited?
    ensures r.status.Raised? ==> r.status.error == ServiceError
  {
    var status := if outcome.SubprocessFailure? then Raised(ServiceError) else Ok;
    var ran := s.effects + [Run(command, s.waiting), Say(Report(command, outcome))];
    FlowStep(s.(effects := ran + [Sleep(FEEDBACK_DELAY), SwitchToPadd]), status)
  }

  /** `handle_button3_press` / `handle_button4_press` (pihole.py:79-91): a
      confirm press acts only while waiting; it clears the state, then runs. */
  function AfterConfirm(s: FlowState, command: Command, outcome: CommandOutcome): (r: FlowStep)
    ensures !s.waiting ==> r == FlowStep(s, Ok)
    ensures s.waiting ==>
      && !r.state.waiting && r.state.timer == None
      && |r.state.effects| == |s.effects| + 4 && r.state.effects[..|s.effects|] == s.effects
      && r.state.effects[|s.effects|] == Run(command, false)
      && r.state.effects[|s.effects| + 2..] == [Sleep(FEEDBACK_DELAY), SwitchToPadd]
      && (r.status == Ok <==> outcome.Exited?)
    ensures Inv(s) ==> Inv(r.state) && !r.state.waiting
  {
    if s.waiting then AfterUpdate(AfterClear(s), command, outcome) else FlowStep(s, Ok)
  }

  /** Clearing twice is clearing once. */
  lemma ClearIsIdempotent(s: FlowState)
    ensures AfterClear(AfterClear(s)) == AfterClear(s)
  {
  }

  /** After a confirm press, pending or not, a timer that still fires
      changes nothing. */
  lemma LateTimeoutAfterConfirm(s: FlowState, command: Command, outcome: CommandOutcome)
    ensures var r := AfterConfirm(s, command, outcome).state; AfterTimeout(r) == r
  {
  }

  /** Once a cancel has cleared the state, a timer that still fires changes
      nothing, so there is no second cancellation message. */
  lemma LateTimeoutAfterCancel(s: FlowState)
    ensures AfterTimeout(AfterCancel(s)) == AfterCancel(s)
  {
  }

  /** The number of switches back to PADD in a log. */
  function Switches(es: seq<Effect>): (n: nat)
    ensures n <= |es|
  {
    if es == [] then 0 else (if es[0] == SwitchToPadd then 1 else 0) + Switches(es[1..])
  }

  lemma {:induction false} SwitchesAppend(a: seq<Effect>, b: seq<Effect>)
    ensures Switches(a + b) == Switches(a) + Switches(b)
  {
    if a == [] {
      assert a + b == b;
    } else {
      assert (a + b)[1..] == a[1..] + b;
      SwitchesAppend(a[1..], b);
    }
  }

  /** A log that ends with one switch back, after effects that are not. */
  lemma {:induction false} OneSwitchAtEnd(es: seq<Effect>)
    requires es != [] && es[|es| - 1] == SwitchToPadd
    requires forall i | 0 <= i < |es| - 1 :: es[i] != SwitchToPadd
    ensures Switches(es) == 1
  {
    if |es| > 1 {
      OneSwitchAtEnd(es[1..]);
    }
  }

  /** A cancel while waiting switches back to PADD exactly once; a cancel
      while idle does not switch at all. */
  lemma CancelSwitchesOnce(s: FlowState)
    ensures Switches(AfterCancel(s).effects) == Switches(s.effects) + (if s.waiting then 1 else 0)
  {
    OneSwitchAtEnd(CANCEL_FEEDBACK);
    SwitchesAppend(s.effects, CANCEL_FEEDBACK);
  }

  /** An update switches back to PADD exactly once, whether its command
      succeeded, failed or raised. */
  lemma UpdateSwitchesOnce(s: FlowState, command: Command, outcome: CommandOutcome)
    ensures Switches(AfterUpdate(s, command, outcome).state.effects) == Switches(s.effects) + 1
  {
    var tail := [Run(command, s.waiting), Say(Report(command, outcome)), Sleep(FEEDBACK_DELAY), SwitchToPadd];
    assert AfterUpdate(s, command, outcome).state.effects == s.effects + tail;
    OneSwitchAtEnd(tail);
    SwitchesAppend(s.effects, tail);
  }

  /** The controller object. Its methods follow pihole.py statement by
      statement and are proved to compute the functions above. */
  class PiHole {
    var waiting: bool
    var timer: Option<Timer>
    var started: nat
    ghost var live: set<nat>
    ghost var effects: seq<Effect>

    ghost function Snapshot(): FlowState
      reads this
    {
      FlowState(waiting, timer, live, started, effects)
    }

    ghost predicate Valid()
      reads this
    {
      Inv(Snapshot())
    }

    /** `__init__` (pihole.py:18-34): not waiting, no timer. */
    constructor ()
      ensures Valid() && Snapshot() == IDLE
      ensures !waiting && timer == None && live == {}
    {
      waiting := false;
      timer := None;
      started := 0;
      live := {};
      effects := [];
    }

    method StartConfirmationTimer()
      modifies this
      ensures Snapshot() == AfterStartTimer(old(Snapshot()))
    {
      if timer.Some? {
        live := live - {timer.value.id};
      }
      timer := Some(Timer(started, CONFIRMATION_TIMEOUT));
      live := live + {started};
      started := started + 1;
    }

    method ClearConfirmationState()
      modifies this
      ensures Snapshot() == AfterClear(old(Snapshot()))
    {
      if timer.Some? {
        live := live - {timer.value.id};
        timer := None;
      }
      waiting := false;
    }

    method HandleTimeout()
      requires Valid()
      modifies this
      ensures Valid() && !waiting && timer == None
      ensures Snapshot() == AfterTimeout(old(Snapshot()))
    {
      if waiting {
        CancelUpdate();
      }
    }

    method CancelUpdate()
      modifies this
      ensures Snapshot() == AfterCancel(old(Snapshot()))
    {
      if waiting {
        effects := effects + [Say(UpdateCancelled)];
        ClearConfirmationState();
        effects := effects + [Sleep(FEEDBACK_DELAY)];
        effects := effects + [SwitchToPadd];
      }
    }

    method HandleButton2Held(holdTime: real, show: ShowOutcome) returns (status: Status)
      requires Valid()
      modifies this
      ensures Valid()
      ensures FlowStep(Snapshot(), status) == AfterHold2(old(Snapshot()), holdTime, show)
    {
      status := Ok;
      if holdTime >= 1.0 {
        waiting := true;
        StartConfirmationTimer();
        match show {
          case Shown =>
            effects := effects + [ShowUpdateSelection];
          case NotShown =>
            CancelUpdate();
          case ShowRaised(e) =>
            status := Raised(e);
        }
      }
    }

    method HandleButton3Press(outcome: CommandOutcome) returns (status: Status)
      requires Valid()
      modifies this
      ensures Valid() && !waiting
      ensures FlowStep(Snapshot(), status) == AfterConfirm(old(Snapshot()), GravityUpdate, outcome)
    {
      status := Ok;
      if waiting {
        ClearConfirmationState();
        status := UpdateGravity(outcome);
      }
    }

    method HandleButton4Press(outcome: CommandOutcome) returns (status: Status)
      requires Valid()
      modifies this
      ensures Valid() && !waiting
      ensures FlowStep(Snapshot(), status) == AfterConfirm(old(Snapshot()), PiHoleUpdate, outcome)
    {
      status := Ok;
      if waiting {
        ClearConfirmationState();
        status := UpdatePihole(outcome);
      }
    }

    method UpdateGravity(outcome: CommandOutcome) returns (status: Status)
      modifies this
      ensures FlowStep(Snapshot(), status) == AfterUpdate(old(Snapshot()), GravityUpdate, outcome)
    {
      status := RunUpdate(GravityUpdate, outcome);
    }

    method UpdatePihole(outcome: CommandOutcome) returns (status: Status)
      modifies this
      ensures FlowStep(Snapshot(), status) == AfterUpdate(old(Snapshot()), PiHoleUpdate, outcome)
    {
      status := RunUpdate(PiHoleUpdate, outcome);
    }

    /** The body shared by `update_gravity` and `update_pihole`. */
    method RunUpdate(command: Command, outcome: CommandOutcome) returns (status: Status)
      modifies this
      ensures FlowStep(Snapshot(), status) == AfterUpdate(old(Snapshot()), command, outcome)
    {
      effects := effects + [Run(command, waiting)];
      match outcome {
        case Exited(code) =>
          effects := effects + [Say(if code == 0 then Completed(command) else Failed(command))];
          status := Ok;
        case SubprocessFailure =>
          effects := effects + [Say(Errored(command))];
          status := Raised(ServiceError);
      }
      // finally:
      effects := effects + [Sleep(FEEDBACK_DELAY)];
      effects := effects + [SwitchToPadd];
    }

    /** `cleanup` (pihole.py:163-169). */
    method Cleanup()
      requires Valid()
      modifies this
      ensures Valid() && !waiting && timer == None && live == {}
      ensures Snapshot() == AfterClear(old(Snapshot()))
    {
      ClearConfirmationState();
    }
  }
}
