/** System control of src/services/system.py: how long button 4 was held
    decides between doing nothing, rebooting and shutting down. The reboot
    and shutdown commands are outside the model; only how they ended is. */
module SystemControl {
  import opened Common

  datatype SystemAction = NoAction | Reboot | Shutdown

  /** What `handle_button4_held` chose, and how the call ended. */
  datatype SystemResult = SystemResult(action: SystemAction, status: Status)

  /** The choice of `handle_button4_held` (system.py:47-54). */
  function ActionFor(holdTime: real): (a: SystemAction)
    ensures a == NoAction <==> holdTime < 2.0
    ensures a == Reboot <==> 2.0 <= holdTime < 5.0
    ensures a == Shutdown <==> 5.0 <= holdTime
  {
    if holdTime < 2.0 then NoAction
    else if holdTime >= 5.0 then Shutdown
    else Reboot
  }

  /** How far an action goes: nothing, then reboot, then shutdown. */
  function Severity(a: SystemAction): nat
  {
    match a
    case NoAction => 0
    case Reboot => 1
    case Shutdown => 2
  }

  /** Holding longer never chooses a lesser action. */
  lemma LongerHoldNeverLesser(shorter: real, longer: real)
    requires shorter <= longer
    ensures Severity(ActionFor(shorter)) <= Severity(ActionFor(longer))
  {
  }

  /** `reboot_system` / `shutdown_system` (system.py:20-36): the command runs
      with `check=True`, so a non-zero exit raises CalledProcessError, a
      SubprocessError, which surfaces as ServiceError. */
  function CommandStatus(outcome: CommandOutcome): (s: Status)
    ensures s == Ok <==> outcome == Exited(0)
    ensures s != Ok ==> s == Raised(ServiceError)
  {
    if outcome == Exited(0) then Ok else Raised(ServiceError)
  }

  /** `handle_button4_held` (system.py:38-54): a short hold returns without
      running anything; otherwise the chosen command runs. */
  function HandleButton4Held(holdTime: real, outcome: CommandOutcome): (r: SystemResult)
    ensures r.action == ActionFor(holdTime)
    ensures holdTime < 2.0 ==> r.status == Ok
    ensures holdTime >= 2.0 ==> (r.status == Ok <==> outcome == Exited(0))
    ensures r.status.Raised? ==> r.status.error == ServiceError
  {
    var action := ActionFor(holdTime);
    SystemResult(action, if action == NoAction then Ok else CommandStatus(outcome))
  }
}
