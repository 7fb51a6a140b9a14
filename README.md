# Button-driven confirmation flow of a Pi-hole display appliance

This project models in Dafny the control core of a headless Pi-hole display.
Four GPIO buttons drive it:

- Button 1 steps the backlight through eleven levels.
- Holding button 2 arms an "update selection" that waits for a confirm press and cancels itself after `CONFIRMATION_TIMEOUT` (30) seconds.
- Holding button 4 reboots or shuts the machine down, depending on how long it was held.

The model has one module per source file:

| module | file | form |
|---|---|---|
| `Common` | constants, outcomes | values |
| `PiHoleService` | src/services/pihole.py | class `PiHole` with spec functions |
| `Backlight` | src/display/backlight.py | class `DisplayBacklight` with spec functions |
| `ButtonInput` | src/hardware/button.py | class `ButtonHandler<P, H>` with spec functions |
| `SystemControl` | src/services/system.py | pure functions |
| `Coordinator` | main.py:29-66 | guard table `RouteOf`, class `Coordinator` |
| `Appliance` | main.py:72-85 with the above | the wired machine over physical events |

## How the model is built

- **Classes and their specification functions.** Each class keeps the fields the source updates in place. Its methods follow the source statement by statement. Each method is proved to compute a pure function over a snapshot of those fields, named `After...`. The properties are stated on those functions and in lemmas.
- **The confirmation timer.** A stored timer is a value `Timer(id, interval)`. The counter `started` numbers the timers. The ghost set `live` holds the timers that were started and not yet cancelled.
- **Timeouts.** A timeout is an explicit event (`AfterTimeout`, `PiHole.HandleTimeout`), not a thread.
- **External calls.** The display, the update and system commands, and the PWM device are outside the model. Each becomes a parameter that says how the call ended: `ShowOutcome`, `CommandOutcome`, and an `accepted` flag for the PWM device.
- **Effect log.** What the controller shows, prints, sleeps and runs is recorded, in order, in a ghost log of `Effect`s.
- **Time.** Hold times and timestamps are `real` seconds, given as parameters instead of being read from a clock.

## Where the code and its own documentation disagree

The model follows the code in each case below.

- **Missing PiHole methods.**
  - `main.py:49` calls `handle_button2_press` and `main.py:54` calls `handle_button3_held`.
  - `PiHole` defines only `handle_button2_held`, `handle_button3_press` and `handle_button4_press` (src/services/pihole.py:67, 79, 86).
  - Both calls pass their guard, then raise AttributeError without changing any state. The route for them is `Missing(name)`.
- **Missing display method.**
  - `pihole.py:75` calls `display.show_update_selection()`, which `DisplayManager` (src/display/manager.py) does not define.
  - The model keeps the three possible outcomes of that call: shown, not shown, or raised.
  - `AS_WRITTEN_SHOW` is the outcome the repository actually produces: it raises.
  - Arming therefore leaves the flow waiting with a live timer and no prompt on screen, and only the timeout, button 1 or a button 4 hold clears it. See `HoldButton2ThenTimeout`.
- **Press callbacks are dropped when a hold callback is given.**
  - The docstring of `ButtonHandler.__init__` (src/hardware/button.py:31) documents `callback` as the function to call when the button is pressed, and main.py:74-75 passes one to buttons 2 and 3 together with a hold callback.
  - `_setup_callbacks` (src/hardware/button.py:68-74) instead replaces the press handler with the hold-start recorder.
  - Buttons 2 and 3 get both callbacks (main.py:74-75), so `button2_pressed` and `button3_pressed` are never called.
  - `NoUpdateEverRuns` proves that, as wired, no sequence of button events and timeouts ever starts a gravity or Pi-hole update.
- **Hold thresholds.** The hold-threshold constants at src/utils/constants.py:17-18 are unused. The thresholds are the literals 1.0 (pihole.py:71), 2.0 and 5.0 (system.py:47, 49), and the model uses those literals.

## Model

| member | source | states |
|---|---|---|
| `PiHoleService.CancelStored` | src/services/pihole.py:38-39 | cancelling the stored timer removes exactly that timer from the live set and changes nothing else |
| `PiHoleService.AfterStartTimer` | src/services/pihole.py:36-42 | the new timer gets the next id and CONFIRMATION_TIMEOUT. The previous timer is cancelled first, so when the live set held only the stored timer, exactly one timer (the new one) is live afterwards |
| `PiHoleService.AfterClear` | src/services/pihole.py:50-56 | from any state: not waiting, no stored timer, the stored timer no longer live, log unchanged. Preserves the invariant |
| `PiHoleService.AfterCancel` | src/services/pihole.py:58-65 | no-op when not waiting. When waiting: flag and timer cleared, no live timer, and the log gains the cancel message, a FEEDBACK_DELAY pause and one switch to PADD |
| `PiHoleService.AfterTimeout` | src/services/pihole.py:44-48 | cancels only if still waiting, otherwise changes nothing. Afterwards no timer is live |
| `PiHoleService.AfterHold2` | src/services/pihole.py:67-77 | a hold under 1.0 s changes nothing. Otherwise the flow arms with one live new timer. If the screen is shown, it is logged. If showing it returns False, the arm is undone with one switch back. If showing it raises, the flow stays armed and the error propagates |
| `PiHoleService.Report` | src/services/pihole.py:113-122 | the message names the command. It is a success exactly for exit code 0 and an error exactly for SubprocessError |
| `PiHoleService.AfterUpdate` | src/services/pihole.py:93-126 | the flow state is untouched. The log gains the run, its report, then the FEEDBACK_DELAY pause and the switch to PADD whatever the outcome. Only SubprocessError is raised, as ServiceError |
| `PiHoleService.AfterConfirm` | src/services/pihole.py:79-91 | no-op when idle. When waiting, the state is cleared and the command then starts with the flag already down (`Run(command, false)`), ending with the switch back |
| `PiHoleService.ClearIsIdempotent` | src/services/pihole.py:50-56 | clearing twice equals clearing once |
| `PiHoleService.LateTimeoutAfterConfirm` | src/services/pihole.py:44-48 | after a confirm press, whether or not a selection was pending, a timer that still fires has no effect |
| `PiHoleService.LateTimeoutAfterCancel` | src/services/pihole.py:44-48 | after a cancel, a timer that still fires has no effect: no second cancel message |
| `PiHoleService.CancelSwitchesOnce` | src/services/pihole.py:58-65 | a cancel while waiting adds exactly one switch to PADD. A cancel while idle adds none |
| `PiHoleService.UpdateSwitchesOnce` | src/services/pihole.py:124-126 | an update adds exactly one switch to PADD, whether the command succeeded, failed or raised |
| `PiHoleService.PiHole.constructor` | src/services/pihole.py:18-34 | a new controller is idle: not waiting, no timer, none live |
| `PiHoleService.PiHole.StartConfirmationTimer` | src/services/pihole.py:36-42 | the fields after the call equal `AfterStartTimer` of the fields before |
| `PiHoleService.PiHole.ClearConfirmationState` | src/services/pihole.py:50-56 | the fields after the call equal `AfterClear` of the fields before |
| `PiHoleService.PiHole.HandleTimeout` | src/services/pihole.py:44-48 | ends idle with no timer, as `AfterTimeout` |
| `PiHoleService.PiHole.CancelUpdate` | src/services/pihole.py:58-65 | the fields after the call equal `AfterCancel` of the fields before |
| `PiHoleService.PiHole.HandleButton2Held` | src/services/pihole.py:67-77 | keeps the invariant. New fields and status as `AfterHold2` |
| `PiHoleService.PiHole.HandleButton3Press` | src/services/pihole.py:79-84 | ends not waiting. As `AfterConfirm` with the gravity update |
| `PiHoleService.PiHole.HandleButton4Press` | src/services/pihole.py:86-91 | ends not waiting. As `AfterConfirm` with the Pi-hole update |
| `PiHoleService.PiHole.UpdateGravity` | src/services/pihole.py:93-126 | as `AfterUpdate` for `pihole -g` |
| `PiHoleService.PiHole.UpdatePihole` | src/services/pihole.py:128-161 | as `AfterUpdate` for `pihole -up` |
| `PiHoleService.PiHole.RunUpdate` | src/services/pihole.py:96-126 | the body shared by both updates, as `AfterUpdate` |
| `PiHoleService.PiHole.Cleanup` | src/services/pihole.py:163-169 | ends not waiting, with no timer stored or live |
| `Backlight.LevelsTable` | src/display/backlight.py:26-38 | 11 levels, level i is 100 − 10·i, strictly decreasing |
| `Backlight.NextStep` | src/display/backlight.py:89 | the next step stays in 0..10: one more, or 0 after the last (0%) step |
| `Backlight.Percentage` | src/display/backlight.py:104 | the level of step i is 100 − 10·i, between 0 and 100 |
| `Backlight.Boot` | src/display/backlight.py:22-53 | starts at step 0 (100%). With a PWM device, 100% is written |
| `Backlight.AfterSetBrightness` | src/display/backlight.py:66-79 | succeeds exactly with a device, a raw value of at most 100% and an accepting device. On success the value is written. BacklightError exactly when there is no device or the value is above 100%. The device's own error, unconverted, exactly when it refuses an in-range value. On failure nothing changes |
| `Backlight.AfterStepBrightness` | src/display/backlight.py:81-96 | with no device: BacklightError and no change. Otherwise the step becomes `(step + 1) % 11` even when the write then fails. A failed write raises the device's own error, not BacklightError. On success the new level is written |
| `Backlight.BrightnessPercentage` | src/display/backlight.py:98-104 | with a device, 100 − 10·step. Without one, BacklightError |
| `Backlight.StepsAdvanceModulo` | src/display/backlight.py:89 | after k presses the step is `(step + k) % 11` whatever the writes did. Without a device it never moves |
| `Backlight.ElevenStepsReturn` | src/display/backlight.py:89 | eleven presses return to the starting step |
| `Backlight.DisplayBacklight.constructor` | src/display/backlight.py:14-53 | fields as `Boot` |
| `Backlight.DisplayBacklight.SetBrightness` | src/display/backlight.py:66-79 | as `AfterSetBrightness` |
| `Backlight.DisplayBacklight.StepBrightness` | src/display/backlight.py:81-96 | keeps the step in range. As `AfterStepBrightness` |
| `Backlight.DisplayBacklight.GetBrightnessPercentage` | src/display/backlight.py:98-104 | returns `BrightnessPercentage` of the fields |
| `ButtonInput.Unwired` | src/hardware/button.py:38 | no handlers, no press recorded |
| `ButtonInput.AfterSetup` | src/hardware/button.py:58-74 | with a hold callback, the press handler is the recorder and the release handler carries the hold callback. With only a press callback, that callback is wired directly. With neither, nothing changes. A press callback is wired only when no hold callback was given |
| `ButtonInput.AfterRecordPress` | src/hardware/button.py:76-79 | records the press time and changes nothing else |
| `ButtonInput.AfterRelease` | src/hardware/button.py:81-92 | always ends with no press recorded. Without a recorded press it calls nothing. With one, it calls the hold callback once, with release time minus press time |
| `ButtonInput.AfterPhysicalPress` | src/hardware/button.py:68-78 | a press runs the wired handler: the direct callback fires, or the time is recorded, or nothing happens |
| `ButtonInput.AfterPhysicalRelease` | src/hardware/button.py:71-92 | a release never fires a press callback or changes the wiring. A hold callback fires only if one is wired and a press was recorded |
| `ButtonInput.PressThenReleaseMeasuresHold` | src/hardware/button.py:76-92 | press then release calls the hold callback with exactly release minus press and resets the record |
| `ButtonInput.LatestPressWins` | src/hardware/button.py:76-78 | with two presses before a release, the hold is measured from the later one |
| `ButtonInput.SecondReleaseFiresNothing` | src/hardware/button.py:88-92 | a second release in a row calls nothing |
| `ButtonInput.DirectPressNeverTracksHold` | src/hardware/button.py:68-69 | a press-only button fires its callback on press, records nothing, and fires nothing on release |
| `ButtonInput.HoldWiringDropsPressCallback` | src/hardware/button.py:68-74 | a button given a hold callback never fires a press callback |
| `ButtonInput.ButtonHandler.constructor` | src/hardware/button.py:22-56 | fields as `AfterSetup` of an unwired button |
| `ButtonInput.ButtonHandler.SetupCallbacks` | src/hardware/button.py:58-74 | as `AfterSetup` |
| `ButtonInput.ButtonHandler.OnPress` | src/hardware/button.py:76-79 | as `AfterRecordPress` |
| `ButtonInput.ButtonHandler.OnRelease` | src/hardware/button.py:81-92 | returns the callback to call and the hold time. Fields and result as `AfterRelease` |
| `SystemControl.ActionFor` | src/services/system.py:47-54 | under 2.0 s: nothing. From 2.0 s to under 5.0 s: reboot. 5.0 s and more: shutdown. Each is an if-and-only-if |
| `SystemControl.LongerHoldNeverLesser` | src/services/system.py:47-54 | a longer hold never chooses a lesser action |
| `SystemControl.CommandStatus` | src/services/system.py:20-36 | a reboot or shutdown command succeeds exactly on exit code 0. Otherwise it raises ServiceError |
| `SystemControl.HandleButton4Held` | src/services/system.py:38-54 | the action chosen is `ActionFor(hold)`. A short hold never fails. A longer one fails exactly when its command does, with ServiceError |
| `Coordinator.RouteOf` | main.py:29-66 | if and only if: cancel (button 1 press or button 4 hold while waiting), step brightness (button 1 press while idle), arm (button 2 hold while idle, same hold time), confirm gravity (button 3 press while waiting), system control (button 4 hold while idle, same hold time), call of an undefined method (button 2 press while waiting, button 3 hold while idle) |
| `Coordinator.AppBoot` | src/controllers/button_manager.py:29-32 | the controllers start idle, at step 0, with no system command issued |
| `Coordinator.AfterCall` | main.py:29-66 | button 1 while waiting cancels and leaves the backlight alone. Button 1 while idle steps once, swallowing errors. A button 2 hold while waiting is ignored. Idle presses of buttons 2 and 3 do nothing. A button 4 hold while waiting cancels without system control. While idle it passes the same hold time to system control. A new timer is started only from idle. The invariants are kept |
| `Coordinator.Coordinator.constructor` | src/controllers/button_manager.py:26-36 | fresh controllers in the `AppBoot` state |
| `Coordinator.Coordinator.Dispatch` | main.py:29-66 | runs the callback over the objects. The new fields and the status are `AfterCall` of the old ones |
| `Appliance.WiringTable` | main.py:72-77 | button 1: direct press callback, no hold. Buttons 2 and 3: recorder plus hold callback, so their press callbacks are dropped. Button 4: recorder plus hold callback |
| `Appliance.PowerOn` | main.py:72-85 | button i is exactly the handler that row i of the table wires, with no press recorded. The controllers are as `AppBoot` |
| `Appliance.Next` | src/hardware/button.py:68-92 | one physical event never rewires a button. A press or release changes only that button's handler. A timer firing leaves the buttons, backlight and issued commands alone and applies `_handle_timeout` to the flow (pihole.py:40-48) |
| `Appliance.RunInputs` | src/hardware/button.py:58-92 | over any sequence of button events and timer firings, every button keeps the wiring it was given at start-up |
| `Appliance.OnlyConfirmRuns` | main.py:29-66 | every callback other than `button3_pressed` adds no update command to the log |
| `Appliance.WiredPressesDeliver` | src/hardware/button.py:68-74 | with the table's wiring, a physical press can only fire `button1_pressed`, and a release fires no press callback |
| `Appliance.NextKeepsInvariant` | main.py:72-85 | one physical event or timeout keeps the wiring, the flow and backlight invariants, and the absence of update commands |
| `Appliance.RunKeepsInvariant` | main.py:72-85 | the same for any sequence of events |
| `Appliance.PowerOnSatisfiesInvariant` | main.py:72-85 | the machine starts in the invariant |
| `Appliance.NoUpdateEverRuns` | main.py:72-77 | as wired, no sequence of events ever starts a gravity or Pi-hole update |
| `Appliance.AtMostOneLiveTimer` | src/services/pihole.py:36-56 | in every reachable state at most one timer is live, and exactly one while a selection is pending |
| `Appliance.ConfirmPressIsSwallowed` | main.py:56-59 | a physical press of button 3 never reaches the controllers |
| `Appliance.HoldButton2ThenTimeout` | src/services/pihole.py:67-77 | a hold of 1 s or more from idle, as written, leaves the flow armed with timer 0 live and nothing shown. The timeout then cancels it once, and a further timeout changes nothing |

## Left out

- Backlight.AfterSetBrightness: records the raw percentage written, not the gamma-corrected value `pow(v, 2.2)` that reaches the PWM device. That value is floating-point, and whether the device takes it is the `accepted` parameter.
- PiHoleService.AfterUpdate: the command's output lines streamed to the console (pihole.py:106-109) are not modelled, only how the command ended.
- PiHoleService.AfterTimeout: a timeout is not tied to the timer that fired, because `_handle_timeout` does not check it either. A cancelled timer that races past its cancel is covered by firing while the flow is idle, or after a new arm.
- Concurrency: callbacks and the timer run one at a time, in any order. The code has no lock, so interleavings inside one callback (a timer firing halfway through `handle_button2_held`) are not modelled.
- `switch_to_padd` raising DisplayError: on every path it is the last statement, so it can change whether an exception escapes and which one, but never the state. For example, a DisplayError in the `finally` of an update (pihole.py:124-126) makes even a successful update raise. The model treats the call as succeeding.
- `time.sleep` pauses appear only as `Sleep(seconds)` entries in the log. The idle `while True` loop in main.py:90-91 is not modelled.
- Exceptions other than SubprocessError from a command (an OSError from `Popen`), and what gpiozero does with an exception that escapes a callback. The machine keeps the state the callback reached before raising.
- src/display/tmux.py and src/display/manager.py: terminal multiplexer calls and screen output. They appear only as `ShowOutcome` and as the `SwitchToPadd` and `ShowUpdateSelection` effects.
- The startup check `check_padd` (main.py:24-27), `KeyboardInterrupt` handling and cleanup on exit. Only `PiHole.Cleanup` is modelled. Button, backlight and system cleanups release hardware or only log.
- PWM initialisation retries and GPIO device construction (backlight.py:42-60, button.py:40-56). The constructors take whether a PWM device was obtained as a parameter. In the code, a failure after the last retry raises BacklightError out of the constructor. The model instead keeps a backlight without a device, which every backlight method guards against.
- src/utils/config.py (YAML loading) and logging.
- src/controllers/button_manager.py beyond the creation of the controllers.
