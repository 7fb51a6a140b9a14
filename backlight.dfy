/** The display backlight of src/display/backlight.py: an index into a fixed
    table of eleven brightness levels that one button press steps through,
    100% down to 0% and round again.

    Levels are whole percentages. The source stores the fractions 1.0, 0.9,
    ..., 0.0 and reports `int(level * 100)`, which for these eleven values is
    exactly 100, 90, ..., 0. Gamma correction is not modelled: a write records
    the raw percentage. */
module Backlight {
  import opened Common

  /** `brightness_levels` (backlight.py:26-38), as percentages. */
  const LEVELS: seq<int> := [100, 90, 80, 70, 60, 50, 40, 30, 20, 10, 0]

  /** `led` is whether a PWM device is held (`self.led` is not None), `step`
      is `current_step`, and `writes` logs the raw percentages the device
      accepted, oldest first. */
  datatype BacklightState = BacklightState(led: bool, step: nat, writes: seq<int>)

  /** The state after an operation, and how the operation ended. */
  datatype LightStep = LightStep(state: BacklightState, status: Status)

  ghost predicate Inv(s: BacklightState)
  {
    s.step < |LEVELS|
  }

  /** The table has eleven entries, from 100% down to 0% in steps of ten. */
  lemma LevelsTable()
    ensures |LEVELS| == 11
    ensures forall i | 0 <= i < |LEVELS| :: LEVELS[i] == 100 - 10 * i
    ensures forall i, j | 0 <= i < j < |LEVELS| :: LEVELS[i] > LEVELS[j]
  {
  }

  /** The step after `step` (backlight.py:89). */
  function NextStep(step: nat): (n: nat)
    ensures n < |LEVELS|
    ensures step + 1 < |LEVELS| ==> n == step + 1
    ensures step == |LEVELS| - 1 ==> n == 0
  {
    (step + 1) % |LEVELS|
  }

  /** The brightness, in percent, of a step. */
  function Percentage(step: nat): (p: int)
    requires step < |LEVELS|
    ensures p == 100 - 10 * step
    ensures 0 <= p <= 100
  {
    LevelsTable();
    LEVELS[step]
  }

  /** A new backlight (backlight.py:22-23, 53): step 0, and, when a PWM device
      was obtained, 100% written to it. */
  function Boot(ledAvailable: bool): (s: BacklightState)
    ensures Inv(s) && s.step == 0 && Percentage(s.step) == 100
    ensures s.led == ledAvailable && s.writes == (if ledAvailable then [100] else [])
  {
    BacklightState(ledAvailable, 0, if ledAvailable then [LEVELS[0]] else [])
  }

  /** `set_brightness` (backlight.py:66-79). A value whose gamma-corrected
      form exceeds 1, that is a raw value above 100%, makes the device raise
      `OutputDeviceBadValue`, which becomes BacklightError. `accepted` says
      whether the device takes an in-range value; when it does not, its own
      exception is not caught and escapes as it is. */
  function AfterSetBrightness(s: BacklightState, percent: int, accepted: bool): (r: LightStep)
    ensures r.status == Ok <==> s.led && percent <= 100 && accepted
    ensures r.status == Raised(BacklightError) <==> !s.led || percent > 100
    ensures r.status == Raised(DeviceError) <==> s.led && percent <= 100 && !accepted
    ensures r.status.Raised? ==> r.state == s
    ensures r.status == Ok ==> r.state == s.(writes := s.writes + [percent])
  {
    if !s.led then LightStep(s, Raised(BacklightError))
    else if percent > 100 then LightStep(s, Raised(BacklightError))
    else if !accepted then LightStep(s, Raised(DeviceError))
    else LightStep(s.(writes := s.writes + [percent]), Ok)
  }

  /** `step_brightness` (backlight.py:81-96). With no device nothing changes;
      otherwise the step advances first, and stays advanced even when the
      write of the new level fails. Every level is in range, so a failed write
      is the device's own exception, which the `except` clause does not
      catch. */
  function AfterStepBrightness(s: BacklightState, accepted: bool): (r: LightStep)
    ensures !s.led ==> r == LightStep(s, Raised(BacklightError))
    ensures s.led ==> r.state.step == NextStep(s.step) && r.state.led
    ensures r.status == Ok <==> s.led && accepted
    ensures r.status == Ok ==> r.state.writes == s.writes + [100 - 10 * NextStep(s.step)]
    ensures r.status == Raised(BacklightError) <==> !s.led
    ensures r.status == Raised(DeviceError) <==> s.led && !accepted
    ensures r.status.Raised? ==> r.state.writes == s.writes
    ensures Inv(s) ==> Inv(r.state)
  {
    if !s.led then
      LightStep(s, Raised(BacklightError))
    else
      var advanced := s.(step := NextStep(s.step));
      AfterSetBrightness(advanced, LEVELS[advanced.step], accepted)
  }

  /** `get_brightness_percentage` (backlight.py:98-104). */
  function BrightnessPercentage(s: BacklightState): (r: Result<int>)
    requires Inv(s)
    ensures r.Success? <==> s.led
    ensures r.Success? ==> r.value == 100 - 10 * s.step
    ensures r.Failure? ==> r.error == BacklightError
  {
    if !s.led then Failure(BacklightError) else Success(Percentage(s.step))
  }

  /** The state after one press per entry of `accepted`, each entry saying
      whether the device took that press's write. */
  function AfterSteps(s: BacklightState, accepted: seq<bool>): BacklightState
    decreases |accepted|
  {
    if accepted == [] then s
    else AfterSteps(AfterStepBrightness(s, accepted[0]).state, accepted[1..])
  }

  /** After k presses the step is k further round the table, whatever the
      writes did; without a device it does not move. */
  lemma {:induction false} StepsAdvanceModulo(s: BacklightState, accepted: seq<bool>)
    requires Inv(s)
    ensures s.led ==> AfterSteps(s, accepted).step == (s.step + |accepted|) % |LEVELS|
    ensures !s.led ==> AfterSteps(s, accepted) == s
    decreases |accepted|
  {
    if accepted != [] {
      var next := AfterStepBrightness(s, accepted[0]).state;
      StepsAdvanceModulo(next, accepted[1..]);
      if s.led {
        assert next.step == (s.step + 1) % |LEVELS|;
        assert (((s.step + 1) % |LEVELS|) + |accepted| - 1) % |LEVELS| == (s.step + |accepted|) % |LEVELS|;
      }
    }
  }

  /** Eleven presses bring the backlight back to the level it started at. */
  lemma ElevenStepsReturn(s: BacklightState, accepted: seq<bool>)
    requires Inv(s) && |accepted| == |LEVELS|
    ensures AfterSteps(s, accepted).step == s.step
  {
    StepsAdvanceModulo(s, accepted);
  }

  /** The backlight object (backlight.py:12-104). */
  class DisplayBacklight {
    var led: bool
    var currentStep: nat
    ghost var writes: seq<int>

    ghost function Snapshot(): BacklightState
      reads this
    {
      BacklightState(led, currentStep, writes)
    }

    ghost predicate Valid()
      reads this
    {
      Inv(Snapshot())
    }

    /** `__init__` with `_initialize_pwm`; `ledAvailable` says whether a PWM
      device was obtained. */
    constructor (ledAvailable: bool)
      ensures Valid() && Snapshot() == Boot(ledAvailable)
    {
      led := ledAvailable;
      currentStep := 0;
      writes := if ledAvailable then [LEVELS[0]] else [];
    }

    method SetBrightness(percent: int, accepted: bool) returns (status: Status)
      modifies this
      ensures LightStep(Snapshot(), status) == AfterSetBrightness(old(Snapshot()), percent, accepted)
    {
      if !led {
        return Raised(BacklightError);
      }
      if percent > 100 {
        return Raised(BacklightError);
      }
      if !accepted {
        return Raised(DeviceError);
      }
      writes := writes + [percent];
      status := Ok;
    }

    method StepBrightness(accepted: bool) returns (status: Status)
      requires Valid()
      modifies this
      ensures Valid()
      ensures LightStep(Snapshot(), status) == AfterStepBrightness(old(Snapshot()), accepted)
    {
      if !led {
        return Raised(BacklightError);
      }
      currentStep := (currentStep + 1) % |LEVELS|;
      var rawValue := LEVELS[currentStep];
      status := SetBrightness(rawValue, accepted);
    }

    method GetBrightnessPercentage() returns (r: Result<int>)
      requires Valid()
      ensures r == BrightnessPercentage(Snapshot())
    {
      if !led {
        return Failure(BacklightError);
      }
      r := Success(LEVELS[currentStep]);
    }
  }
}
