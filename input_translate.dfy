/** The gamepad reader (Assets/Scripts/InputTranslate.cs): the two triggers
    folded into one throttle, the left stick's x axis as steer, and a cached
    previous value per axis refreshed only when the axis changed. */
module PadInput {
  import opened UnityMathf
  import opened InputRules

  /** What the reader takes from the current gamepad: both triggers (0 when
      released, 1 when pressed fully) and the left stick's horizontal axis. */
  datatype Gamepad = Gamepad(leftTrigger: real, rightTrigger: real, leftStickX: real)

  /** The throttle: R2 forward minus L2 backward, 0 without a gamepad. */
  function TriggerThrottle(pad: Option<Gamepad>): (r: real)
    ensures pad.None? ==> r == 0.0
    ensures pad.Some? ==> r == pad.value.rightTrigger - pad.value.leftTrigger
    ensures pad.Some? && 0.0 <= pad.value.leftTrigger <= 1.0 && 0.0 <= pad.value.rightTrigger <= 1.0
            ==> -1.0 <= r <= 1.0
    ensures pad.Some? && pad.value.leftTrigger == 0.0 ==> r == pad.value.rightTrigger
    ensures pad.Some? && pad.value.rightTrigger == 0.0 ==> r == -pad.value.leftTrigger
  {
    var l2 := if pad.Some? then pad.value.leftTrigger else 0.0;
    var r2 := if pad.Some? then pad.value.rightTrigger else 0.0;
    r2 - l2
  }

  /** The steer: the left stick's x axis, 0 without a gamepad. */
  function StickSteer(pad: Option<Gamepad>): (r: real)
    ensures pad.None? ==> r == 0.0
    ensures pad.Some? ==> r == pad.value.leftStickX
  {
    if pad.Some? then pad.value.leftStickX else 0.0
  }

  datatype PadState = PadState(
    throttleValue: real,
    steerValue: real,
    previousThrottleValue: real,
    previousSteerValue: real)

  /** Update as a function of the state before it: both axes are read, then
      each cached previous value is refreshed on its own axis's change. */
  function PadStep(s: PadState, pad: Option<Gamepad>): PadState
  {
    var throttle := TriggerThrottle(pad);
    var steer := StickSteer(pad);
    PadState(throttle, steer, Track(s.previousThrottleValue, throttle), Track(s.previousSteerValue, steer))
  }

  /** Start: both previous values are reset to 0, nothing else changes. */
  function StartStep(s: PadState): (t: PadState)
    ensures t.previousThrottleValue == 0.0 && t.previousSteerValue == 0.0
    ensures t.throttleValue == s.throttleValue && t.steerValue == s.steerValue
  {
    s.(previousThrottleValue := 0.0, previousSteerValue := 0.0)
  }

  /** After a frame the values are the ones read; a previous value changes
      only when its axis changed (and then to the new value), never because
      of the other axis. */
  lemma PadStepTracksEachAxis(s: PadState, pad: Option<Gamepad>)
    ensures var t := PadStep(s, pad);
      t.throttleValue == TriggerThrottle(pad) && t.steerValue == StickSteer(pad) &&
      (Approximately(s.previousThrottleValue, t.throttleValue) <==> t.previousThrottleValue == s.previousThrottleValue) &&
      (!Approximately(s.previousThrottleValue, t.throttleValue) ==> t.previousThrottleValue == t.throttleValue) &&
      (Approximately(s.previousSteerValue, t.steerValue) <==> t.previousSteerValue == s.previousSteerValue) &&
      (!Approximately(s.previousSteerValue, t.steerValue) ==> t.previousSteerValue == t.steerValue)
  {
    var t := PadStep(s, pad);
    if !Approximately(s.previousThrottleValue, t.throttleValue) {
      assert t.throttleValue != s.previousThrottleValue by {
        ApproximatelyFacts(s.previousThrottleValue, t.throttleValue);
      }
    }
    if !Approximately(s.previousSteerValue, t.steerValue) {
      assert t.steerValue != s.previousSteerValue by {
        ApproximatelyFacts(s.previousSteerValue, t.steerValue);
      }
    }
  }

  /** The two caches are independent: states that agree on one axis's
      previous value agree on it after the same frame, whatever the other
      axis held. */
  lemma AxesTrackedIndependently(s1: PadState, s2: PadState, pad: Option<Gamepad>)
    ensures s1.previousThrottleValue == s2.previousThrottleValue ==>
              PadStep(s1, pad).previousThrottleValue == PadStep(s2, pad).previousThrottleValue
    ensures s1.previousSteerValue == s2.previousSteerValue ==>
              PadStep(s1, pad).previousSteerValue == PadStep(s2, pad).previousSteerValue
  {
  }

  /** Without a gamepad both axes read 0, and a later such frame changes
      nothing more. */
  lemma NoGamepadReadsCentre(s: PadState)
    ensures PadStep(s, None).throttleValue == 0.0 && PadStep(s, None).steerValue == 0.0
    ensures PadStep(PadStep(s, None), None) == PadStep(s, None)
  {
    TrackIdempotent(s.previousThrottleValue, 0.0);
    TrackIdempotent(s.previousSteerValue, 0.0);
  }

  /** Holding the pad still settles the caches: a second identical frame
      changes nothing. */
  lemma RepeatedFrameIsStable(s: PadState, pad: Option<Gamepad>)
    ensures PadStep(PadStep(s, pad), pad) == PadStep(s, pad)
  {
    TrackIdempotent(s.previousThrottleValue, TriggerThrottle(pad));
    TrackIdempotent(s.previousSteerValue, StickSteer(pad));
  }

  /** The component. */
  class InputTranslate {
    var throttleValue: real
    var steerValue: real
    var previousThrottleValue: real
    var previousSteerValue: real

    function State(): PadState
      reads this
    {
      PadState(throttleValue, steerValue, previousThrottleValue, previousSteerValue)
    }

    constructor ()
      ensures State() == PadState(0.0, 0.0, 0.0, 0.0)
    {
      throttleValue := 0.0;
      steerValue := 0.0;
      previousThrottleValue := 0.0;
      previousSteerValue := 0.0;
    }

    method Start()
      modifies this
      ensures State() == StartStep(old(State()))
    {
      previousThrottleValue := 0.0;
      previousSteerValue := 0.0;
    }

    /** One frame, given the current gamepad (None when there is none). */
    method Update(pad: Option<Gamepad>)
      modifies this
      ensures State() == PadStep(old(State()), pad)
    {
      var l2 := if pad.Some? then pad.value.leftTrigger else 0.0;
      var r2 := if pad.Some? then pad.value.rightTrigger else 0.0;
      throttleValue := r2 - l2;
      steerValue := if pad.Some? then pad.value.leftStickX else 0.0;
      if !Approximately(previousThrottleValue, throttleValue) {
        previousThrottleValue := throttleValue;
      }
      if !Approximately(previousSteerValue, steerValue) {
        previousSteerValue := steerValue;
      }
    }
  }
}
