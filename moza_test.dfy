/** The RX/RY pedal reader (Assets/Scripts/MozaTest.cs): gas minus brake,
    clamped, with a cached previous value refreshed only on a change. */
module MozaPedals {
  import opened UnityMathf
  import opened InputRules

  /** One pedal's share: zero unless its magnitude is strictly above the
      deadzone, then negated when the pedal's invert flag is set. */
  function PedalContribution(input: real, deadzone: real, invert: bool): (r: real)
    ensures Abs(input) <= deadzone ==> r == 0.0
    ensures Abs(input) > deadzone ==> r == (if invert then -input else input)
    ensures Abs(r) == Abs(PassAboveDeadzone(input, deadzone))
  {
    var passed := PassAboveDeadzone(input, deadzone);
    if invert then -passed else passed
  }

  /** The throttle: gas contribution minus brake contribution, clamped to [-1,1]. */
  function PedalThrottle(gasInput: real, brakeInput: real, deadzone: real,
                         invertThrottle: bool, invertBrake: bool): (r: real)
    ensures -1.0 <= r <= 1.0
    ensures Abs(gasInput) <= deadzone && Abs(brakeInput) <= deadzone ==> r == 0.0
    ensures var d := PedalContribution(gasInput, deadzone, invertThrottle)
                     - PedalContribution(brakeInput, deadzone, invertBrake);
            (-1.0 <= d <= 1.0 ==> r == d) && (d > 1.0 ==> r == 1.0) && (d < -1.0 ==> r == -1.0)
  {
    Clamp(PedalContribution(gasInput, deadzone, invertThrottle)
          - PedalContribution(brakeInput, deadzone, invertBrake), -1.0, 1.0)
  }

  /** Each invert flag negates its own pedal's share and nothing else: with
      the brake released, flipping the gas flag mirrors the throttle, and
      flipping the brake flag leaves it as it was. */
  lemma InvertFlagsAreIndependent(gasInput: real, brakeInput: real, deadzone: real,
                                  invertThrottle: bool, invertBrake: bool)
    ensures PedalContribution(gasInput, deadzone, !invertThrottle) == -PedalContribution(gasInput, deadzone, invertThrottle)
    ensures Abs(brakeInput) <= deadzone ==>
              PedalThrottle(gasInput, brakeInput, deadzone, !invertThrottle, invertBrake)
                == -PedalThrottle(gasInput, brakeInput, deadzone, invertThrottle, invertBrake)
    ensures Abs(brakeInput) <= deadzone ==>
              PedalThrottle(gasInput, brakeInput, deadzone, invertThrottle, !invertBrake)
                == PedalThrottle(gasInput, brakeInput, deadzone, invertThrottle, invertBrake)
  {
  }

  /** The pedal reader's component state. */
  class MozaTest {
    const inputDeadzone: real
    const invertThrottle: bool
    const invertBrake: bool
    var throttleValue: real
    var previousThrottleValue: real

    constructor (inputDeadzone: real, invertThrottle: bool, invertBrake: bool)
      ensures this.inputDeadzone == inputDeadzone
      ensures this.invertThrottle == invertThrottle && this.invertBrake == invertBrake
      ensures throttleValue == 0.0 && previousThrottleValue == 0.0
    {
      this.inputDeadzone := inputDeadzone;
      this.invertThrottle := invertThrottle;
      this.invertBrake := invertBrake;
      throttleValue := 0.0;
      previousThrottleValue := 0.0;
    }

    method Start()
      modifies this`previousThrottleValue
      ensures previousThrottleValue == 0.0
    {
      previousThrottleValue := 0.0;
    }

    method ProcessPedalInputs(gasInput: real, brakeInput: real)
      modifies this`throttleValue
      ensures throttleValue == PedalThrottle(gasInput, brakeInput, inputDeadzone, invertThrottle, invertBrake)
    {
      var gas := if Abs(gasInput) > inputDeadzone then gasInput else 0.0;
      gas := if invertThrottle then -gas else gas;
      var brake := if Abs(brakeInput) > inputDeadzone then brakeInput else 0.0;
      brake := if invertBrake then -brake else brake;
      throttleValue := gas - brake;
      throttleValue := Clamp(throttleValue, -1.0, 1.0);
    }

    /** One frame, given the RX (gas) and RY (brake) readings. */
    method Update(gasInput: real, brakeInput: real)
      modifies this`throttleValue, this`previousThrottleValue
      ensures throttleValue == PedalThrottle(gasInput, brakeInput, inputDeadzone, invertThrottle, invertBrake)
      ensures previousThrottleValue == Track(old(previousThrottleValue), throttleValue)
    {
      ProcessPedalInputs(gasInput, brakeInput);
      if !Approximately(previousThrottleValue, throttleValue) {
        previousThrottleValue := throttleValue;
      }
    }
  }
}
