/** The Logitech G27 reader (Assets/Scripts/LogiG27Translate.cs): accelerator
    and brake pedals folded into one throttle, the wheel axis passed through
    outside its deadzone. */
module LogiG27 {
  import opened UnityMathf
  import opened InputRules

  /** The accelerator runs from 1 (released) to -1 (pressed); it is negated
      and mapped onto [0,1]. */
  function AcceleratorMapped(accelerator: real): (r: real)
    ensures 0.0 <= r <= 1.0
    ensures accelerator >= 1.0 ==> r == 0.0
    ensures accelerator <= -1.0 ==> r == 1.0
    ensures -1.0 <= accelerator <= 1.0 ==> r == (1.0 - accelerator) / 2.0
  {
    InverseLerp(-1.0, 1.0, -accelerator)
  }

  /** The brake runs from -1 (released) to 1 (pressed) and maps onto [-1,0]. */
  function BrakeMapped(brake: real): (r: real)
    ensures -1.0 <= r <= 0.0
    ensures brake <= -1.0 ==> r == 0.0
    ensures brake >= 1.0 ==> r == -1.0
    ensures -1.0 <= brake <= 1.0 ==> r == -(brake + 1.0) / 2.0
  {
    -InverseLerp(-1.0, 1.0, brake)
  }

  /** The throttle: the pedal of strictly larger mapped magnitude, ties to
      the brake, after the deadzone; a pressed pedal pushes its own way. */
  function Throttle(accelerator: real, brake: real, deadzone: real): (r: real)
    ensures -1.0 <= r <= 1.0
    ensures Abs(r) == Max(Abs(ZeroBelowDeadzone(AcceleratorMapped(accelerator), deadzone)),
                          Abs(ZeroBelowDeadzone(BrakeMapped(brake), deadzone)))
    ensures Abs(AcceleratorMapped(accelerator)) <= Abs(BrakeMapped(brake))
            ==> r == ZeroBelowDeadzone(BrakeMapped(brake), deadzone)
    ensures r > 0.0 ==> r == AcceleratorMapped(accelerator)
    ensures r < 0.0 ==> r == BrakeMapped(brake)
    ensures accelerator >= 1.0 && brake <= -1.0 ==> r == 0.0
  {
    PedalArbitration(AcceleratorMapped(accelerator), BrakeMapped(brake), deadzone)
  }

  /** The steer value: exactly 0 strictly inside the deadzone, the raw axis
      otherwise (a reading of exactly the deadzone passes). */
  function Steer(steerRaw: real, deadzone: real): (r: real)
    ensures Abs(steerRaw) < deadzone ==> r == 0.0
    ensures Abs(steerRaw) >= deadzone ==> r == steerRaw
    ensures -1.0 <= steerRaw <= 1.0 ==> -1.0 <= r <= 1.0
  {
    ZeroBelowDeadzone(steerRaw, deadzone)
  }

  /** Fully pressing only the accelerator gives full forward throttle, fully
      pressing only the brake full reverse, and pressing both to the floor
      is a tie that the brake wins. */
  lemma PedalExtremes(deadzone: real)
    requires deadzone <= 1.0
    ensures Throttle(-1.0, -1.0, deadzone) == 1.0
    ensures Throttle(1.0, 1.0, deadzone) == -1.0
    ensures Throttle(-1.0, 1.0, deadzone) == -1.0
  {
  }

  /** The G27 reader's component state. */
  class LogiG27Translate {
    const inputDeadzone: real
    var throttleValue: real
    var steerValue: real

    constructor (inputDeadzone: real)
      ensures this.inputDeadzone == inputDeadzone
      ensures throttleValue == 0.0 && steerValue == 0.0
    {
      this.inputDeadzone := inputDeadzone;
      throttleValue := 0.0;
      steerValue := 0.0;
    }

    method ProcessThrottleInputs(accelerator: real, brake: real)
      modifies this`throttleValue
      ensures throttleValue == Throttle(accelerator, brake, inputDeadzone)
    {
      var acceleratorMapped := InverseLerp(-1.0, 1.0, -accelerator);
      var brakeMapped := -InverseLerp(-1.0, 1.0, brake);
      if Abs(acceleratorMapped) < inputDeadzone { acceleratorMapped := 0.0; }
      if Abs(brakeMapped) < inputDeadzone { brakeMapped := 0.0; }
      throttleValue := if Abs(acceleratorMapped) > Abs(brakeMapped) then acceleratorMapped else brakeMapped;
    }

    method ProcessSteerInputs(steerRaw: real)
      modifies this`steerValue
      ensures steerValue == Steer(steerRaw, inputDeadzone)
    {
      if Abs(steerRaw) < inputDeadzone {
        steerValue := 0.0;
      } else {
        steerValue := steerRaw;
      }
    }

    /** One frame, given the three axis readings. */
    method Update(accelerator: real, brake: real, steerRaw: real)
      modifies this`throttleValue, this`steerValue
      ensures throttleValue == Throttle(accelerator, brake, inputDeadzone)
      ensures steerValue == Steer(steerRaw, inputDeadzone)
      ensures -1.0 <= throttleValue <= 1.0
    {
      ProcessThrottleInputs(accelerator, brake);
      ProcessSteerInputs(steerRaw);
    }
  }
}
