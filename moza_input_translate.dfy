/** The MOZA wheel reader (Assets/Scripts/MozaInputTranslate.cs): two pedal
    axes folded into one throttle, two steering half-axes folded into one
    steer value. The mapping functions are also what the WebSocket sender of
    WebsocketTest.cs computes, which repeats the same code. */
module MozaInput {
  import opened UnityMathf
  import opened InputRules

  /** One frame of the four MOZA input actions. */
  datatype MozaReading = MozaReading(rx: real, ry: real, steerLeft: real, steerRight: real)

  /** Which of the four input actions resolved to a binding. */
  datatype MozaBindings = MozaBindings(rx: bool, ry: bool, steerLeft: bool, steerRight: bool)
  {
    predicate AllResolved() { rx && ry && steerLeft && steerRight }
  }

  /** RX runs from -1 (released) to +1 (pressed) and maps onto [0,1]. */
  function RxMapped(rxRaw: real): (r: real)
    ensures 0.0 <= r <= 1.0
    ensures rxRaw <= -1.0 ==> r == 0.0
    ensures rxRaw >= 1.0 ==> r == 1.0
    ensures -1.0 <= rxRaw <= 1.0 ==> r == (rxRaw + 1.0) / 2.0
  {
    InverseLerp(-1.0, 1.0, rxRaw)
  }

  /** RY runs from +1 (released) to -1 (pressed) and maps onto [-1,0]. */
  function RyMapped(ryRaw: real): (r: real)
    ensures -1.0 <= r <= 0.0
    ensures ryRaw >= 1.0 ==> r == 0.0
    ensures ryRaw <= -1.0 ==> r == -1.0
    ensures -1.0 <= ryRaw <= 1.0 ==> r == (ryRaw - 1.0) / 2.0
  {
    InverseLerp(1.0, -1.0, ryRaw) * -1.0
  }

  /** The throttle: both mapped pedals pass the deadzone, and RX wins only
      with a strictly larger magnitude. */
  function Throttle(rxRaw: real, ryRaw: real, deadzone: real): (r: real)
    ensures -1.0 <= r <= 1.0
    ensures Abs(r) == Max(Abs(ZeroBelowDeadzone(RxMapped(rxRaw), deadzone)),
                          Abs(ZeroBelowDeadzone(RyMapped(ryRaw), deadzone)))
    ensures Abs(RxMapped(rxRaw)) > Abs(RyMapped(ryRaw)) && Abs(RxMapped(rxRaw)) >= deadzone
            ==> r == RxMapped(rxRaw)
    ensures Abs(RxMapped(rxRaw)) <= Abs(RyMapped(ryRaw)) ==> r == ZeroBelowDeadzone(RyMapped(ryRaw), deadzone)
    ensures r > 0.0 ==> r == RxMapped(rxRaw)
    ensures r < 0.0 ==> r == RyMapped(ryRaw)
    ensures Abs(RxMapped(rxRaw)) < deadzone && Abs(RyMapped(ryRaw)) < deadzone ==> r == 0.0
  {
    PedalArbitration(RxMapped(rxRaw), RyMapped(ryRaw), deadzone)
  }

  /** The steer value: an active left half-axis (above the deadzone) wins and
      gives `leftRaw - 1`; otherwise an active right half-axis (below minus the
      deadzone) gives `InverseLerp(-1, 0, rightRaw)`; otherwise exactly 0. */
  function Steer(leftRaw: real, rightRaw: real, deadzone: real): (r: real)
    ensures leftRaw > deadzone ==> r == leftRaw - 1.0
    ensures leftRaw <= deadzone && rightRaw < -deadzone ==> r == InverseLerp(-1.0, 0.0, rightRaw)
    ensures leftRaw <= deadzone && rightRaw < -deadzone && -1.0 <= rightRaw <= 0.0 ==> r == rightRaw + 1.0
    ensures leftRaw <= deadzone && rightRaw >= -deadzone ==> r == 0.0
    ensures r > 0.0 ==> leftRaw > 1.0 || (leftRaw <= deadzone && rightRaw < -deadzone)
  {
    if leftRaw > 0.0 + deadzone then (1.0 - leftRaw) * -1.0
    else if rightRaw < 0.0 - deadzone then InverseLerp(-1.0, 0.0, rightRaw)
    else 0.0
  }

  /** With every half-axis inside its documented range ([0,1] on the left,
      [-1,0] on the right) and a non-negative deadzone, the steer value is
      normalized: the left half steers into [-1,0], the right half into [0,1]. */
  lemma SteerNormalized(leftRaw: real, rightRaw: real, deadzone: real)
    requires 0.0 <= leftRaw <= 1.0 && -1.0 <= rightRaw <= 0.0 && deadzone >= 0.0
    ensures -1.0 <= Steer(leftRaw, rightRaw, deadzone) <= 1.0
    ensures leftRaw > deadzone ==> -1.0 <= Steer(leftRaw, rightRaw, deadzone) <= 0.0
    ensures leftRaw <= deadzone ==> 0.0 <= Steer(leftRaw, rightRaw, deadzone) <= 1.0
  {
  }

  /** Only the left half-axis's top bound matters for the steer range: with
      a non-negative deadzone the left branch runs only for a positive
      reading, and the right branch's InverseLerp is clamped. */
  lemma SteerBounded(leftRaw: real, rightRaw: real, deadzone: real)
    requires leftRaw <= 1.0 && deadzone >= 0.0
    ensures -1.0 <= Steer(leftRaw, rightRaw, deadzone) <= 1.0
  {
  }

  /** A left half-axis held at +1 (the end its mapping sends to zero steer)
      counts as active, so the right half-axis is never consulted. */
  lemma LeftAtRestMasksRight(rightRaw: real, deadzone: real)
    requires deadzone < 1.0
    ensures Steer(1.0, rightRaw, deadzone) == 0.0
  {
  }

  /** The MOZA reader's component state: the last throttle and steer values. */
  class MozaInputTranslate {
    const bindings: MozaBindings
    const inputDeadzone: real
    var throttleValue: real
    var steerValue: real

    /** Awake: the action lookups are given as `bindings`; both values start at 0. */
    constructor (bindings: MozaBindings, inputDeadzone: real)
      ensures this.bindings == bindings && this.inputDeadzone == inputDeadzone
      ensures throttleValue == 0.0 && steerValue == 0.0
    {
      this.bindings := bindings;
      this.inputDeadzone := inputDeadzone;
      throttleValue := 0.0;
      steerValue := 0.0;
    }

    method ProcessThrottleInputs(rxRaw: real, ryRaw: real)
      modifies this`throttleValue
      ensures throttleValue == Throttle(rxRaw, ryRaw, inputDeadzone)
      ensures -1.0 <= throttleValue <= 1.0
    {
      var rxMapped := InverseLerp(-1.0, 1.0, rxRaw);
      var ryMapped := InverseLerp(1.0, -1.0, ryRaw) * -1.0;
      if Abs(rxMapped) < inputDeadzone { rxMapped := 0.0; }
      if Abs(ryMapped) < inputDeadzone { ryMapped := 0.0; }
      throttleValue := if Abs(rxMapped) > Abs(ryMapped) then rxMapped else ryMapped;
    }

    method ProcessSteerInputs(leftStickRaw: real, rightStickRaw: real)
      modifies this`steerValue
      ensures steerValue == Steer(leftStickRaw, rightStickRaw, inputDeadzone)
    {
      var mappedValue := 0.0;
      if leftStickRaw > 0.0 + inputDeadzone {
        mappedValue := (1.0 - leftStickRaw) * -1.0;
      } else if rightStickRaw < 0.0 - inputDeadzone {
        mappedValue := InverseLerp(-1.0, 0.0, rightStickRaw);
      }
      steerValue := mappedValue;
    }

    /** One frame: nothing happens unless all four actions resolved. */
    method Update(reading: MozaReading)
      modifies this`throttleValue, this`steerValue
      ensures !bindings.AllResolved() ==> throttleValue == old(throttleValue) && steerValue == old(steerValue)
      ensures bindings.AllResolved() ==>
                throttleValue == Throttle(reading.rx, reading.ry, inputDeadzone) &&
                steerValue == Steer(reading.steerLeft, reading.steerRight, inputDeadzone)
    {
      if !bindings.AllResolved() {
        return;
      }
      ProcessThrottleInputs(reading.rx, reading.ry);
      ProcessSteerInputs(reading.steerLeft, reading.steerRight);
    }
  }
}
