/** The Donkey Car sender (Assets/Scripts/WebsocketTest.cs): each frame the
    arrow keys step the held throttle and angle, then the MOZA wheel (when all
    four of its actions resolved) overwrites both, and each handler may send a
    full-state frame over the WebSocket. A send is modelled as appending the
    frame record to the sequence of frames sent so far. */
module DonkeyLink {
  import opened UnityMathf
  import opened MozaInput

  /** The record behind one WebSocket message. */
  datatype DonkeyCarData = DonkeyCarData(angle: real, throttle: real, drive_mode: string, recording: bool)

  /** GetKeyDown for the four arrow keys this frame. */
  datatype ArrowKeys = ArrowKeys(up: bool, down: bool, left: bool, right: bool)
  {
    predicate AnyDown() { up || down || left || right }
  }

  /** The two values the sender holds between frames. */
  datatype ControlState = ControlState(throttle: real, angle: real)
  {
    predicate Normalized() { -1.0 <= throttle <= 1.0 && -1.0 <= angle <= 1.0 }
  }

  /** What one handler leaves behind: the new state and the frames it sent. */
  datatype Outcome = Outcome(state: ControlState, frames: seq<DonkeyCarData>)

  /** The frame sent for a state: the mode stays "user" and recording stays off. */
  function Frame(s: ControlState): (f: DonkeyCarData)
    ensures f.angle == s.angle && f.throttle == s.throttle
    ensures f.drive_mode == "user" && !f.recording
  {
    DonkeyCarData(s.angle, s.throttle, "user", false)
  }

  /** Up adds a step, then Down subtracts one, each result clamped to [-1,1]. */
  function StepThrottle(throttle: real, stepSize: real, keys: ArrowKeys): (r: real)
    ensures keys.up || keys.down ==> -1.0 <= r <= 1.0
    ensures !keys.up && !keys.down ==> r == throttle
    ensures keys.up && !keys.down ==> r == Clamp(throttle + stepSize, -1.0, 1.0)
    ensures !keys.up && keys.down ==> r == Clamp(throttle - stepSize, -1.0, 1.0)
    ensures keys.up && keys.down && stepSize >= 0.0 && -1.0 <= throttle && throttle + stepSize <= 1.0 ==> r == throttle
  {
    var afterUp := if keys.up then Clamp(throttle + stepSize, -1.0, 1.0) else throttle;
    if keys.down then Clamp(afterUp - stepSize, -1.0, 1.0) else afterUp
  }

  /** Left subtracts a step, then Right adds one, each result clamped to [-1,1]. */
  function StepAngle(angle: real, stepSize: real, keys: ArrowKeys): (r: real)
    ensures keys.left || keys.right ==> -1.0 <= r <= 1.0
    ensures !keys.left && !keys.right ==> r == angle
    ensures keys.left && !keys.right ==> r == Clamp(angle - stepSize, -1.0, 1.0)
    ensures !keys.left && keys.right ==> r == Clamp(angle + stepSize, -1.0, 1.0)
  {
    var afterLeft := if keys.left then Clamp(angle - stepSize, -1.0, 1.0) else angle;
    if keys.right then Clamp(afterLeft + stepSize, -1.0, 1.0) else afterLeft
  }

  /** HandleKeyboardInput as a function of the state before it. */
  function KeyboardStep(s: ControlState, stepSize: real, keys: ArrowKeys): Outcome
  {
    var next := ControlState(StepThrottle(s.throttle, stepSize, keys), StepAngle(s.angle, stepSize, keys));
    Outcome(next, if keys.AnyDown() then [Frame(next)] else [])
  }

  /** HandleMozaInput as a function of the state before it. */
  function WheelStep(s: ControlState, bindings: MozaBindings, reading: MozaReading, deadzone: real): Outcome
  {
    if !bindings.AllResolved() then Outcome(s, [])
    else
      var next := ControlState(Throttle(reading.rx, reading.ry, deadzone),
                               Steer(reading.steerLeft, reading.steerRight, deadzone));
      Outcome(next, if Abs(next.throttle) > deadzone || Abs(next.angle) > deadzone then [Frame(next)] else [])
  }

  /** Update: the keyboard handler, then the wheel handler. */
  function UpdateStep(s: ControlState, stepSize: real, deadzone: real, bindings: MozaBindings,
                      keys: ArrowKeys, reading: MozaReading): Outcome
  {
    var k := KeyboardStep(s, stepSize, keys);
    var w := WheelStep(k.state, bindings, reading, deadzone);
    Outcome(w.state, k.frames + w.frames)
  }

  /** The keyboard handler sends exactly one frame, carrying the new values,
      iff some arrow key went down, even when clamping left the values as they
      were; each pair of keys touches only its own axis. */
  lemma KeyboardSendsOnAnyKey(s: ControlState, stepSize: real, keys: ArrowKeys)
    ensures |KeyboardStep(s, stepSize, keys).frames| == (if keys.AnyDown() then 1 else 0)
    ensures keys.AnyDown() ==> KeyboardStep(s, stepSize, keys).frames == [Frame(KeyboardStep(s, stepSize, keys).state)]
    ensures !keys.up && !keys.down ==> KeyboardStep(s, stepSize, keys).state.throttle == s.throttle
    ensures !keys.left && !keys.right ==> KeyboardStep(s, stepSize, keys).state.angle == s.angle
    ensures s.Normalized() ==> KeyboardStep(s, stepSize, keys).state.Normalized()
  {
  }

  /** At the top of the range Up then Down does not cancel out: Up is clamped
      away and only Down takes effect. */
  lemma UpDownAtTopDoesNotCancel(stepSize: real)
    requires 0.0 < stepSize <= 2.0
    ensures StepThrottle(1.0, stepSize, ArrowKeys(true, true, false, false)) == 1.0 - stepSize
  {
  }

  /** The wheel handler: with a missing binding it changes nothing and sends
      nothing; otherwise it sends one frame iff either new axis magnitude is
      above the deadzone, and the frame carries the new values. */
  lemma WheelSendRule(s: ControlState, bindings: MozaBindings, reading: MozaReading, deadzone: real)
    ensures !bindings.AllResolved() ==> WheelStep(s, bindings, reading, deadzone) == Outcome(s, [])
    ensures bindings.AllResolved() ==>
      var w := WheelStep(s, bindings, reading, deadzone);
      (|w.frames| == 1 <==> (Abs(w.state.throttle) > deadzone || Abs(w.state.angle) > deadzone)) &&
      |w.frames| <= 1 &&
      (|w.frames| == 1 ==> w.frames[0] == Frame(w.state))
  {
  }

  /** With all four actions resolved, the wheel overwrites whatever the
      keyboard did earlier in the same frame: the state after Update depends
      only on the wheel reading. */
  lemma WheelOverridesKeyboard(s1: ControlState, s2: ControlState, stepSize: real, deadzone: real,
                               bindings: MozaBindings, keys1: ArrowKeys, keys2: ArrowKeys, reading: MozaReading)
    requires bindings.AllResolved()
    ensures UpdateStep(s1, stepSize, deadzone, bindings, keys1, reading).state
         == UpdateStep(s2, stepSize, deadzone, bindings, keys2, reading).state
    ensures UpdateStep(s1, stepSize, deadzone, bindings, keys1, reading).state
         == ControlState(Throttle(reading.rx, reading.ry, deadzone),
                         Steer(reading.steerLeft, reading.steerRight, deadzone))
  {
  }

  /** Every frame Update sends is a full-state record in "user" mode with
      recording off, and at most two frames (one per handler) go out. */
  lemma UpdateFramesAreUserFrames(s: ControlState, stepSize: real, deadzone: real, bindings: MozaBindings,
                                  keys: ArrowKeys, reading: MozaReading)
    ensures var o := UpdateStep(s, stepSize, deadzone, bindings, keys, reading);
      |o.frames| <= 2 &&
      forall i :: 0 <= i < |o.frames| ==> o.frames[i].drive_mode == "user" && !o.frames[i].recording
  {
  }

  /** A wheel reading whose left steering half-axis does not exceed its top, 1.
      The other axes need no range, since their mappings clamp. */
  predicate InRange(reading: MozaReading)
  {
    reading.steerLeft <= 1.0
  }

  /** A whole session of frames, each a key set and a wheel reading. */
  function Run(s: ControlState, stepSize: real, deadzone: real, bindings: MozaBindings,
               inputs: seq<(ArrowKeys, MozaReading)>): Outcome
    decreases |inputs|
  {
    if inputs == [] then Outcome(s, [])
    else
      var o := UpdateStep(s, stepSize, deadzone, bindings, inputs[0].0, inputs[0].1);
      var rest := Run(o.state, stepSize, deadzone, bindings, inputs[1..]);
      Outcome(rest.state, o.frames + rest.frames)
  }

  /** The number of key-down frames in a session. */
  function KeyFrames(inputs: seq<(ArrowKeys, MozaReading)>): (n: nat)
    ensures n <= |inputs|
    ensures (forall i :: 0 <= i < |inputs| ==> !inputs[i].0.AnyDown()) ==> n == 0
    ensures (forall i :: 0 <= i < |inputs| ==> inputs[i].0.AnyDown()) ==> n == |inputs|
    decreases |inputs|
  {
    if inputs == [] then 0 else (if inputs[0].0.AnyDown() then 1 else 0) + KeyFrames(inputs[1..])
  }

  /** Every frame carries a throttle and an angle in [-1,1]. */
  predicate FramesNormalized(frames: seq<DonkeyCarData>)
  {
    forall i :: 0 <= i < |frames| ==> -1.0 <= frames[i].throttle <= 1.0 && -1.0 <= frames[i].angle <= 1.0
  }

  /** Over a whole session starting from normalized values with a
      non-negative deadzone and readings in range, every frame sent carries a
      normalized throttle and angle, and the values stay normalized. */
  lemma {:induction false} RunSendsNormalizedFrames(s: ControlState, stepSize: real, deadzone: real,
                                                    bindings: MozaBindings, inputs: seq<(ArrowKeys, MozaReading)>)
    requires s.Normalized() && deadzone >= 0.0
    requires forall i :: 0 <= i < |inputs| ==> InRange(inputs[i].1)
    ensures Run(s, stepSize, deadzone, bindings, inputs).state.Normalized()
    ensures FramesNormalized(Run(s, stepSize, deadzone, bindings, inputs).frames)
    decreases |inputs|
  {
    if inputs != [] {
      var reading := inputs[0].1;
      var k := KeyboardStep(s, stepSize, inputs[0].0);
      var w := WheelStep(k.state, bindings, reading, deadzone);
      var o := UpdateStep(s, stepSize, deadzone, bindings, inputs[0].0, reading);
      SteerBounded(reading.steerLeft, reading.steerRight, deadzone);
      assert k.state.Normalized() && w.state.Normalized();
      assert FramesNormalized(k.frames) && FramesNormalized(w.frames);
      var rest := Run(o.state, stepSize, deadzone, bindings, inputs[1..]);
      RunSendsNormalizedFrames(o.state, stepSize, deadzone, bindings, inputs[1..]);
      var all := k.frames + w.frames + rest.frames;
      assert Run(s, stepSize, deadzone, bindings, inputs).frames == all;
      forall i | 0 <= i < |all|
        ensures -1.0 <= all[i].throttle <= 1.0 && -1.0 <= all[i].angle <= 1.0
      {
        if i < |k.frames| {
          assert all[i] == k.frames[i];
        } else if i < |k.frames| + |w.frames| {
          assert all[i] == w.frames[i - |k.frames|];
        } else {
          assert all[i] == rest.frames[i - |k.frames| - |w.frames|];
        }
      }
    }
  }

  /** With the wheel unbound, a session sends exactly one frame per frame in
      which some arrow key went down. */
  lemma {:induction false} UnboundRunSendsPerKeyFrame(s: ControlState, stepSize: real, deadzone: real,
                                                      bindings: MozaBindings, inputs: seq<(ArrowKeys, MozaReading)>)
    requires !bindings.AllResolved()
    ensures |Run(s, stepSize, deadzone, bindings, inputs).frames| == KeyFrames(inputs)
    decreases |inputs|
  {
    if inputs != [] {
      var o := UpdateStep(s, stepSize, deadzone, bindings, inputs[0].0, inputs[0].1);
      UnboundRunSendsPerKeyFrame(o.state, stepSize, deadzone, bindings, inputs[1..]);
    }
  }

  /** The sender component. `sent` lists the frames handed to the socket. */
  class WebsocketTest {
    const stepSize: real
    const inputDeadzone: real
    const bindings: MozaBindings
    var angle: real
    var throttle: real
    var mode: string
    var recording: bool
    var sent: seq<DonkeyCarData>

    /** Mode and recording keep their initial values, so do all frames sent. */
    ghost predicate Valid()
      reads this
    {
      mode == "user" && !recording &&
      forall i :: 0 <= i < |sent| ==> sent[i].drive_mode == "user" && !sent[i].recording
    }

    function State(): ControlState
      reads this
    {
      ControlState(throttle, angle)
    }

    /** Field initialisers and Start; the action lookups are given as `bindings`. */
    constructor (stepSize: real, inputDeadzone: real, bindings: MozaBindings)
      ensures Valid()
      ensures this.stepSize == stepSize && this.inputDeadzone == inputDeadzone && this.bindings == bindings
      ensures State() == ControlState(0.0, 0.0) && sent == []
    {
      this.stepSize := stepSize;
      this.inputDeadzone := inputDeadzone;
      this.bindings := bindings;
      angle := 0.0;
      throttle := 0.0;
      mode := "user";
      recording := false;
      sent := [];
    }

    method SendControlSignal()
      requires Valid()
      modifies this`sent
      ensures Valid()
      ensures sent == old(sent) + [Frame(State())]
    {
      var data := DonkeyCarData(angle, throttle, mode, recording);
      sent := sent + [data];
    }

    method HandleKeyboardInput(keys: ArrowKeys)
      requires Valid()
      modifies this`throttle, this`angle, this`sent
      ensures Valid()
      ensures State() == KeyboardStep(old(State()), stepSize, keys).state
      ensures sent == old(sent) + KeyboardStep(old(State()), stepSize, keys).frames
    {
      var inputChanged := false;
      if keys.up {
        throttle := Clamp(throttle + stepSize, -1.0, 1.0);
        inputChanged := true;
      }
      if keys.down {
        throttle := Clamp(throttle - stepSize, -1.0, 1.0);
        inputChanged := true;
      }
      if keys.left {
        angle := Clamp(angle - stepSize, -1.0, 1.0);
        inputChanged := true;
      }
      if keys.right {
        angle := Clamp(angle + stepSize, -1.0, 1.0);
        inputChanged := true;
      }
      if inputChanged {
        SendControlSignal();
      }
    }

    method HandleMozaInput(reading: MozaReading)
      requires Valid()
      modifies this`throttle, this`angle, this`sent
      ensures Valid()
      ensures State() == WheelStep(old(State()), bindings, reading, inputDeadzone).state
      ensures sent == old(sent) + WheelStep(old(State()), bindings, reading, inputDeadzone).frames
    {
      if !bindings.AllResolved() {
        return;
      }
      var rxMapped := InverseLerp(-1.0, 1.0, reading.rx);
      var ryMapped := InverseLerp(1.0, -1.0, reading.ry) * -1.0;
      if Abs(rxMapped) < inputDeadzone { rxMapped := 0.0; }
      if Abs(ryMapped) < inputDeadzone { ryMapped := 0.0; }
      throttle := if Abs(rxMapped) > Abs(ryMapped) then rxMapped else ryMapped;

      if reading.steerLeft > 0.0 + inputDeadzone {
        angle := (1.0 - reading.steerLeft) * -1.0;
      } else if reading.steerRight < 0.0 - inputDeadzone {
        angle := InverseLerp(-1.0, 0.0, reading.steerRight);
      } else {
        angle := 0.0;
      }

      if Abs(throttle) > inputDeadzone || Abs(angle) > inputDeadzone {
        SendControlSignal();
      }
    }

    method Update(keys: ArrowKeys, reading: MozaReading)
      requires Valid()
      modifies this`throttle, this`angle, this`sent
      ensures Valid()
      ensures State() == UpdateStep(old(State()), stepSize, inputDeadzone, bindings, keys, reading).state
      ensures sent == old(sent) + UpdateStep(old(State()), stepSize, inputDeadzone, bindings, keys, reading).frames
    {
      HandleKeyboardInput(keys);
      HandleMozaInput(reading);
    }
  }
}
