/** The mouse-drag reader (class ClickInputTranslate in
    Assets/Scripts/ClickControll.cs): pressing on the throttle or steer cube
    starts a drag, holding the button moves that value with the mouse, and
    otherwise both values drift back to 0. The raycast under the mouse is
    given as the object it hit. */
module ClickControl {
  import opened UnityMathf
  import opened InputRules

  /** What the ray under the mouse hit when the button went down. */
  datatype HitTarget = NoHit | ThrottleCube | SteerCube | OtherObject

  /** Input.mousePosition (its z is always 0). */
  datatype MousePoint = MousePoint(x: real, y: real)

  datatype ClickState = ClickState(
    isDraggingThrottle: bool,
    isDraggingSteer: bool,
    lastMousePosition: MousePoint,
    throttleValue: real,
    steerValue: real)
  {
    predicate Normalized() { -1.0 <= throttleValue <= 1.0 && -1.0 <= steerValue <= 1.0 }
  }

  /** One frame's input. */
  datatype ClickFrame = ClickFrame(button: MouseButton, mouse: MousePoint, hit: HitTarget, deltaTime: real)

  /** HandleMouseInput as a function of the state before it: press, else
      release, else hold, else auto-centre. */
  function MouseStep(s: ClickState, sensitivity: real, f: ClickFrame): ClickState
  {
    if f.button.down then
      if f.hit == NoHit then s
      else if f.hit == ThrottleCube then s.(isDraggingThrottle := true, lastMousePosition := f.mouse)
      else if f.hit == SteerCube then s.(isDraggingSteer := true, lastMousePosition := f.mouse)
      else s.(lastMousePosition := f.mouse)
    else if f.button.up then
      s.(isDraggingThrottle := false, isDraggingSteer := false)
    else if f.button.held then
      var deltaX := f.mouse.x - s.lastMousePosition.x;
      var deltaY := f.mouse.y - s.lastMousePosition.y;
      if s.isDraggingThrottle then
        s.(throttleValue := Clamp(s.throttleValue + deltaY * sensitivity, -1.0, 1.0), lastMousePosition := f.mouse)
      else if s.isDraggingSteer then
        s.(steerValue := Clamp(s.steerValue + deltaX * sensitivity, -1.0, 1.0), lastMousePosition := f.mouse)
      else
        s.(lastMousePosition := f.mouse)
    else
      s.(throttleValue := MoveTowards(s.throttleValue, 0.0, f.deltaTime),
         steerValue := MoveTowards(s.steerValue, 0.0, f.deltaTime))
  }

  /** A press sets at most one drag flag, the throttle cube taking
      precedence, and never clears one; any hit records the mouse position;
      the values do not move. */
  lemma PressStartsOneDrag(s: ClickState, sensitivity: real, f: ClickFrame)
    requires f.button.down
    ensures var t := MouseStep(s, sensitivity, f);
      t.isDraggingThrottle == (s.isDraggingThrottle || f.hit == ThrottleCube) &&
      t.isDraggingSteer == (s.isDraggingSteer || f.hit == SteerCube) &&
      !(t.isDraggingThrottle && !s.isDraggingThrottle && t.isDraggingSteer && !s.isDraggingSteer) &&
      t.lastMousePosition == (if f.hit == NoHit then s.lastMousePosition else f.mouse) &&
      t.throttleValue == s.throttleValue && t.steerValue == s.steerValue
  {
  }

  /** Releasing the button (with no press this frame) ends both drags and
      leaves the values and the mouse position alone. */
  lemma ReleaseEndsDrags(s: ClickState, sensitivity: real, f: ClickFrame)
    requires !f.button.down && f.button.up
    ensures MouseStep(s, sensitivity, f) == s.(isDraggingThrottle := false, isDraggingSteer := false)
  {
  }

  /** In a held frame a throttle drag moves only the throttle, by the
      vertical mouse movement times the sensitivity (clamped to [-1,1]);
      otherwise a steer drag moves only the steer value, by the horizontal
      movement; without a drag nothing but the recorded mouse position
      changes. The flags are kept. */
  lemma HeldFrameMovesDraggedValueOnly(s: ClickState, sensitivity: real, f: ClickFrame)
    requires !f.button.down && !f.button.up && f.button.held
    ensures var t := MouseStep(s, sensitivity, f);
      t.isDraggingThrottle == s.isDraggingThrottle && t.isDraggingSteer == s.isDraggingSteer &&
      t.lastMousePosition == f.mouse &&
      (s.isDraggingThrottle ==>
         t.steerValue == s.steerValue &&
         t.throttleValue == Clamp(s.throttleValue + (f.mouse.y - s.lastMousePosition.y) * sensitivity, -1.0, 1.0)) &&
      (!s.isDraggingThrottle && s.isDraggingSteer ==>
         t.throttleValue == s.throttleValue &&
         t.steerValue == Clamp(s.steerValue + (f.mouse.x - s.lastMousePosition.x) * sensitivity, -1.0, 1.0)) &&
      (!s.isDraggingThrottle && !s.isDraggingSteer ==>
         t.throttleValue == s.throttleValue && t.steerValue == s.steerValue)
  {
    var deltaY := f.mouse.y - s.lastMousePosition.y;
    assert s.isDraggingThrottle ==>
      MouseStep(s, sensitivity, f).throttleValue == Clamp(s.throttleValue + deltaY * sensitivity, -1.0, 1.0);
    var deltaX := f.mouse.x - s.lastMousePosition.x;
    assert !s.isDraggingThrottle && s.isDraggingSteer ==>
      MouseStep(s, sensitivity, f).steerValue == Clamp(s.steerValue + deltaX * sensitivity, -1.0, 1.0);
  }

  /** Auto-centre runs only in a frame without press, release or hold: each
      value moves towards 0 by at most deltaTime, never past 0, so it never
      changes sign; a value within deltaTime of 0 lands exactly on 0. */
  lemma AutoCentreNeverOvershoots(s: ClickState, sensitivity: real, f: ClickFrame)
    requires f.deltaTime >= 0.0
    ensures var t := MouseStep(s, sensitivity, f);
      (f.button.down || f.button.up || f.button.held) ==>
        (t.throttleValue == s.throttleValue || t.isDraggingThrottle) &&
        (t.steerValue == s.steerValue || (t.isDraggingSteer && !t.isDraggingThrottle))
    ensures !f.button.down && !f.button.up && !f.button.held ==>
      var t := MouseStep(s, sensitivity, f);
      t.isDraggingThrottle == s.isDraggingThrottle && t.isDraggingSteer == s.isDraggingSteer &&
      Abs(t.throttleValue - s.throttleValue) <= f.deltaTime &&
      Abs(t.steerValue - s.steerValue) <= f.deltaTime &&
      Abs(t.throttleValue) <= Abs(s.throttleValue) && Abs(t.steerValue) <= Abs(s.steerValue) &&
      (s.throttleValue >= 0.0 ==> t.throttleValue >= 0.0) && (s.throttleValue <= 0.0 ==> t.throttleValue <= 0.0) &&
      (s.steerValue >= 0.0 ==> t.steerValue >= 0.0) && (s.steerValue <= 0.0 ==> t.steerValue <= 0.0) &&
      (Abs(s.throttleValue) <= f.deltaTime ==> t.throttleValue == 0.0) &&
      (Abs(s.steerValue) <= f.deltaTime ==> t.steerValue == 0.0)
  {
  }

  /** Every kind of frame keeps both values in [-1,1]. */
  lemma MouseStepKeepsNormalized(s: ClickState, sensitivity: real, f: ClickFrame)
    requires s.Normalized() && f.deltaTime >= 0.0
    ensures MouseStep(s, sensitivity, f).Normalized()
  {
  }

  /** A whole session of frames. */
  function MouseRun(s: ClickState, sensitivity: real, frames: seq<ClickFrame>): ClickState
    decreases |frames|
  {
    if frames == [] then s else MouseRun(MouseStep(s, sensitivity, frames[0]), sensitivity, frames[1..])
  }

  /** Across any session (frame times are never negative) both values stay
      in [-1,1]. */
  lemma {:induction false} MouseRunKeepsNormalized(s: ClickState, sensitivity: real, frames: seq<ClickFrame>)
    requires s.Normalized()
    requires forall i :: 0 <= i < |frames| ==> frames[i].deltaTime >= 0.0
    ensures MouseRun(s, sensitivity, frames).Normalized()
    decreases |frames|
  {
    if frames != [] {
      MouseStepKeepsNormalized(s, sensitivity, frames[0]);
      MouseRunKeepsNormalized(MouseStep(s, sensitivity, frames[0]), sensitivity, frames[1..]);
    }
  }

  /** The summed frame times of a session. */
  function TotalTime(frames: seq<ClickFrame>): real
    decreases |frames|
  {
    if frames == [] then 0.0 else frames[0].deltaTime + TotalTime(frames[1..])
  }

  /** A frame without press, release or hold. */
  predicate Idle(f: ClickFrame) { !f.button.down && !f.button.up && !f.button.held && f.deltaTime >= 0.0 }

  /** After a session in which the button is never touched, each value has
      moved towards 0 by at most the session's total time and never changed sign. */
  lemma {:induction false} IdleRunCentres(s: ClickState, sensitivity: real, frames: seq<ClickFrame>)
    requires forall i :: 0 <= i < |frames| ==> Idle(frames[i])
    ensures var t := MouseRun(s, sensitivity, frames);
      Abs(t.throttleValue) <= Abs(s.throttleValue) && Abs(t.steerValue) <= Abs(s.steerValue) &&
      Abs(t.throttleValue - s.throttleValue) <= TotalTime(frames) &&
      Abs(t.steerValue - s.steerValue) <= TotalTime(frames) &&
      (s.throttleValue >= 0.0 ==> t.throttleValue >= 0.0) && (s.throttleValue <= 0.0 ==> t.throttleValue <= 0.0) &&
      (s.steerValue >= 0.0 ==> t.steerValue >= 0.0) && (s.steerValue <= 0.0 ==> t.steerValue <= 0.0)
    decreases |frames|
  {
    if frames != [] {
      var next := MouseStep(s, sensitivity, frames[0]);
      AutoCentreNeverOvershoots(s, sensitivity, frames[0]);
      IdleRunCentres(next, sensitivity, frames[1..]);
    }
  }

  /** The component. */
  class ClickInputTranslate {
    const sensitivity: real
    var isDraggingThrottle: bool
    var isDraggingSteer: bool
    var lastMousePosition: MousePoint
    var throttleValue: real
    var steerValue: real

    function State(): ClickState
      reads this
    {
      ClickState(isDraggingThrottle, isDraggingSteer, lastMousePosition, throttleValue, steerValue)
    }

    /** Both values and flags start at their defaults. */
    constructor (sensitivity: real)
      ensures this.sensitivity == sensitivity
      ensures State() == ClickState(false, false, MousePoint(0.0, 0.0), 0.0, 0.0)
      ensures State().Normalized()
    {
      this.sensitivity := sensitivity;
      isDraggingThrottle := false;
      isDraggingSteer := false;
      lastMousePosition := MousePoint(0.0, 0.0);
      throttleValue := 0.0;
      steerValue := 0.0;
    }

    method HandleMouseInput(button: MouseButton, mouse: MousePoint, hit: HitTarget, deltaTime: real)
      modifies this
      ensures State() == MouseStep(old(State()), sensitivity, ClickFrame(button, mouse, hit, deltaTime))
      ensures old(State()).Normalized() && deltaTime >= 0.0 ==> State().Normalized()
    {
      if button.down {
        if hit != NoHit {
          if hit == ThrottleCube {
            isDraggingThrottle := true;
          } else if hit == SteerCube {
            isDraggingSteer := true;
          }
          lastMousePosition := mouse;
        }
      } else if button.up {
        isDraggingThrottle := false;
        isDraggingSteer := false;
      } else if button.held {
        var deltaX := mouse.x - lastMousePosition.x;
        var deltaY := mouse.y - lastMousePosition.y;
        if isDraggingThrottle {
          throttleValue := Clamp(throttleValue + deltaY * sensitivity, -1.0, 1.0);
        } else if isDraggingSteer {
          steerValue := Clamp(steerValue + deltaX * sensitivity, -1.0, 1.0);
        }
        lastMousePosition := mouse;
      } else {
        throttleValue := MoveTowards(throttleValue, 0.0, deltaTime);
        steerValue := MoveTowards(steerValue, 0.0, deltaTime);
      }
      if old(State()).Normalized() && deltaTime >= 0.0 {
        MouseStepKeepsNormalized(old(State()), sensitivity, ClickFrame(button, mouse, hit, deltaTime));
      }
    }

    /** One frame (the visuals are not modelled). */
    method Update(button: MouseButton, mouse: MousePoint, hit: HitTarget, deltaTime: real)
      modifies this
      ensures State() == MouseStep(old(State()), sensitivity, ClickFrame(button, mouse, hit, deltaTime))
    {
      HandleMouseInput(button, mouse, hit, deltaTime);
    }
  }
}
