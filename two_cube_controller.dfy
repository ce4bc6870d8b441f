/** The two-cube drag controller (Assets/Scripts/TwoCubeController.cs): two
    cubes, each standing for a value in [-1,1] through its height in
    [0, 2*maxDistance]. Pressing on a cube starts dragging it, holding the
    button moves the dragged cube with the vertical mouse axis, and a cube
    not being dragged drifts back to value 0 and is placed at the height of
    its value. The cube heights are kept because dragging reads the cube's
    current height back.

    Heights are kept in units of maxDistance (a world height h is stored as
    h / maxDistance, so the cube range [0, 2*maxDistance] becomes [0, 2]).
    The lemmas DragInWorldUnits, ValueInWorldUnits and HeightInWorldUnits
    show that the source's world-unit formulas are exactly these scaled by
    maxDistance. */
module TwoCubeControl {
  import opened UnityMathf
  import opened InputRules

  /** What the ray under the mouse hit when the button went down. */
  datatype CubeHit = NoHit | LeftCube | RightCube | OtherObject

  /** The fixed part of the component: which cubes are assigned, and its settings. */
  datatype CubeSetup = CubeSetup(hasLeftCube: bool, hasRightCube: bool, maxDistance: real, moveSpeed: real)

  datatype TwoCubeState = TwoCubeState(
    isDraggingLeft: bool,
    isDraggingRight: bool,
    leftValue: real,
    rightValue: real,
    leftY: real,       // height of the left cube, in units of maxDistance
    rightY: real)      // height of the right cube, in units of maxDistance
  {
    predicate Normalized() { -1.0 <= leftValue <= 1.0 && -1.0 <= rightValue <= 1.0 }
  }

  /** The height MoveCube drags a cube to: moved by deltaY (deltaY * maxDistance
      in world units) and clamped to the cube range. */
  function DraggedHeight(y: real, deltaY: real): (r: real)
    ensures 0.0 <= r <= 2.0
    ensures 0.0 <= y + deltaY <= 2.0 ==> r == y + deltaY
    ensures y + deltaY < 0.0 ==> r == 0.0
    ensures y + deltaY > 2.0 ==> r == 2.0
  {
    Clamp(y + deltaY, 0.0, 2.0)
  }

  /** The value MoveCube reads off a height: the bottom of the range is -1,
      the top +1, linearly in between. */
  function ValueAtHeight(y: real): (r: real)
    ensures -1.0 <= r <= 1.0
    ensures 0.0 <= y <= 2.0 ==> r == y - 1.0
    ensures y <= 0.0 ==> r == -1.0
    ensures y >= 2.0 ==> r == 1.0
  {
    -1.0 + 2.0 * Clamp01(y / 2.0)
  }

  /** ValueAtHeight is the interpolation MoveCube writes: Lerp(-1, 1, y / 2). */
  lemma ValueAtHeightIsLerp(y: real)
    ensures ValueAtHeight(y) == Lerp(-1.0, 1.0, y / 2.0)
  {
  }

  /** The height UpdateValues places a cube at for a value: -1 at the bottom
      of the range, +1 at the top, linearly in between. */
  function HeightForValue(v: real): (r: real)
    ensures 0.0 <= r <= 2.0
    ensures -1.0 <= v <= 1.0 ==> r == v + 1.0
    ensures v <= -1.0 ==> r == 0.0
    ensures v >= 1.0 ==> r == 2.0
  {
    2.0 * Clamp01((v + 1.0) / 2.0)
  }

  /** HeightForValue is the interpolation UpdateValues writes: Lerp(0, 2, (v + 1) / 2). */
  lemma HeightForValueIsLerp(v: real)
    ensures HeightForValue(v) == Lerp(0.0, 2.0, (v + 1.0) / 2.0)
  {
  }

  /** The two maps are inverse to each other on their ranges: a value placed
      at its height reads back as itself, and a height read as a value is
      placed back at the same height. */
  lemma HeightValueRoundTrip(v: real, y: real)
    ensures -1.0 <= v <= 1.0 ==> ValueAtHeight(HeightForValue(v)) == v
    ensures 0.0 <= y <= 2.0 ==> HeightForValue(ValueAtHeight(y)) == y
  {
  }

  lemma MultiplyBoth(a: real, b: real, m: real)
    requires a == b
    ensures a * m == b * m
  {
  }

  /** The drag and clamp of MoveCube in world units is the scaled drag: moving a world height
      by deltaY * maxDistance and clamping to [0, 2*maxDistance] lands at
      maxDistance times the scaled dragged height. */
  lemma DragInWorldUnits(maxDistance: real, worldY: real, deltaY: real)
    requires maxDistance > 0.0
    ensures Clamp(worldY + deltaY * maxDistance, 0.0, maxDistance * 2.0)
            == maxDistance * DraggedHeight(worldY / maxDistance, deltaY)
  {
    var y := worldY / maxDistance;
    assert y * maxDistance == worldY;
    var s := y + deltaY;
    MultiplyBoth(y + deltaY, s, maxDistance);
    assert worldY + deltaY * maxDistance == s * maxDistance;
    if s < 0.0 {
      assert s * maxDistance < 0.0;
    } else if s > 2.0 {
      assert (s - 2.0) * maxDistance > 0.0;
    } else {
      assert s * maxDistance >= 0.0;
      assert (2.0 - s) * maxDistance >= 0.0;
    }
  }

  /** The value MoveCube reads off a world height is the one read off the scaled height. */
  lemma ValueInWorldUnits(maxDistance: real, worldY: real)
    requires maxDistance > 0.0
    ensures Lerp(-1.0, 1.0, worldY / (maxDistance * 2.0)) == ValueAtHeight(worldY / maxDistance)
  {
    var y := worldY / maxDistance;
    assert y * maxDistance == worldY;
    var t := worldY / (maxDistance * 2.0);
    assert t * (maxDistance * 2.0) == worldY;
    MultiplyBoth(t * 2.0, y, maxDistance);
  }

  /** The placement of UpdateValues in world units puts a cube at maxDistance
      times the scaled height for its value. */
  lemma HeightInWorldUnits(maxDistance: real, v: real)
    requires maxDistance > 0.0
    ensures Lerp(0.0, maxDistance * 2.0, (v + 1.0) / 2.0) == maxDistance * HeightForValue(v)
  {
    var u := Clamp01((v + 1.0) / 2.0);
    MultiplyBoth(u * 2.0, u * 2.0, maxDistance);
  }

  lemma QuotientOfProduct(m: real, h: real)
    requires m > 0.0
    ensures (m * h) / m == h
  {
    assert ((m * h) / m) * m == m * h;
  }

  /** The round trip in the scripts' own world units: a value placed by
      UpdateValues and read back by MoveCube's formula is the value itself. */
  lemma WorldRoundTrip(maxDistance: real, v: real)
    requires maxDistance > 0.0 && -1.0 <= v <= 1.0
    ensures Lerp(-1.0, 1.0, Lerp(0.0, maxDistance * 2.0, (v + 1.0) / 2.0) / (maxDistance * 2.0)) == v
  {
    var h := HeightForValue(v);
    var w := maxDistance * h;
    HeightInWorldUnits(maxDistance, v);
    assert Lerp(0.0, maxDistance * 2.0, (v + 1.0) / 2.0) == w;
    ValueInWorldUnits(maxDistance, w);
    QuotientOfProduct(maxDistance, h);
    HeightValueRoundTrip(v, h);
    assert ValueAtHeight(w / maxDistance) == v;
  }

  /** MoveCube on one cube's (height, value): unchanged without a cube,
      otherwise the dragged height and the value read off it. */
  function MoveCubeStep(hasCube: bool, y: real, value: real, deltaY: real): (r: (real, real))
    ensures !hasCube ==> r == (y, value)
    ensures hasCube ==> r.0 == DraggedHeight(y, deltaY) && r.1 == ValueAtHeight(r.0)
    ensures hasCube ==> 0.0 <= r.0 <= 2.0 && -1.0 <= r.1 <= 1.0 && HeightForValue(r.1) == r.0
  {
    if !hasCube then (y, value)
    else
      var newY := DraggedHeight(y, deltaY);
      (newY, ValueAtHeight(newY))
  }

  /** The drag flags after the button events of a frame: a press on an
      assigned cube starts dragging it (the left cube checked first), a
      release without a press stops both drags. */
  function DragFlags(s: TwoCubeState, setup: CubeSetup, button: MouseButton, hit: CubeHit): TwoCubeState
  {
    if button.down then
      if setup.hasLeftCube && hit == LeftCube then s.(isDraggingLeft := true)
      else if setup.hasRightCube && hit == RightCube then s.(isDraggingRight := true)
      else s
    else if button.up then s.(isDraggingLeft := false, isDraggingRight := false)
    else s
  }

  /** The frame's drag distance: the vertical mouse axis times moveSpeed
      times the frame time. */
  function MouseTravel(mouseAxisY: real, moveSpeed: real, deltaTime: real): real
  {
    mouseAxisY * moveSpeed * deltaTime
  }

  /** HandleInput as a function of the state before it and the frame's drag
      distance `mouseY`. */
  function HandleInputStep(s: TwoCubeState, setup: CubeSetup, button: MouseButton, hit: CubeHit,
                           mouseY: real): TwoCubeState
  {
    var flagged := DragFlags(s, setup, button, hit);
    if !button.held then flagged
    else
      if flagged.isDraggingLeft then
        var moved := MoveCubeStep(setup.hasLeftCube, flagged.leftY, flagged.leftValue, mouseY);
        flagged.(leftY := moved.0, leftValue := moved.1)
      else if flagged.isDraggingRight then
        var moved := MoveCubeStep(setup.hasRightCube, flagged.rightY, flagged.rightValue, mouseY);
        flagged.(rightY := moved.0, rightValue := moved.1)
      else flagged
  }

  /** UpdateValues as a function of the state before it. */
  function UpdateValuesStep(s: TwoCubeState, setup: CubeSetup, deltaTime: real): TwoCubeState
  {
    var l :=
      if s.isDraggingLeft then s
      else
        var v := MoveTowards(s.leftValue, 0.0, deltaTime);
        s.(leftValue := v, leftY := if setup.hasLeftCube then HeightForValue(v) else s.leftY);
    if l.isDraggingRight then l
    else
      var v := MoveTowards(l.rightValue, 0.0, deltaTime);
      l.(rightValue := v, rightY := if setup.hasRightCube then HeightForValue(v) else l.rightY)
  }

  /** One frame: HandleInput, then UpdateValues. */
  function FrameStep(s: TwoCubeState, setup: CubeSetup, button: MouseButton, hit: CubeHit,
                     mouseAxisY: real, deltaTime: real): TwoCubeState
  {
    UpdateValuesStep(HandleInputStep(s, setup, button, hit, MouseTravel(mouseAxisY, setup.moveSpeed, deltaTime)), setup, deltaTime)
  }

  /** A press sets at most one drag flag (the left cube checked first) and
      clears none; a release without a press clears both; a frame without
      either keeps both. Values and heights are not touched by the flags. */
  lemma PressAndReleaseFlags(s: TwoCubeState, setup: CubeSetup, button: MouseButton, hit: CubeHit)
    ensures var t := DragFlags(s, setup, button, hit);
      (button.down ==>
         t.isDraggingLeft == (s.isDraggingLeft || (setup.hasLeftCube && hit == LeftCube)) &&
         t.isDraggingRight == (s.isDraggingRight || (!(setup.hasLeftCube && hit == LeftCube)
                                                     && setup.hasRightCube && hit == RightCube))) &&
      (!button.down && button.up ==> !t.isDraggingLeft && !t.isDraggingRight) &&
      (!button.down && !button.up ==> t.isDraggingLeft == s.isDraggingLeft && t.isDraggingRight == s.isDraggingRight) &&
      t.leftValue == s.leftValue && t.rightValue == s.rightValue && t.leftY == s.leftY && t.rightY == s.rightY
  {
  }

  /** While the button is held a left drag takes precedence, and dragging
      one cube never touches the other cube's value or height; without the
      button held no value or height changes. */
  lemma DragMovesOneCube(s: TwoCubeState, setup: CubeSetup, button: MouseButton, hit: CubeHit, mouseY: real)
    ensures var t := HandleInputStep(s, setup, button, hit, mouseY);
      var f := DragFlags(s, setup, button, hit);
      t.isDraggingLeft == f.isDraggingLeft && t.isDraggingRight == f.isDraggingRight &&
      (t.isDraggingLeft ==> t.rightValue == s.rightValue && t.rightY == s.rightY) &&
      (!t.isDraggingLeft ==> t.leftValue == s.leftValue && t.leftY == s.leftY) &&
      (!t.isDraggingRight || t.isDraggingLeft ==> t.rightValue == s.rightValue && t.rightY == s.rightY) &&
      (!button.held ==> t.leftValue == s.leftValue && t.rightValue == s.rightValue &&
                        t.leftY == s.leftY && t.rightY == s.rightY)
  {
  }

  /** A dragged, assigned cube under a held button moves by the mouse
      distance, clamped to the range, and its value is the one its new height
      stands for. */
  lemma HeldDragFollowsMouse(s: TwoCubeState, setup: CubeSetup, button: MouseButton, hit: CubeHit, mouseY: real)
    requires button.held
    ensures var t := HandleInputStep(s, setup, button, hit, mouseY);
      (t.isDraggingLeft && setup.hasLeftCube ==>
         t.leftY == DraggedHeight(s.leftY, mouseY) && t.leftValue == ValueAtHeight(t.leftY)) &&
      (t.isDraggingLeft && !setup.hasLeftCube ==> t.leftY == s.leftY && t.leftValue == s.leftValue) &&
      (!t.isDraggingLeft && t.isDraggingRight && setup.hasRightCube ==>
         t.rightY == DraggedHeight(s.rightY, mouseY) && t.rightValue == ValueAtHeight(t.rightY))
  {
  }

  /** UpdateValues: a cube not being dragged moves towards value 0 by at most
      deltaTime without overshooting, and an assigned one is placed at the
      height of its new value; a dragged cube is left alone. */
  lemma UndraggedCubeCentres(s: TwoCubeState, setup: CubeSetup, deltaTime: real)
    requires deltaTime >= 0.0
    ensures var t := UpdateValuesStep(s, setup, deltaTime);
      t.isDraggingLeft == s.isDraggingLeft && t.isDraggingRight == s.isDraggingRight &&
      (s.isDraggingLeft ==> t.leftValue == s.leftValue && t.leftY == s.leftY) &&
      (!s.isDraggingLeft ==>
         Abs(t.leftValue - s.leftValue) <= deltaTime && Abs(t.leftValue) <= Abs(s.leftValue) &&
         (s.leftValue >= 0.0 ==> t.leftValue >= 0.0) && (s.leftValue <= 0.0 ==> t.leftValue <= 0.0) &&
         (Abs(s.leftValue) <= deltaTime ==> t.leftValue == 0.0) &&
         (setup.hasLeftCube ==> t.leftY == HeightForValue(t.leftValue)) &&
         (!setup.hasLeftCube ==> t.leftY == s.leftY)) &&
      (s.isDraggingRight ==> t.rightValue == s.rightValue && t.rightY == s.rightY) &&
      (!s.isDraggingRight ==>
         Abs(t.rightValue - s.rightValue) <= deltaTime && Abs(t.rightValue) <= Abs(s.rightValue) &&
         (s.rightValue >= 0.0 ==> t.rightValue >= 0.0) && (s.rightValue <= 0.0 ==> t.rightValue <= 0.0) &&
         (Abs(s.rightValue) <= deltaTime ==> t.rightValue == 0.0) &&
         (setup.hasRightCube ==> t.rightY == HeightForValue(t.rightValue)) &&
         (!setup.hasRightCube ==> t.rightY == s.rightY))
  {
  }

  /** Every assigned cube's height lies in the range and reads back as its value. */
  predicate HeightsAgree(s: TwoCubeState, setup: CubeSetup)
  {
    (setup.hasLeftCube ==> 0.0 <= s.leftY <= 2.0 && ValueAtHeight(s.leftY) == s.leftValue) &&
    (setup.hasRightCube ==> 0.0 <= s.rightY <= 2.0 && ValueAtHeight(s.rightY) == s.rightValue)
  }

  /** A frame keeps both values in [-1,1], and keeps every assigned cube's
      height in agreement with its value. */
  lemma FrameKeepsInvariant(s: TwoCubeState, setup: CubeSetup, button: MouseButton, hit: CubeHit,
                            mouseAxisY: real, deltaTime: real)
    requires deltaTime >= 0.0 && s.Normalized()
    ensures FrameStep(s, setup, button, hit, mouseAxisY, deltaTime).Normalized()
    ensures HeightsAgree(s, setup) ==> HeightsAgree(FrameStep(s, setup, button, hit, mouseAxisY, deltaTime), setup)
  {
    var mouseY := MouseTravel(mouseAxisY, setup.moveSpeed, deltaTime);
    var h := HandleInputStep(s, setup, button, hit, mouseY);
    DragMovesOneCube(s, setup, button, hit, mouseY);
    assert h.Normalized();
    UndraggedCubeCentres(h, setup, deltaTime);
  }

  /** Start: each assigned cube is raised to height maxDistance (1 in units
      of maxDistance) and its value set to 1. */
  function StartStep(s: TwoCubeState, setup: CubeSetup): (t: TwoCubeState)
    ensures t.isDraggingLeft == s.isDraggingLeft && t.isDraggingRight == s.isDraggingRight
    ensures setup.hasLeftCube ==> t.leftY == 1.0 && t.leftValue == 1.0
    ensures !setup.hasLeftCube ==> t.leftY == s.leftY && t.leftValue == s.leftValue
    ensures setup.hasRightCube ==> t.rightY == 1.0 && t.rightValue == 1.0
    ensures !setup.hasRightCube ==> t.rightY == s.rightY && t.rightValue == s.rightValue
  {
    var l := if setup.hasLeftCube then s.(leftY := 1.0, leftValue := 1.0) else s;
    if setup.hasRightCube then l.(rightY := 1.0, rightValue := 1.0) else l
  }

  /** Right after Start an assigned cube's height reads as value 0 although
      its value is 1: the height that stands for 1 is 2*maxDistance. The
      first frame that does not drag the cube places it at the height of its
      value and restores the agreement. */
  lemma StartHeightReadsAsCentre(s: TwoCubeState, setup: CubeSetup, deltaTime: real)
    requires setup.hasLeftCube && setup.hasRightCube && deltaTime >= 0.0
    ensures StartStep(s, setup).leftValue == 1.0 && StartStep(s, setup).rightValue == 1.0
    ensures ValueAtHeight(StartStep(s, setup).leftY) == 0.0
    ensures HeightForValue(1.0) == 2.0
    ensures !HeightsAgree(StartStep(s, setup), setup)
    ensures var t := StartStep(s, setup);
            !t.isDraggingLeft && !t.isDraggingRight ==>
              HeightsAgree(UpdateValuesStep(t, setup, deltaTime), setup)
  {
    var t := StartStep(s, setup);
    if !t.isDraggingLeft && !t.isDraggingRight {
      var u := UpdateValuesStep(t, setup, deltaTime);
      UndraggedCubeCentres(t, setup, deltaTime);
      HeightValueRoundTrip(u.leftValue, 0.0);
      HeightValueRoundTrip(u.rightValue, 0.0);
    }
  }

  /** A frame without press, release or hold leaves HandleInput nothing to
      do, so such a frame is UpdateValues alone. */
  lemma IdleFrameIsDecay(s: TwoCubeState, setup: CubeSetup, hit: CubeHit, mouseAxisY: real, deltaTime: real)
    ensures HandleInputStep(s, setup, MouseButton(false, false, false), hit, MouseTravel(mouseAxisY, setup.moveSpeed, deltaTime)) == s
    ensures FrameStep(s, setup, MouseButton(false, false, false), hit, mouseAxisY, deltaTime)
            == UpdateValuesStep(s, setup, deltaTime)
  {
  }

  /** The frames of a run in which the button is never touched
      (IdleFrameIsDecay: each such frame is one UpdateValuesStep). */
  function IdleRun(s: TwoCubeState, setup: CubeSetup, frameTimes: seq<real>): TwoCubeState
    decreases |frameTimes|
  {
    if |frameTimes| == 0 then s
    else IdleRun(UpdateValuesStep(s, setup, frameTimes[0]), setup, frameTimes[1..])
  }

  function TotalTime(frameTimes: seq<real>): real
    decreases |frameTimes|
  {
    if |frameTimes| == 0 then 0.0 else frameTimes[0] + TotalTime(frameTimes[1..])
  }

  lemma {:induction false} TotalTimeNonNegative(frameTimes: seq<real>)
    requires forall i :: 0 <= i < |frameTimes| ==> frameTimes[i] >= 0.0
    ensures TotalTime(frameTimes) >= 0.0
    decreases |frameTimes|
  {
    if |frameTimes| > 0 {
      TotalTimeNonNegative(frameTimes[1..]);
    }
  }

  /** Released cubes come back to the centre: after idle frames whose times
      add up to at least a cube's distance from 0, its value is exactly 0 and
      an assigned cube stands at the centre height. */
  lemma {:induction false} IdleRunCentres(s: TwoCubeState, setup: CubeSetup, frameTimes: seq<real>)
    requires !s.isDraggingLeft && !s.isDraggingRight
    requires forall i :: 0 <= i < |frameTimes| ==> frameTimes[i] >= 0.0
    requires |frameTimes| > 0 && TotalTime(frameTimes) >= Max(Abs(s.leftValue), Abs(s.rightValue))
    ensures var t := IdleRun(s, setup, frameTimes);
      t.leftValue == 0.0 && t.rightValue == 0.0 &&
      (setup.hasLeftCube ==> t.leftY == 1.0) && (setup.hasRightCube ==> t.rightY == 1.0)
    decreases |frameTimes|
  {
    var dt := frameTimes[0];
    var u := UpdateValuesStep(s, setup, dt);
    MoveTowardsZero(s.leftValue, dt);
    MoveTowardsZero(s.rightValue, dt);
    var rest := frameTimes[1..];
    assert TotalTime(frameTimes) == dt + TotalTime(rest);
    if |rest| == 0 {
      assert IdleRun(s, setup, frameTimes) == u;
    } else {
      TotalTimeNonNegative(rest);
      IdleRunCentres(u, setup, rest);
    }
  }

  /** The component. */
  class TwoCubeController {
    const setup: CubeSetup
    var isDraggingLeft: bool
    var isDraggingRight: bool
    var leftValue: real
    var rightValue: real
    var leftY: real
    var rightY: real

    function State(): TwoCubeState
      reads this
    {
      TwoCubeState(isDraggingLeft, isDraggingRight, leftValue, rightValue, leftY, rightY)
    }

    /** Field defaults; the cubes start at the heights the scene gives them. */
    constructor (setup: CubeSetup, leftY: real, rightY: real)
      ensures this.setup == setup
      ensures State() == TwoCubeState(false, false, 0.0, 0.0, leftY, rightY)
    {
      this.setup := setup;
      isDraggingLeft := false;
      isDraggingRight := false;
      leftValue := 0.0;
      rightValue := 0.0;
      this.leftY := leftY;
      this.rightY := rightY;
    }

    method Start()
      modifies this
      ensures State() == StartStep(old(State()), setup)
    {
      if setup.hasLeftCube {
        leftY := 1.0;
        leftValue := 1.0;
      }
      if setup.hasRightCube {
        rightY := 1.0;
        rightValue := 1.0;
      }
    }

    /** MoveCube: `value` is the `ref` parameter, `newY` the cube's new height.
        Without an assigned cube nothing moves; otherwise the cube lands in
        the range and its value is the one its height stands for. */
    method MoveCube(hasCube: bool, y: real, value: real, deltaY: real) returns (newY: real, newValue: real)
      ensures (newY, newValue) == MoveCubeStep(hasCube, y, value, deltaY)
      ensures !hasCube ==> newY == y && newValue == value
      ensures hasCube ==> 0.0 <= newY <= 2.0 && newValue == ValueAtHeight(newY) && HeightForValue(newValue) == newY
    {
      if !hasCube {
        return y, value;
      }
      newY := y + deltaY;
      newY := Clamp(newY, 0.0, 2.0);
      newValue := Lerp(-1.0, 1.0, newY / 2.0);
      ValueAtHeightIsLerp(newY);
    }

    method HandleInput(button: MouseButton, hit: CubeHit, mouseAxisY: real, deltaTime: real)
      modifies this
      ensures State() == HandleInputStep(old(State()), setup, button, hit, MouseTravel(mouseAxisY, setup.moveSpeed, deltaTime))
    {
      if button.down {
        if setup.hasLeftCube && hit == LeftCube {
          isDraggingLeft := true;
        } else if setup.hasRightCube && hit == RightCube {
          isDraggingRight := true;
        }
      } else if button.up {
        isDraggingLeft := false;
        isDraggingRight := false;
      }
      if button.held {
        var mouseY := mouseAxisY * setup.moveSpeed * deltaTime;
        if isDraggingLeft {
          leftY, leftValue := MoveCube(setup.hasLeftCube, leftY, leftValue, mouseY);
        } else if isDraggingRight {
          rightY, rightValue := MoveCube(setup.hasRightCube, rightY, rightValue, mouseY);
        }
      }
    }

    method UpdateValues(deltaTime: real)
      modifies this
      ensures State() == UpdateValuesStep(old(State()), setup, deltaTime)
    {
      if !isDraggingLeft {
        leftValue := MoveTowards(leftValue, 0.0, deltaTime);
        if setup.hasLeftCube {
          leftY := Lerp(0.0, 2.0, (leftValue + 1.0) / 2.0);
          HeightForValueIsLerp(leftValue);
        }
      }
      if !isDraggingRight {
        rightValue := MoveTowards(rightValue, 0.0, deltaTime);
        if setup.hasRightCube {
          rightY := Lerp(0.0, 2.0, (rightValue + 1.0) / 2.0);
          HeightForValueIsLerp(rightValue);
        }
      }
    }

    /** One frame; with a non-negative frame time the values stay in [-1,1]
        and assigned cubes keep standing at the height of their value. */
    method Update(button: MouseButton, hit: CubeHit, mouseAxisY: real, deltaTime: real)
      modifies this
      ensures State() == FrameStep(old(State()), setup, button, hit, mouseAxisY, deltaTime)
      ensures deltaTime >= 0.0 && old(State()).Normalized() ==> State().Normalized()
      ensures deltaTime >= 0.0 && old(State()).Normalized() && HeightsAgree(old(State()), setup)
              ==> HeightsAgree(State(), setup)
    {
      ghost var before := State();
      HandleInput(button, hit, mouseAxisY, deltaTime);
      UpdateValues(deltaTime);
      if deltaTime >= 0.0 && before.Normalized() {
        FrameKeepsInvariant(before, setup, button, hit, mouseAxisY, deltaTime);
      }
    }
  }
}
