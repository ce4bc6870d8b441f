/** Rules shared by several input scripts: the two deadzone tests, the strict
    larger-magnitude pick, the "update the cached value only when it changed"
    test, and the per-frame input records. */
module InputRules {
  import opened UnityMathf

  datatype Option<T> = None | Some(value: T)

  /** Left mouse button this frame: GetMouseButtonDown(0), GetMouseButtonUp(0)
      and GetMouseButton(0). */
  datatype MouseButton = MouseButton(down: bool, up: bool, held: bool)

  /** Deadzone as the wheel, G27 and WebSocket handlers apply it: a magnitude
      strictly below the deadzone reads as exactly zero, anything else passes. */
  function ZeroBelowDeadzone(v: real, deadzone: real): (r: real)
    ensures Abs(v) < deadzone ==> r == 0.0
    ensures Abs(v) >= deadzone ==> r == v
  {
    if Abs(v) < deadzone then 0.0 else v
  }

  /** Deadzone as the RX/RY pedal script applies it: only a magnitude strictly
      above the deadzone passes, so a reading of exactly the deadzone is zero. */
  function PassAboveDeadzone(v: real, deadzone: real): (r: real)
    ensures Abs(v) > deadzone ==> r == v
    ensures Abs(v) <= deadzone ==> r == 0.0
  {
    if Abs(v) > deadzone then v else 0.0
  }

  /** `Abs(a) > Abs(b) ? a : b`: the operand of larger magnitude, ties to `b`. */
  function LargerMagnitude(a: real, b: real): (r: real)
    ensures Abs(r) == Max(Abs(a), Abs(b))
    ensures Abs(a) > Abs(b) ==> r == a
    ensures Abs(a) <= Abs(b) ==> r == b
  {
    if Abs(a) > Abs(b) then a else b
  }

  /** A two-pedal throttle: a forward pedal mapped into [0,1] and a reverse
      pedal mapped into [-1,0] both pass the deadzone, and the one of strictly
      larger magnitude wins, ties going to the reverse pedal. */
  function PedalArbitration(forward: real, reverse: real, deadzone: real): (r: real)
    requires 0.0 <= forward <= 1.0 && -1.0 <= reverse <= 0.0
    ensures -1.0 <= r <= 1.0
    ensures r == ZeroBelowDeadzone(forward, deadzone) || r == ZeroBelowDeadzone(reverse, deadzone)
    ensures Abs(r) == Max(Abs(ZeroBelowDeadzone(forward, deadzone)), Abs(ZeroBelowDeadzone(reverse, deadzone)))
    ensures Abs(ZeroBelowDeadzone(forward, deadzone)) <= Abs(ZeroBelowDeadzone(reverse, deadzone))
            ==> r == ZeroBelowDeadzone(reverse, deadzone)
    ensures r > 0.0 ==> r == forward
    ensures r < 0.0 ==> r == reverse
    ensures Abs(forward) < deadzone && Abs(reverse) < deadzone ==> r == 0.0
  {
    LargerMagnitude(ZeroBelowDeadzone(forward, deadzone), ZeroBelowDeadzone(reverse, deadzone))
  }

  /** `if (!Mathf.Approximately(previous, current)) previous = current;`:
      the cached value moves to the current one only on a real change. */
  function Track(previous: real, current: real): (r: real)
    ensures r == previous || r == current
    ensures r != previous ==> r == current && !Approximately(previous, current)
    ensures !Approximately(previous, current) ==> r == current
    ensures Approximately(r, current)
  {
    if !Approximately(previous, current) then current else previous
  }

  /** Tracking the same value twice changes nothing the second time. */
  lemma TrackIdempotent(previous: real, current: real)
    ensures Track(Track(previous, current), current) == Track(previous, current)
  {
  }
}
