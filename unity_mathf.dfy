/** The handful of UnityEngine.Mathf helpers the input scripts use, over reals,
    with the semantics Unity documents for them. */
module UnityMathf {

  function Abs(x: real): (r: real)
    ensures r >= 0.0
    ensures r == x || r == -x
  {
    if x < 0.0 then -x else x
  }

  /** Mathf.Max(a, b) is `a > b ? a : b`. */
  function Max(a: real, b: real): (r: real)
    ensures r >= a && r >= b
    ensures r == a || r == b
  {
    if a > b then a else b
  }

  /** Mathf.Sign: 1 for zero and positive numbers, -1 otherwise. */
  function Sign(x: real): (r: real)
    ensures r == 1.0 || r == -1.0
    ensures r == 1.0 <==> x >= 0.0
  {
    if x >= 0.0 then 1.0 else -1.0
  }

  /** Mathf.Clamp(value, min, max): below min gives min, else above max gives max. */
  function Clamp(value: real, min: real, max: real): (r: real)
    ensures min <= max ==> min <= r <= max
    ensures min <= value <= max ==> r == value
    ensures value < min ==> r == min
    ensures min <= value && max < value ==> r == max
  {
    if value < min then min else if value > max then max else value
  }

  function Clamp01(value: real): (r: real)
    ensures 0.0 <= r <= 1.0
    ensures 0.0 <= value <= 1.0 ==> r == value
    ensures value <= 0.0 ==> r == 0.0
    ensures value >= 1.0 ==> r == 1.0
  {
    if value < 0.0 then 0.0 else if value > 1.0 then 1.0 else value
  }

  /** Mathf.InverseLerp: where `value` lies between `a` and `b`, clamped to [0,1];
      0 when the interval is empty. */
  function InverseLerp(a: real, b: real, value: real): (r: real)
    ensures 0.0 <= r <= 1.0
    ensures a != b && value == a ==> r == 0.0
    ensures a != b && value == b ==> r == 1.0
    ensures a == b ==> r == 0.0
  {
    if a != b then
      DivideBySelf(b - a);
      assert value == b ==> (value - a) / (b - a) == 1.0;
      Clamp01((value - a) / (b - a))
    else 0.0
  }

  lemma DivideBySelf(d: real)
    requires d != 0.0
    ensures d / d == 1.0
  {
  }

  /** The product of two non-negative numbers is non-negative. */
  lemma ProductNonNegative(x: real, y: real)
    requires x >= 0.0 && y >= 0.0
    ensures x * y >= 0.0
  {
  }

  /** Mathf.Lerp with its interpolant clamped to [0,1]. */
  function Lerp(a: real, b: real, t: real): (r: real)
    ensures a <= b ==> a <= r <= b
    ensures b <= a ==> b <= r <= a
    ensures t <= 0.0 ==> r == a
    ensures t >= 1.0 ==> r == b
  {
    var u := Clamp01(t);
    var span := b - a;
    ScaleWithinRange(span, u);
    a + span * u
  }

  /** u of the way along a span stays inside the span, whatever its sign. */
  lemma ScaleWithinRange(d: real, u: real)
    requires 0.0 <= u <= 1.0
    ensures d >= 0.0 ==> 0.0 <= d * u <= d
    ensures d <= 0.0 ==> d <= d * u <= 0.0
    ensures u == 0.0 ==> d * u == 0.0
    ensures u == 1.0 ==> d * u == d
  {
    if d >= 0.0 {
      ProductNonNegative(d, 1.0 - u);
      ProductNonNegative(d, u);
    } else {
      ProductNonNegative(-d, 1.0 - u);
      ProductNonNegative(-d, u);
    }
  }

  /** Mathf.MoveTowards: steps from `current` towards `target` by at most `maxDelta`,
      landing exactly on `target` when it is within reach. Unity adds
      `Sign(target - current) * maxDelta`; the two branches below are that
      sum for Sign = 1 and Sign = -1. */
  function MoveTowards(current: real, target: real, maxDelta: real): (r: real)
    ensures Abs(target - current) <= maxDelta ==> r == target
    ensures maxDelta >= 0.0 ==> Abs(r - current) <= maxDelta
    ensures maxDelta >= 0.0 && current <= target ==> current <= r <= target
    ensures maxDelta >= 0.0 && target <= current ==> target <= r <= current
  {
    if Abs(target - current) <= maxDelta then target
    else if Sign(target - current) == 1.0 then current + maxDelta
    else current - maxDelta
  }

  /** Stepping towards 0 shortens the distance to 0 by exactly the step,
      down to 0 and no further. */
  lemma MoveTowardsZero(current: real, maxDelta: real)
    requires maxDelta >= 0.0
    ensures Abs(MoveTowards(current, 0.0, maxDelta)) == Max(Abs(current) - maxDelta, 0.0)
  {
  }

  /** Mathf.Epsilon on platforms without flush-to-zero: the smallest positive
      denormal single-precision float. */
  const FloatEpsilon: real := 1.401298e-45

  /** Mathf.Approximately: a relative tolerance of one millionth of the larger
      magnitude, but never less than eight Epsilons. */
  predicate Approximately(a: real, b: real)
  {
    Abs(b - a) < Max(0.000001 * Max(Abs(a), Abs(b)), FloatEpsilon * 8.0)
  }

  /** Equal values are approximately equal, values further apart than the
      tolerance bound are not, and the relation is symmetric. */
  lemma ApproximatelyFacts(a: real, b: real)
    ensures a == b ==> Approximately(a, b)
    ensures Approximately(a, b) == Approximately(b, a)
    ensures Approximately(a, b) ==> Abs(b - a) < 0.000001 * (Abs(a) + Abs(b)) + 8.0 * FloatEpsilon
  {
  }
}
