/** The reader of the two-cube values (Assets/Scripts/TwoCubeReader.cs):
    each cube value in [-1,1] is mapped onto [0,1], and the last reported
    pair is refreshed, both values together, only when either mapped value
    has moved by more than the log threshold. */
module TwoCubeReading {
  import opened UnityMathf

  /** A cube value mapped from [-1,1] onto [0,1]. */
  function MappedValue(raw: real): (r: real)
    ensures 0.0 <= r <= 1.0
    ensures -1.0 <= raw <= 1.0 ==> r == (raw + 1.0) / 2.0
    ensures raw <= -1.0 ==> r == 0.0
    ensures raw >= 1.0 ==> r == 1.0
  {
    InverseLerp(-1.0, 1.0, raw)
  }

  /** The ends and the centre of the cube range. */
  lemma MappedLandmarks()
    ensures MappedValue(-1.0) == 0.0 && MappedValue(0.0) == 0.5 && MappedValue(1.0) == 1.0
  {
  }

  /** Larger cube values never map lower. */
  lemma MappedMonotonic(a: real, b: real)
    requires a <= b
    ensures MappedValue(a) <= MappedValue(b)
  {
  }

  datatype ReaderState = ReaderState(
    lastLeftValue: real,
    lastRightValue: real,
    mappedLeftValue: real,
    mappedRightValue: real)

  /** Whether either mapped value moved from its last value by more than the threshold. */
  predicate Moved(s: ReaderState, mappedLeft: real, mappedRight: real, logThreshold: real)
  {
    Abs(mappedLeft - s.lastLeftValue) > logThreshold || Abs(mappedRight - s.lastRightValue) > logThreshold
  }

  /** Update as a function of the state before it and the two cube values. */
  function ReaderStep(s: ReaderState, rawLeft: real, rawRight: real, logThreshold: real): ReaderState
  {
    var left := MappedValue(rawLeft);
    var right := MappedValue(rawRight);
    if Moved(s, left, right, logThreshold) then ReaderState(left, right, left, right)
    else s.(mappedLeftValue := left, mappedRightValue := right)
  }

  /** Start with a controller: the last values are taken from the raw,
      unmapped cube values. */
  function StartStep(s: ReaderState, rawLeft: real, rawRight: real): (t: ReaderState)
    ensures t.lastLeftValue == rawLeft && t.lastRightValue == rawRight
    ensures t.mappedLeftValue == s.mappedLeftValue && t.mappedRightValue == s.mappedRightValue
  {
    s.(lastLeftValue := rawLeft, lastRightValue := rawRight)
  }

  /** A frame always refreshes the mapped values; the last values are both
      replaced by the mapped ones exactly when either moved by more than the
      threshold, and both kept otherwise. */
  lemma StepResetsBothOrNeither(s: ReaderState, rawLeft: real, rawRight: real, logThreshold: real)
    ensures var t := ReaderStep(s, rawLeft, rawRight, logThreshold);
      t.mappedLeftValue == MappedValue(rawLeft) && t.mappedRightValue == MappedValue(rawRight) &&
      (Moved(s, MappedValue(rawLeft), MappedValue(rawRight), logThreshold) ==>
         t.lastLeftValue == t.mappedLeftValue && t.lastRightValue == t.mappedRightValue) &&
      (!Moved(s, MappedValue(rawLeft), MappedValue(rawRight), logThreshold) ==>
         t.lastLeftValue == s.lastLeftValue && t.lastRightValue == s.lastRightValue)
  {
  }

  /** A last value changes only when some mapped value moved by more than
      the threshold: a change of one side within the threshold is never
      recorded unless the other side moved. */
  lemma LastValuesChangeOnlyPastThreshold(s: ReaderState, rawLeft: real, rawRight: real, logThreshold: real)
    requires Abs(MappedValue(rawLeft) - s.lastLeftValue) <= logThreshold
    requires Abs(MappedValue(rawRight) - s.lastRightValue) <= logThreshold
    ensures ReaderStep(s, rawLeft, rawRight, logThreshold).lastLeftValue == s.lastLeftValue
    ensures ReaderStep(s, rawLeft, rawRight, logThreshold).lastRightValue == s.lastRightValue
  {
  }

  /** The threshold bounds the lag: after any frame with a non-negative
      threshold each reported value is within the threshold of the mapped
      value, and with a zero threshold it equals it. */
  lemma LastValuesTrailWithinThreshold(s: ReaderState, rawLeft: real, rawRight: real, logThreshold: real)
    requires logThreshold >= 0.0
    ensures var t := ReaderStep(s, rawLeft, rawRight, logThreshold);
      Abs(t.mappedLeftValue - t.lastLeftValue) <= logThreshold &&
      Abs(t.mappedRightValue - t.lastRightValue) <= logThreshold &&
      (logThreshold == 0.0 ==> t.lastLeftValue == t.mappedLeftValue && t.lastRightValue == t.mappedRightValue)
  {
  }

  /** A second frame with the same cube values changes nothing. */
  lemma RepeatedFrameIsStable(s: ReaderState, rawLeft: real, rawRight: real, logThreshold: real)
    requires logThreshold >= 0.0
    ensures var t := ReaderStep(s, rawLeft, rawRight, logThreshold);
      ReaderStep(t, rawLeft, rawRight, logThreshold) == t
  {
    LastValuesTrailWithinThreshold(s, rawLeft, rawRight, logThreshold);
  }

  /** Start stores raw values where Update compares mapped ones: on the cube
      range the stored value equals the mapped one only at the top, 1. */
  lemma StartValueMatchesMappedOnlyAtTop(raw: real)
    requires -1.0 <= raw <= 1.0
    ensures MappedValue(raw) == raw <==> raw == 1.0
  {
  }

  /** Hence a first frame after Start with the cubes at rest in the centre
      (value 0, mapped 0.5) is reported whenever the threshold is below 0.5. */
  lemma CentredStartIsReportedAtOnce(s: ReaderState, logThreshold: real)
    requires logThreshold < 0.5
    ensures var t := ReaderStep(StartStep(s, 0.0, 0.0), 0.0, 0.0, logThreshold);
      t.lastLeftValue == 0.5 && t.lastRightValue == 0.5
  {
    MappedLandmarks();
  }

  /** The component. */
  class TwoCubeReader {
    const controllerPresent: bool
    const logThreshold: real
    var enabled: bool
    var lastLeftValue: real
    var lastRightValue: real
    var mappedLeftValue: real
    var mappedRightValue: real

    function State(): ReaderState
      reads this
    {
      ReaderState(lastLeftValue, lastRightValue, mappedLeftValue, mappedRightValue)
    }

    constructor (controllerPresent: bool, logThreshold: real)
      ensures this.controllerPresent == controllerPresent && this.logThreshold == logThreshold
      ensures enabled
      ensures State() == ReaderState(0.0, 0.0, 0.0, 0.0)
    {
      this.controllerPresent := controllerPresent;
      this.logThreshold := logThreshold;
      enabled := true;
      lastLeftValue := 0.0;
      lastRightValue := 0.0;
      mappedLeftValue := 0.0;
      mappedRightValue := 0.0;
    }

    /** Start, given the controller's current values: without a controller
        the component disables itself and keeps its state. */
    method Start(rawLeft: real, rawRight: real)
      modifies this
      ensures enabled == (old(enabled) && controllerPresent)
      ensures controllerPresent ==> State() == StartStep(old(State()), rawLeft, rawRight)
      ensures !controllerPresent ==> State() == old(State())
    {
      if !controllerPresent {
        enabled := false;
        return;
      }
      lastLeftValue := rawLeft;
      lastRightValue := rawRight;
    }

    /** One frame, given the controller's current values. A disabled
        component gets no frames; an enabled one has a controller. */
    method Update(rawLeft: real, rawRight: real)
      requires enabled ==> controllerPresent
      modifies this
      ensures enabled == old(enabled)
      ensures enabled ==> State() == ReaderStep(old(State()), rawLeft, rawRight, logThreshold)
      ensures !enabled ==> State() == old(State())
    {
      if !enabled {
        return;
      }
      mappedLeftValue := InverseLerp(-1.0, 1.0, rawLeft);
      mappedRightValue := InverseLerp(-1.0, 1.0, rawRight);
      if Abs(mappedLeftValue - lastLeftValue) > logThreshold || Abs(mappedRightValue - lastRightValue) > logThreshold {
        lastLeftValue := mappedLeftValue;
        lastRightValue := mappedRightValue;
      }
    }
  }
}
