/** The behavioural signal window (BehavioralMonitor.kt): a keystroke-interval recorder
    with a pause ceiling, the statistics derived from it, and a leaky-bucket motion
    stability score.

    The sensor plumbing is not modelled: whether a reading deviates from gravity by more
    than 2.0 arrives as `moving`, and the wall clock arrives as `now`. */
module Behavior {

  import opened Wrappers
  import opened Numeric
  import opened TrustScoring

  /** Intervals longer than this are pauses (a field switch), not typing. */
  const PauseCeilingMs := 1500
  /** A pattern is reported once this many intervals are held. */
  const MinIntervalsForPattern := 3
  /** Shakes closer together than this count once. */
  const ShakeRefractoryMs := 500
  const ShakePenalty := 5
  const MaxStability := 100

  datatype Rhythm = NoData | Fast | Normal | Slow

  datatype TypingPatternData = TypingPatternData(avgInterval: int, variance: real, pressures: seq<real>,
                                                 rhythmType: Rhythm, keystrokeCount: nat)

  // ---------------------------------------------------------------- statistics

  /** `map { it.toDouble() }` */
  function AsReals(timings: seq<int>): (r: seq<real>)
    ensures |r| == |timings|
    ensures forall i :: 0 <= i < |timings| ==> r[i] == timings[i] as real
  {
    seq(|timings|, i requires 0 <= i < |timings| => timings[i] as real)
  }

  function SquaredDeviations(values: seq<real>, mean: real): (r: seq<real>)
    ensures |r| == |values|
    ensures forall i :: 0 <= i < |values| ==> r[i] == (values[i] - mean) * (values[i] - mean)
  {
    seq(|values|, i requires 0 <= i < |values| => (values[i] - mean) * (values[i] - mean))
  }

  /** calculateVariance: the population variance, 0 for no values. */
  function CalculateVariance(values: seq<real>): (r: real)
    ensures |values| == 0 ==> r == 0.0
  {
    if |values| == 0 then 0.0 else Mean(SquaredDeviations(values, Mean(values)))
  }

  /** The rhythm tier of a mean interval. */
  function RhythmOf(avgInterval: int): (r: Rhythm)
    ensures r == Fast <==> avgInterval < 150
    ensures r == Normal <==> 150 <= avgInterval < 300
    ensures r == Slow <==> avgInterval >= 300
  {
    if avgInterval < 150 then Fast else if avgInterval < 300 then Normal else Slow
  }

  /** getCurrentTypingPattern over the recorded intervals. */
  function CurrentTypingPattern(timings: seq<int>): (p: TypingPatternData)
    ensures |timings| == 0 ==> p == TypingPatternData(0, 0.0, [], NoData, 0)
    ensures p.keystrokeCount == |timings| && p.pressures == []
    ensures |timings| > 0 ==> p.avgInterval == TruncReal(Mean(AsReals(timings)))
    ensures |timings| > 0 ==> p.rhythmType == RhythmOf(p.avgInterval)
    ensures p.variance == CalculateVariance(AsReals(timings))
  {
    if |timings| == 0 then TypingPatternData(0, 0.0, [], NoData, 0)
    else
      var avgInterval := TruncReal(Mean(AsReals(timings)));
      TypingPatternData(avgInterval, CalculateVariance(AsReals(timings)), [], RhythmOf(avgInterval), |timings|)
  }

  /** convertToTypingPattern: the engine's view of the current pattern. */
  function ConvertToTypingPattern(timings: seq<int>): (p: TypingPattern)
    ensures p.avgKeyInterval == CurrentTypingPattern(timings).avgInterval
    ensures p.variance == CurrentTypingPattern(timings).variance
    ensures p.pressureLevels == []
  {
    var data := CurrentTypingPattern(timings);
    TypingPattern(data.avgInterval, data.variance, data.pressures)
  }

  lemma PositiveSquare(y: real)
    requires y > 0.0
    ensures y * y > 0.0
  {
    assert y * y > 0.0 * y;
  }

  lemma SquareNonNegative(x: real)
    ensures x * x >= 0.0
  {
    if x > 0.0 {
      PositiveSquare(x);
    } else if x < 0.0 {
      var y := -x;
      PositiveSquare(y);
      assert x * x == y * y;
    }
  }

  /** The variance is never negative. */
  lemma VarianceNonNegative(values: seq<real>)
    ensures CalculateVariance(values) >= 0.0
  {
    if |values| > 0 {
      var sq := SquaredDeviations(values, Mean(values));
      forall i | 0 <= i < |sq| ensures 0.0 <= sq[i] {
        SquareNonNegative(values[i] - Mean(values));
      }
      SumZeroIffAllZero(sq);
      assert Mean(sq) == Sum(sq) / (|sq| as real);
    }
  }

  /** Equal intervals (a perfectly regular rhythm) have no variance. */
  lemma ConstantHasNoVariance(values: seq<real>)
    requires forall i, j :: 0 <= i < |values| && 0 <= j < |values| ==> values[i] == values[j]
    ensures CalculateVariance(values) == 0.0
  {
    if |values| > 0 {
      MeanOfConstant(values, values[0]);
      var sq := SquaredDeviations(values, values[0]);
      MeanOfConstant(sq, 0.0);
    }
  }

  /** The truncated mean of intervals between two bounds lies between them. */
  lemma AverageWithinBounds(timings: seq<int>, lo: int, hi: int)
    requires |timings| > 0
    requires forall i :: 0 <= i < |timings| ==> lo <= timings[i] <= hi
    ensures lo <= CurrentTypingPattern(timings).avgInterval <= hi
  {
    var v := AsReals(timings);
    MeanBounds(v, lo as real, hi as real);
  }

  /** The truncated mean of intervals none above `hi` is at most `hi`. */
  lemma AverageAtMost(timings: seq<int>, hi: int)
    requires |timings| > 0
    requires forall i :: 0 <= i < |timings| ==> timings[i] <= hi
    ensures CurrentTypingPattern(timings).avgInterval <= hi
  {
    var v := AsReals(timings);
    MeanAtMost(v, hi as real);
  }

  /** Three intervals of 100, 200 and 300 ms: mean 200, variance 20000/3, a normal rhythm. */
  lemma ThreeKeystrokeExample()
    ensures CurrentTypingPattern([100, 200, 300]) == TypingPatternData(200, 20000.0 / 3.0, [], Normal, 3)
  {
    var v := AsReals([100, 200, 300]);
    assert v == [100.0, 200.0, 300.0];
    assert Sum(v) == 100.0 + Sum([200.0, 300.0]);
    assert Sum([200.0, 300.0]) == 200.0 + Sum([300.0]);
    assert Sum([300.0]) == 300.0 + Sum([]);
    assert Mean(v) == 200.0;
    var sq := SquaredDeviations(v, 200.0);
    assert sq == [10000.0, 0.0, 10000.0];
    assert Sum(sq) == 10000.0 + Sum([0.0, 10000.0]);
    assert Sum([0.0, 10000.0]) == 0.0 + Sum([10000.0]);
    assert Sum([10000.0]) == 10000.0 + Sum([]);
  }

  /** Patterns from the monitor carry no pressure samples, so the engine compares them
      with confidence 60. */
  lemma MonitorPatternConfidence(timings: seq<int>, baseline: TypingPattern)
    requires NonDegenerate(baseline)
    ensures AnalyzeTypingPattern(ConvertToTypingPattern(timings), baseline).confidence == 60
  {
  }

  // ---------------------------------------------------------------- stability

  /** A still reading: one point back, up to 100. */
  function StillStep(score: int): (r: int)
    ensures score <= MaxStability ==> r == Min(score + 1, MaxStability)
    ensures 0 <= score <= MaxStability ==> score <= r <= MaxStability
  {
    if score < MaxStability then score + 1 else score
  }

  /** An admitted shake: five points off, floored at 0. */
  function ShakeStep(score: int): (r: int)
    ensures 0 <= score ==> 0 <= r <= score
    ensures score >= ShakePenalty ==> score - r == ShakePenalty
    ensures score < ShakePenalty ==> r == 0
  {
    if score - ShakePenalty >= 0 then score - ShakePenalty else 0
  }

  function AfterStill(score: int, n: nat): int
  {
    if n == 0 then score else StillStep(AfterStill(score, n - 1))
  }

  function AfterShakes(score: int, n: nat): int
  {
    if n == 0 then score else ShakeStep(AfterShakes(score, n - 1))
  }

  /** n still readings recover n points, up to 100. */
  lemma {:induction false} StillRecovers(score: int, n: nat)
    requires 0 <= score <= MaxStability
    ensures AfterStill(score, n) == Min(score + n, MaxStability)
  {
    if n > 0 {
      StillRecovers(score, n - 1);
    }
  }

  /** n admitted shakes cost 5 points each, down to 0. */
  lemma {:induction false} ShakesDrain(score: int, n: nat)
    requires 0 <= score
    ensures AfterShakes(score, n) == (if score - ShakePenalty * n >= 0 then score - ShakePenalty * n else 0)
  {
    if n > 0 {
      ShakesDrain(score, n - 1);
    }
  }

  // ---------------------------------------------------------------- the monitor

  class BehavioralMonitor {
    var shakeCount: int
    var lastShakeTime: int
    var deviceStabilityScore: int
    var keystrokeTimings: seq<int>
    var lastKeyPressTime: int
    var textLength: int

    /** The stability score is a percentage and only typing intervals are recorded. */
    ghost predicate Valid()
      reads this
    {
      && 0 <= deviceStabilityScore <= MaxStability
      && (forall i :: 0 <= i < |keystrokeTimings| ==> keystrokeTimings[i] <= PauseCeilingMs)
    }

    constructor ()
      ensures Valid()
      ensures shakeCount == 0 && lastShakeTime == 0 && deviceStabilityScore == MaxStability
      ensures keystrokeTimings == [] && lastKeyPressTime == 0 && textLength == 0
    {
      shakeCount := 0;
      lastShakeTime := 0;
      deviceStabilityScore := MaxStability;
      keystrokeTimings := [];
      lastKeyPressTime := 0;
      textLength := 0;
    }

    /** The stability branch of onSensorChanged. */
    method OnSensorChanged(moving: bool, now: int)
      requires Valid()
      modifies this
      ensures Valid()
      ensures moving && now - old(lastShakeTime) > ShakeRefractoryMs ==>
        && shakeCount == old(shakeCount) + 1 && lastShakeTime == now
        && deviceStabilityScore == ShakeStep(old(deviceStabilityScore))
      ensures moving && now - old(lastShakeTime) <= ShakeRefractoryMs ==>
        && shakeCount == old(shakeCount) && lastShakeTime == old(lastShakeTime)
        && deviceStabilityScore == old(deviceStabilityScore)
      ensures !moving ==>
        && shakeCount == old(shakeCount) && lastShakeTime == old(lastShakeTime)
        && deviceStabilityScore == StillStep(old(deviceStabilityScore))
      ensures keystrokeTimings == old(keystrokeTimings) && lastKeyPressTime == old(lastKeyPressTime)
      ensures textLength == old(textLength)
    {
      if moving {
        if now - lastShakeTime > ShakeRefractoryMs {
          shakeCount := shakeCount + 1;
          lastShakeTime := now;
          deviceStabilityScore := if deviceStabilityScore - ShakePenalty >= 0 then deviceStabilityScore - ShakePenalty else 0;
        }
      } else {
        if deviceStabilityScore < MaxStability {
          deviceStabilityScore := deviceStabilityScore + 1;
        }
      }
    }

    /** onTextChanged: records the interval since the previous keystroke when the text
        grew, and reports the current pattern once enough intervals are held. */
    method OnTextChanged(newLength: nat, now: int) returns (pattern: Option<TypingPatternData>)
      requires Valid()
      modifies this
      ensures Valid()
      ensures textLength == newLength
      ensures newLength <= old(textLength) ==>
        keystrokeTimings == old(keystrokeTimings) && lastKeyPressTime == old(lastKeyPressTime)
      ensures newLength > old(textLength) ==> lastKeyPressTime == now
      ensures newLength > old(textLength) && old(lastKeyPressTime) == 0 ==> keystrokeTimings == old(keystrokeTimings)
      ensures newLength > old(textLength) && old(lastKeyPressTime) != 0 ==>
        keystrokeTimings == old(keystrokeTimings)
          + (if now - old(lastKeyPressTime) <= PauseCeilingMs then [now - old(lastKeyPressTime)] else [])
      ensures pattern.Some? <==>
        newLength > old(textLength) && old(lastKeyPressTime) != 0 && |keystrokeTimings| >= MinIntervalsForPattern
      ensures pattern.Some? ==> pattern.value == CurrentTypingPattern(keystrokeTimings)
      ensures shakeCount == old(shakeCount) && lastShakeTime == old(lastShakeTime)
      ensures deviceStabilityScore == old(deviceStabilityScore)
    {
      if newLength > textLength {
        if lastKeyPressTime != 0 {
          var interval := now - lastKeyPressTime;
          if interval <= PauseCeilingMs {
            keystrokeTimings := keystrokeTimings + [interval];
          }
          if |keystrokeTimings| >= MinIntervalsForPattern {
            textLength := newLength;
            lastKeyPressTime := now;
            return Some(CurrentTypingPattern(keystrokeTimings));
          }
        }
        lastKeyPressTime := now;
      }
      textLength := newLength;
      return None;
    }

    /** reset: forgets the typing, keeps the motion state. */
    method Reset()
      requires Valid()
      modifies this
      ensures Valid()
      ensures keystrokeTimings == [] && lastKeyPressTime == 0 && textLength == 0
      ensures shakeCount == old(shakeCount) && lastShakeTime == old(lastShakeTime)
      ensures deviceStabilityScore == old(deviceStabilityScore)
    {
      keystrokeTimings := [];
      lastKeyPressTime := 0;
      textLength := 0;
    }
  }

  /** Every reported pattern summarises at least three intervals, none above the pause
      ceiling, so its mean is at most 1500 ms. */
  lemma ReportedPatternBounds(timings: seq<int>)
    requires |timings| >= MinIntervalsForPattern
    requires forall i :: 0 <= i < |timings| ==> timings[i] <= PauseCeilingMs
    ensures CurrentTypingPattern(timings).keystrokeCount >= MinIntervalsForPattern
    ensures CurrentTypingPattern(timings).avgInterval <= PauseCeilingMs
  {
    AverageAtMost(timings, PauseCeilingMs);
  }
}
