/**
 * The share of the whole [0, 1] timeline each of the three phases takes.
 */
module Durations {
  import opened Geometry

  /** Phase one's length divisor, `phaseOneRatio`. */
  const PhaseOneRatio: real := 3.0

  /**
   * Phase one ("unfurl"): a third of the shortest vertex length, rescaled so
   * that half the timeline is shared out in proportion to the longest length.
   */
  function PhaseOneDuration(endPath: EndPath): (d: real)
    requires endPath.parameters.minLength != 0.0 && endPath.parameters.maxLength != 0.0
    ensures d == endPath.parameters.minLength / (6.0 * endPath.parameters.maxLength)
    ensures 0.0 < endPath.parameters.minLength <= endPath.parameters.maxLength ==> 0.0 < d <= 1.0 / 6.0
  {
    var minLength := endPath.parameters.minLength;
    var maxLength := endPath.parameters.maxLength;
    var duration := minLength / PhaseOneRatio;
    0.5 / (maxLength / duration)
  }

  /** Phase two ("extend"): whatever phase one left of the first half. */
  function PhaseTwoDuration(prevDurations: seq<real>): (d: real)
    requires |prevDurations| >= 1
    ensures prevDurations[0] + d == 0.5
  {
    0.5 - prevDurations[0]
  }

  /** Phase three ("settle"): the second half of the timeline, whatever phases one and two took of the first. */
  function PhaseThreeDuration(): (d: real)
    ensures forall prevDurations: seq<real> :: |prevDurations| >= 1 ==>
      prevDurations[0] + PhaseTwoDuration(prevDurations) + d == 1.0
  {
    0.5
  }

  /** The three durations fill the timeline exactly, phase two never negative. */
  lemma DurationsFillTimeline(endPath: EndPath)
    requires 0.0 < endPath.parameters.minLength <= endPath.parameters.maxLength
    ensures var d1 := PhaseOneDuration(endPath);
      && d1 + PhaseTwoDuration([d1]) + PhaseThreeDuration() == 1.0
      && 1.0 / 3.0 <= PhaseTwoDuration([d1]) < 0.5
  {
  }

  /** Lengths 60 and 200 give durations 0.05, 0.45 and 0.5. */
  lemma WorkedExample()
    ensures var path := EndPath([], PathParameters(60.0, 200.0, []));
      && PhaseOneDuration(path) == 0.05
      && PhaseTwoDuration([PhaseOneDuration(path)]) == 0.45
  {
  }
}
