/**
 * A phase record and the order the three phases run in. The scheduler that
 * consumes the records belongs to the contour library; `ChainPhases` runs
 * just the parts of it this model can see: it evaluates each phase's duration
 * and progression rules in order, handing every phase the durations before it
 * and the previous phase's general-scope array.
 */
module Schedule {
  import opened Geometry
  import opened Durations
  import opened Progressions
  import opened GroupRules

  /** Which duration function a phase carries. */
  datatype DurationRule =
    | UnfurlDuration    // phaseOneDuration
    | RemainderOfHalf   // 0.5 - prevDurations[0]
    | FixedHalf         // 0.5

  /** Which pair of progression builders a phase carries. */
  datatype ProgressionRule =
    | UniformProgressions        // phase one's fill builders
    | LengthWeightedProgressions // phase two's push builders
    | AnchorDrivenProgressions   // phase three's sweep builders

  /** One phase: its duration rule, its progression builders and one profile per vertex group. */
  datatype Phase = Phase(duration: DurationRule, progressions: ProgressionRule, groupsParameters: seq<GroupProfile>)

  /** Unfurl, extend, settle: the three phases in the order they are handed over. */
  predicate FollowsSchedule(phases: seq<Phase>)
  {
    && |phases| == 3
    && phases[0].duration == UnfurlDuration && phases[0].progressions == UniformProgressions
    && phases[1].duration == RemainderOfHalf && phases[1].progressions == LengthWeightedProgressions
    && phases[2].duration == FixedHalf && phases[2].progressions == AnchorDrivenProgressions
  }

  predicate DurationDefined(rule: DurationRule, endPath: EndPath, prevDurations: seq<real>)
  {
    match rule
    case UnfurlDuration => endPath.parameters.minLength != 0.0 && endPath.parameters.maxLength != 0.0
    case RemainderOfHalf => |prevDurations| >= 1
    case FixedHalf => true
  }

  function EvalDuration(rule: DurationRule, endPath: EndPath, prevDurations: seq<real>): real
    requires DurationDefined(rule, endPath, prevDurations)
  {
    match rule
    case UnfurlDuration => PhaseOneDuration(endPath)
    case RemainderOfHalf => PhaseTwoDuration(prevDurations)
    case FixedHalf => PhaseThreeDuration()
  }

  predicate ProgressionsDefined(rule: ProgressionRule, endPath: EndPath, prevPhaseProgressions: seq<real>)
  {
    var vs := endPath.vertexes;
    match rule
    case UniformProgressions => true
    case LengthWeightedProgressions =>
      NonZeroLengths(vs) && endPath.parameters.maxLength != 0.0 && |vs| <= |prevPhaseProgressions|
    case AnchorDrivenProgressions =>
      && AnchorsHaveNeighbours(vs) && NonZeroLengths(vs)
      && |endPath.parameters.maxLengthByGroup| > 1 && endPath.parameters.maxLengthByGroup[1] != 0.0
      && |vs| <= |prevPhaseProgressions|
  }

  /** Runs a phase's two progression builders. */
  method ApplyProgressions(rule: ProgressionRule, endPath: EndPath, duration: real, prevPhaseProgressions: seq<real>)
    returns (phaseScope: seq<real>, generalScope: seq<real>)
    requires ProgressionsDefined(rule, endPath, prevPhaseProgressions)
    ensures |phaseScope| == |endPath.vertexes| == |generalScope|
    ensures rule == UniformProgressions ==>
      forall k :: 0 <= k < |endPath.vertexes| ==> phaseScope[k] == 1.0 && generalScope[k] == duration
    ensures rule == LengthWeightedProgressions ==>
      && phaseScope == PhaseScopeValues(endPath.vertexes, endPath.parameters.maxLength)
      && generalScope == GeneralScopeValues(endPath.vertexes, endPath.parameters.maxLength, duration, prevPhaseProgressions)
    ensures rule == AnchorDrivenProgressions ==>
      var reference := endPath.parameters.maxLengthByGroup[1];
      && phaseScope == Settled(endPath.vertexes, PhaseScopeValues(endPath.vertexes, reference))
      && generalScope == Settled(endPath.vertexes, GeneralScopeValues(endPath.vertexes, reference, duration, prevPhaseProgressions))
  {
    match rule
    case UniformProgressions =>
      phaseScope := PhaseOnePhaseScope(endPath);
      generalScope := PhaseOneGeneralScope(endPath, duration);
    case LengthWeightedProgressions =>
      phaseScope := PhaseTwoPhaseScope(endPath);
      generalScope := PhaseTwoGeneralScope(endPath, duration, prevPhaseProgressions);
    case AnchorDrivenProgressions =>
      phaseScope := PhaseThreePhaseScope(endPath);
      generalScope := PhaseThreeGeneralScope(endPath, duration, prevPhaseProgressions);
  }

  /** The three durations, in order. */
  function ScheduleDurations(endPath: EndPath): seq<real>
    requires endPath.parameters.minLength != 0.0 && endPath.parameters.maxLength != 0.0
  {
    var d1 := PhaseOneDuration(endPath);
    [d1, PhaseTwoDuration([d1]), PhaseThreeDuration()]
  }

  /** The general-scope arrays of the three phases, each built on the one before. */
  function GeneralScopeChain(endPath: EndPath): seq<seq<real>>
    requires WellFormed(endPath)
  {
    WellFormedLengths(endPath);
    var vs := endPath.vertexes;
    var ds := ScheduleDurations(endPath);
    var g1 := seq(|vs|, _ => ds[0]);
    var g2 := GeneralScopeValues(vs, endPath.parameters.maxLength, ds[1], g1);
    var g3 := Settled(vs, GeneralScopeValues(vs, endPath.parameters.maxLengthByGroup[1], ds[2], g2));
    [g1, g2, g3]
  }

  /** The phase-scope arrays of the three phases. */
  function PhaseScopeChain(endPath: EndPath): seq<seq<real>>
    requires WellFormed(endPath)
  {
    WellFormedLengths(endPath);
    var vs := endPath.vertexes;
    [ seq(|vs|, _ => 1.0),
      PhaseScopeValues(vs, endPath.parameters.maxLength),
      Settled(vs, PhaseScopeValues(vs, endPath.parameters.maxLengthByGroup[1])) ]
  }

  /**
   * The durations fill the timeline, and every ordinary vertex moves forward
   * on the timeline from phase to phase. Phases one and two keep every vertex
   * within (0, 1]; phase three does so for the vertexes of group 1, which
   * `maxLengthByGroup[1]` bounds.
   */
  lemma ChainProgresses(endPath: EndPath)
    requires WellFormed(endPath)
    ensures var ds := ScheduleDurations(endPath);
      && |ds| == 3 && ds[0] + ds[1] + ds[2] == 1.0
      && 0.0 < ds[0] <= 1.0 / 6.0 && 0.0 <= ds[1]
    ensures var vs, g, ph := endPath.vertexes, GeneralScopeChain(endPath), PhaseScopeChain(endPath);
      forall k :: 0 <= k < |vs| ==>
        && 0.0 < g[0][k] <= g[1][k] <= 0.5
        && 0.0 < ph[0][k] <= 1.0 && 0.0 < ph[1][k] <= 1.0
        && (vs[k].group != 0 ==> g[1][k] <= g[2][k] && 0.0 < ph[2][k])
        && (vs[k].group == 1 ==> g[2][k] <= 1.0 && ph[2][k] <= 1.0)
  {
    WellFormedLengths(endPath);
    var vs := endPath.vertexes;
    var ds := ScheduleDurations(endPath);
    var g := GeneralScopeChain(endPath);
    DurationsFillTimeline(endPath);
    GeneralScopeCarriesForward(vs, endPath.parameters.maxLength, ds[1], g[0]);
    PhaseScopeInUnitInterval(vs, endPath.parameters.maxLength);
    forall k | 0 <= k < |vs| && vs[k].group != 0
      ensures g[1][k] <= g[2][k] && 0.0 < PhaseScopeChain(endPath)[2][k]
      ensures vs[k].group == 1 ==> g[2][k] <= 1.0 && PhaseScopeChain(endPath)[2][k] <= 1.0
    {
      PhaseThreeOrdinaryVertex(vs, endPath.parameters.maxLengthByGroup[1], ds[2], g[1], k);
    }
  }

  /**
   * An anchor is not guaranteed the same: here anchor 0, a hundred times as
   * long as its neighbours, ends phase three behind where it ended phase two.
   */
  lemma AnchorMayFallBack()
    ensures var path := EndPath(
        [Vertex(0, 0, 100.0), Vertex(1, 1, 1.0), Vertex(2, 1, 100.0), Vertex(3, 1, 1.0), Vertex(4, 0, 100.0)],
        PathParameters(1.0, 100.0, [100.0, 100.0]));
      && WellFormed(path)
      && GeneralScopeChain(path)[2][0] < GeneralScopeChain(path)[1][0]
  {
    var path := EndPath(
        [Vertex(0, 0, 100.0), Vertex(1, 1, 1.0), Vertex(2, 1, 100.0), Vertex(3, 1, 1.0), Vertex(4, 0, 100.0)],
        PathParameters(1.0, 100.0, [100.0, 100.0]));
    var vs := path.vertexes;
    var g := GeneralScopeChain(path);
    var ds := ScheduleDurations(path);
    assert ds[0] == 1.0 / 600.0;
    assert g[1][0] == 0.5;
    assert g[1][1] == 399.0 / 60000.0;
    assert g[1][3] == 399.0 / 60000.0;
    var values := GeneralScopeValues(vs, 100.0, 0.5, g[1]);
    assert values[1] == 699.0 / 60000.0 && values[3] == 699.0 / 60000.0;
    assert !RewrittenBefore(vs, 0, 5);
    assert g[2][0] == NeighbourMax(vs, values, 0) == 699.0 / 60000.0;
  }

  /**
   * With a third group, an ordinary vertex longer than every vertex of group 1
   * overshoots: phase three divides it by `maxLengthByGroup[1]` all the same,
   * so its phase-scope progress exceeds 1.
   */
  lemma OtherGroupMayOvershoot()
    ensures var path := EndPath(
        [Vertex(0, 0, 10.0), Vertex(1, 1, 10.0), Vertex(2, 2, 20.0)],
        PathParameters(10.0, 20.0, [10.0, 10.0, 20.0]));
      && WellFormed(path)
      && PhaseScopeChain(path)[2][2] == 2.0
  {
  }

  /**
   * Runs the three phases in order, each phase's duration rule seeing the
   * durations before it and its progression builders the previous phase's
   * general-scope array.
   */
  method ChainPhases(endPath: EndPath, phases: seq<Phase>)
    returns (durations: seq<real>, phaseScope: seq<seq<real>>, generalScope: seq<seq<real>>)
    requires WellFormed(endPath) && FollowsSchedule(phases)
    ensures durations == ScheduleDurations(endPath)
    ensures durations[0] + durations[1] + durations[2] == 1.0
    ensures phaseScope == PhaseScopeChain(endPath)
    ensures generalScope == GeneralScopeChain(endPath)
  {
    WellFormedLengths(endPath);
    var d1 := EvalDuration(phases[0].duration, endPath, []);
    var p1, g1 := ApplyProgressions(phases[0].progressions, endPath, d1, []);
    assert p1 == seq(|endPath.vertexes|, _ => 1.0);
    assert g1 == seq(|endPath.vertexes|, _ => d1);
    var d2 := EvalDuration(phases[1].duration, endPath, [d1]);
    var p2, g2 := ApplyProgressions(phases[1].progressions, endPath, d2, g1);
    var d3 := EvalDuration(phases[2].duration, endPath, [d1, d2]);
    var p3, g3 := ApplyProgressions(phases[2].progressions, endPath, d3, g2);
    durations := [d1, d2, d3];
    phaseScope := [p1, p2, p3];
    generalScope := [g1, g2, g3];
    DurationsFillTimeline(endPath);
  }
}
