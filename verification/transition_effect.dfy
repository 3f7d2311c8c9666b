/**
 * The fixed two-group configuration: group 0 holds the anchors, group 1 the
 * ordinary vertexes. Each phase record names the functions in force where
 * it is built, so phase two's ordinary radius is the halved one and phase
 * three's the one against the longest ordinary vertex.
 */
module TransitionEffect {
  import opened Wrappers
  import opened GroupRules
  import opened Schedule

  /**
   * The start configuration: every group starts fully rounded at radius 2
   * with arm adaptation and smart rounding; only the ordinary group names its
   * type (linear), the anchor group leaves it to the contour builder.
   */
  function StartGroupsParameters(): (groups: seq<GroupParameters>)
    ensures |groups| == 2
    ensures groups[0].topology == None && groups[1].topology == Some(Linear)
    ensures forall k :: 0 <= k < 2 ==>
      && !groups[k].incircle && groups[k].extent == Radius(2.0) && groups[k].round == 1.0
      && groups[k].adaptArms && groups[k].roundMode == SmartRound
  {
    [ GroupParameters(false, None, Radius(2.0), 1.0, true, SmartRound),
      GroupParameters(false, Some(Linear), Radius(2.0), 1.0, true, SmartRound) ]
  }

  /**
   * The end configuration: every group at distance 1 with length-based
   * rounding; the anchors end unrounded with adapted arms, the ordinary
   * vertexes fully rounded without arm adaptation.
   */
  function EndGroupsParameters(): (groups: seq<GroupParameters>)
    ensures |groups| == 2
    ensures groups[0].topology == None && groups[1].topology == Some(Linear)
    ensures groups[0].round == 0.0 && groups[0].adaptArms
    ensures groups[1].round == 1.0 && !groups[1].adaptArms
    ensures forall k :: 0 <= k < 2 ==>
      !groups[k].incircle && groups[k].extent == Distance(1.0) && groups[k].roundMode == LengthBasedRound
  {
    [ GroupParameters(false, None, Distance(1.0), 0.0, true, LengthBasedRound),
      GroupParameters(false, Some(Linear), Distance(1.0), 1.0, false, LengthBasedRound) ]
  }

  /**
   * Unfurl: uniform progressions, and both groups fully rounded with arm
   * adaptation while their radius grows with the frame's progression.
   */
  function PhaseOne(): (phase: Phase)
    ensures phase.duration == UnfurlDuration && phase.progressions == UniformProgressions
    ensures |phase.groupsParameters| == 2
    ensures phase.groupsParameters[0].topology == Radial && phase.groupsParameters[1].topology == Linear
    ensures phase.groupsParameters[1].radius == phase.groupsParameters[0].radius
    ensures forall p: FrameParams ::
      && RadiusDefined(phase.groupsParameters[0].radius, p)
      && EvalRadius(phase.groupsParameters[0].radius, p) == p.endPath.parameters.maxLength * p.progression
    ensures forall k :: 0 <= k < 2 ==>
      && !phase.groupsParameters[k].incircle && phase.groupsParameters[k].round == ConstantRound(1.0)
      && phase.groupsParameters[k].adaptArms && phase.groupsParameters[k].roundMode == SmartRound
  {
    Phase(UnfurlDuration, UniformProgressions,
      [ GroupProfile(false, Radial, GrowWithProgression, ConstantRound(1.0), true, SmartRound),
        GroupProfile(false, Linear, GrowWithProgression, ConstantRound(1.0), true, SmartRound) ])
  }

  /**
   * Extend: length-weighted progressions; the ordinary radius is half the
   * anchor radius on every frame, and only the anchors adapt their arms.
   */
  function PhaseTwo(): (phase: Phase)
    ensures phase.duration == RemainderOfHalf && phase.progressions == LengthWeightedProgressions
    ensures |phase.groupsParameters| == 2
    ensures phase.groupsParameters[0].topology == Radial && phase.groupsParameters[1].topology == Linear
    ensures forall p: FrameParams :: RadiusDefined(phase.groupsParameters[0].radius, p) ==>
      && RadiusDefined(phase.groupsParameters[1].radius, p)
      && EvalRadius(phase.groupsParameters[1].radius, p) == EvalRadius(phase.groupsParameters[0].radius, p) / 2.0
    ensures phase.groupsParameters[0].adaptArms && !phase.groupsParameters[1].adaptArms
    ensures forall k :: 0 <= k < 2 ==>
      && !phase.groupsParameters[k].incircle && phase.groupsParameters[k].round == ConstantRound(1.0)
      && phase.groupsParameters[k].roundMode == LengthBasedRound
  {
    Phase(RemainderOfHalf, LengthWeightedProgressions,
      [ GroupProfile(false, Radial, FirstGroupRadius, ConstantRound(1.0), true, LengthBasedRound),
        GroupProfile(false, Linear, HalvedSecondGroupRadius, ConstantRound(1.0), false, LengthBasedRound) ])
  }

  /**
   * Settle: anchor-driven progressions; an anchor's radius is its own length
   * on every frame and it rounds each arm separately, while the ordinary
   * vertexes stay fully rounded without arm adaptation.
   */
  function PhaseThree(): (phase: Phase)
    ensures phase.duration == FixedHalf && phase.progressions == AnchorDrivenProgressions
    ensures |phase.groupsParameters| == 2
    ensures phase.groupsParameters[0].topology == Radial && phase.groupsParameters[1].topology == Linear
    ensures forall p: FrameParams ::
      RadiusDefined(phase.groupsParameters[0].radius, p) && EvalRadius(phase.groupsParameters[0].radius, p) == p.vertex.length
    ensures forall p: FrameParams :: ArmsComputable(p) ==>
      RoundDefined(phase.groupsParameters[0].round, p) && EvalRound(phase.groupsParameters[0].round, p) == PerArm(RoundFirstGroup(p))
    ensures phase.groupsParameters[0].adaptArms
    ensures phase.groupsParameters[1].radius == SecondGroupRadius
    ensures phase.groupsParameters[1].round == ConstantRound(1.0) && !phase.groupsParameters[1].adaptArms
    ensures forall k :: 0 <= k < 2 ==>
      !phase.groupsParameters[k].incircle && phase.groupsParameters[k].roundMode == LengthBasedRound
  {
    Phase(FixedHalf, AnchorDrivenProgressions,
      [ GroupProfile(false, Radial, VertexLength, FirstGroupRound, true, LengthBasedRound),
        GroupProfile(false, Linear, SecondGroupRadius, ConstantRound(1.0), false, LengthBasedRound) ])
  }

  /**
   * The phases as handed to the scheduler: unfurl, extend, settle, each with
   * one profile for the anchors (radial) and one for the ordinary vertexes (linear).
   */
  function Phases(): (phases: seq<Phase>)
    ensures FollowsSchedule(phases)
    ensures forall j :: 0 <= j < 3 ==>
      && |phases[j].groupsParameters| == 2
      && phases[j].groupsParameters[0].topology == Radial
      && phases[j].groupsParameters[1].topology == Linear
  {
    [PhaseOne(), PhaseTwo(), PhaseThree()]
  }
}
