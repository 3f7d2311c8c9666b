/**
 * The configurable version: any number of groups and an `incircle` switch.
 * Every list of group records holds `numOfGroups - 1` copies of one record
 * (none when `numOfGroups` is below 2) followed by a distinct last record.
 */
module PhasedTransition {
  import opened Wrappers
  import opened GroupRules
  import opened Schedule
  import TransitionEffect

  /** How many times the loop `for (i = 0; i < numOfGroups - 1; i++)` runs. */
  function Copies(numOfGroups: int): nat
  {
    if numOfGroups > 1 then numOfGroups - 1 else 0
  }

  /** `max(1, numOfGroups)`. */
  function GroupCount(numOfGroups: int): nat
  {
    if numOfGroups > 1 then numOfGroups else 1
  }

  /** `Copies(numOfGroups)` copies of `early`, then `last`. */
  function Groups<T>(numOfGroups: int, early: T, last: T): (r: seq<T>)
    ensures |r| == GroupCount(numOfGroups)
    ensures r[|r| - 1] == last
    ensures forall k :: 0 <= k < |r| - 1 ==> r[k] == early
  {
    seq(Copies(numOfGroups), _ => early) + [last]
  }

  /** The shared loop of every group builder: push the repeated record, then the last one. */
  method PushGroups<T>(numOfGroups: int, early: T, last: T) returns (groups: seq<T>)
    ensures groups == Groups(numOfGroups, early, last)
  {
    groups := [];
    var i := 0;
    while i < numOfGroups - 1
      invariant 0 <= i <= Copies(numOfGroups)
      invariant groups == seq(i, _ => early)
    {
      groups := groups + [early];
      i := i + 1;
    }
    groups := groups + [last];
  }

  function TypeFor(incircle: bool): Topology
  {
    if incircle then Radial else Linear
  }

  // ---------------------------------------------------------------------------
  // Start and end configurations.

  function StartRecord(incircle: bool): GroupParameters
  {
    GroupParameters(incircle, Some(TypeFor(incircle)), Radius(2.0), 1.0, true, SmartRound)
  }

  function EndRecord(incircle: bool): GroupParameters
  {
    GroupParameters(incircle, Some(TypeFor(incircle)), Distance(1.0), if incircle then 1.0 else 0.0, !incircle, LengthBasedRound)
  }

  function EndLastRecord(incircle: bool): GroupParameters
  {
    GroupParameters(incircle, Some(TypeFor(incircle)), Distance(1.0), 1.0, false, LengthBasedRound)
  }

  function StartGroups(numOfGroups: int, incircle: bool): seq<GroupParameters>
  {
    Groups(numOfGroups, StartRecord(incircle), StartRecord(incircle))
  }

  function EndGroups(numOfGroups: int, incircle: bool): seq<GroupParameters>
  {
    Groups(numOfGroups, EndRecord(incircle), EndLastRecord(incircle))
  }

  method GetStartGroupsParameters(numOfGroups: int, incircle: bool) returns (groups: seq<GroupParameters>)
    ensures groups == StartGroups(numOfGroups, incircle)
    ensures |groups| == GroupCount(numOfGroups)
    ensures forall k :: 0 <= k < |groups| ==>
      && groups[k].topology.Some? && (groups[k].topology.value == Radial <==> incircle)
      && groups[k].incircle == incircle
  {
    groups := PushGroups(numOfGroups, StartRecord(incircle), StartRecord(incircle));
  }

  method GetEndGroupsParameters(numOfGroups: int, incircle: bool) returns (groups: seq<GroupParameters>)
    ensures groups == EndGroups(numOfGroups, incircle)
    ensures |groups| == GroupCount(numOfGroups)
    ensures forall k :: 0 <= k < |groups| ==>
      groups[k].topology.Some? && (groups[k].topology.value == Radial <==> incircle)
    ensures groups[|groups| - 1].round == 1.0 && !groups[|groups| - 1].adaptArms
    ensures forall k :: 0 <= k < |groups| - 1 ==>
      groups[k].round == (if incircle then 1.0 else 0.0) && groups[k].adaptArms == !incircle
  {
    groups := PushGroups(numOfGroups, EndRecord(incircle), EndLastRecord(incircle));
  }

  // ---------------------------------------------------------------------------
  // The three phases' group profiles.

  function PhaseOneGroups(numOfGroups: int, incircle: bool): seq<GroupProfile>
  {
    Groups(numOfGroups,
      GroupProfile(incircle, Radial, GrowWithProgression, ConstantRound(1.0), true, SmartRound),
      GroupProfile(incircle, TypeFor(incircle), GrowWithProgression, ConstantRound(1.0), true, SmartRound))
  }

  function PhaseTwoGroups(numOfGroups: int, incircle: bool): seq<GroupProfile>
  {
    Groups(numOfGroups,
      GroupProfile(incircle, TypeFor(incircle), FirstGroupRadius, ConstantRound(1.0), true, LengthBasedRound),
      GroupProfile(incircle, TypeFor(incircle), HalvedSecondGroupRadius, ConstantRound(1.0), false, LengthBasedRound))
  }

  function PhaseThreeGroups(numOfGroups: int, incircle: bool): seq<GroupProfile>
  {
    Groups(numOfGroups,
      GroupProfile(incircle, TypeFor(incircle), VertexLength, FirstGroupRoundUnlessIncircle(incircle), !incircle, LengthBasedRound),
      GroupProfile(incircle, TypeFor(incircle), SecondGroupRadius, ConstantRound(1.0), false, LengthBasedRound))
  }

  method GetPhaseOneGroupsParameters(numOfGroups: int, incircle: bool) returns (groups: seq<GroupProfile>)
    ensures groups == PhaseOneGroups(numOfGroups, incircle)
    ensures |groups| == GroupCount(numOfGroups)
    ensures forall k :: 0 <= k < |groups| - 1 ==> groups[k].topology == Radial
    ensures groups[|groups| - 1].topology == Radial <==> incircle
    ensures forall k :: 0 <= k < |groups| ==> groups[k].radius == GrowWithProgression
  {
    groups := PushGroups(numOfGroups,
      GroupProfile(incircle, Radial, GrowWithProgression, ConstantRound(1.0), true, SmartRound),
      GroupProfile(incircle, TypeFor(incircle), GrowWithProgression, ConstantRound(1.0), true, SmartRound));
  }

  method GetPhaseTwoGroupsParameters(numOfGroups: int, incircle: bool) returns (groups: seq<GroupProfile>)
    ensures groups == PhaseTwoGroups(numOfGroups, incircle)
    ensures |groups| == GroupCount(numOfGroups)
    ensures !groups[|groups| - 1].adaptArms && groups[|groups| - 1].radius == HalvedSecondGroupRadius
    ensures forall k :: 0 <= k < |groups| - 1 ==> groups[k].adaptArms && groups[k].radius == FirstGroupRadius
    ensures forall k :: 0 <= k < |groups| ==> (groups[k].topology == Radial <==> incircle)
  {
    groups := PushGroups(numOfGroups,
      GroupProfile(incircle, TypeFor(incircle), FirstGroupRadius, ConstantRound(1.0), true, LengthBasedRound),
      GroupProfile(incircle, TypeFor(incircle), HalvedSecondGroupRadius, ConstantRound(1.0), false, LengthBasedRound));
  }

  method GetPhaseThreeGroupsParameters(numOfGroups: int, incircle: bool) returns (groups: seq<GroupProfile>)
    ensures groups == PhaseThreeGroups(numOfGroups, incircle)
    ensures |groups| == GroupCount(numOfGroups)
    ensures !groups[|groups| - 1].adaptArms && groups[|groups| - 1].round == ConstantRound(1.0)
    ensures forall k :: 0 <= k < |groups| - 1 ==>
      groups[k].radius == VertexLength && groups[k].adaptArms == !incircle
    ensures forall k :: 0 <= k < |groups| ==> (groups[k].topology == Radial <==> incircle)
  {
    groups := PushGroups(numOfGroups,
      GroupProfile(incircle, TypeFor(incircle), VertexLength, FirstGroupRoundUnlessIncircle(incircle), !incircle, LengthBasedRound),
      GroupProfile(incircle, TypeFor(incircle), SecondGroupRadius, ConstantRound(1.0), false, LengthBasedRound));
  }

  /** The phases as handed to the scheduler, in the same order and with the same rules as the fixed ones. */
  function Phases(numOfGroups: int, incircle: bool): (phases: seq<Phase>)
    ensures FollowsSchedule(phases)
    ensures forall j :: 0 <= j < 3 ==> |phases[j].groupsParameters| == GroupCount(numOfGroups)
  {
    [ Phase(UnfurlDuration, UniformProgressions, PhaseOneGroups(numOfGroups, incircle)),
      Phase(RemainderOfHalf, LengthWeightedProgressions, PhaseTwoGroups(numOfGroups, incircle)),
      Phase(FixedHalf, AnchorDrivenProgressions, PhaseThreeGroups(numOfGroups, incircle)) ]
  }

  // ---------------------------------------------------------------------------
  // With two groups and no incircle, against the fixed configuration.

  /** The same start records, except that the first now names its type (linear) instead of leaving it unset. */
  lemma StartGroupsAgainstFixed()
    ensures var fixed := TransitionEffect.StartGroupsParameters();
      StartGroups(2, false) == [fixed[0].(topology := Some(Linear)), fixed[1]]
  {
  }

  /** The same end records, except that the first now names its type (linear) instead of leaving it unset. */
  lemma EndGroupsAgainstFixed()
    ensures var fixed := TransitionEffect.EndGroupsParameters();
      EndGroups(2, false) == [fixed[0].(topology := Some(Linear)), fixed[1]]
  {
  }

  /** Phase one's profiles are exactly the fixed ones. */
  lemma PhaseOneAgainstFixed()
    ensures PhaseOneGroups(2, false) == TransitionEffect.PhaseOne().groupsParameters
  {
  }

  /** Phase two's anchor profile is linear where the fixed one is radial; nothing else differs. */
  lemma PhaseTwoAgainstFixed()
    ensures var fixed := TransitionEffect.PhaseTwo().groupsParameters;
      && PhaseTwoGroups(2, false) == [fixed[0].(topology := Linear), fixed[1]]
      && fixed[0].topology == Radial
  {
  }

  /**
   * Phase three's anchor profile is linear where the fixed one is radial, and
   * its round function is the configurable one, which rounds exactly as the
   * fixed one does when not incircle.
   */
  lemma PhaseThreeAgainstFixed(p: FrameParams)
    ensures var fixed := TransitionEffect.PhaseThree().groupsParameters;
      && PhaseThreeGroups(2, false) == [fixed[0].(topology := Linear, round := FirstGroupRoundUnlessIncircle(false)), fixed[1]]
      && fixed[0].topology == Radial
      && (RoundDefined(fixed[0].round, p) ==>
          && RoundDefined(PhaseThreeGroups(2, false)[0].round, p)
          && EvalRound(PhaseThreeGroups(2, false)[0].round, p) == EvalRound(fixed[0].round, p))
  {
    RoundUnlessIncircleAgrees(p);
  }
}
