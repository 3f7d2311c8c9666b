/**
 * Group parameters: the static records handed to the contour builder for the
 * start and end configurations, and the per-frame parameter functions each
 * phase supplies per vertex group (radius, round, adaptArms, type).
 */
module GroupRules {
  import opened Wrappers
  import opened Geometry
  import opened VertexIndexer

  datatype Topology = Radial | Linear

  /** Which rounding refinement a record switches on: `smartRound` or `lengthBasedRound`. */
  datatype RoundMode = SmartRound | LengthBasedRound

  /** The size knob of a static record: `radius` in start records, `distance` in end records. */
  datatype Extent = Radius(radius: real) | Distance(distance: real)

  /**
   * A static group record. Its `type` (here `topology`) is absent from some records, which leaves
   * the choice to the contour builder.
   */
  datatype GroupParameters = GroupParameters(
    incircle: bool,
    topology: Option<Topology>,
    extent: Extent,
    round: real,
    adaptArms: bool,
    roundMode: RoundMode)

  /**
   * What the scheduler passes to a per-frame parameter function: the overall
   * progression of the frame, the end path, the vertex, the progression
   * arrays of every phase so far (indexed by phase, then vertex) and the
   * index of the active phase.
   */
  datatype FrameParams = FrameParams(
    progression: real,
    endPath: EndPath,
    vertex: Vertex,
    progressionsGeneralScope: seq<seq<real>>,
    progressionsPhaseScope: seq<seq<real>>,
    activePhaseIndex: nat)

  /** The active phase's arrays have an entry for the vertex. */
  predicate Addressable(p: FrameParams)
  {
    && p.activePhaseIndex < |p.progressionsGeneralScope|
    && p.activePhaseIndex < |p.progressionsPhaseScope|
    && p.vertex.index < |p.progressionsGeneralScope[p.activePhaseIndex]|
    && p.vertex.index < |p.progressionsPhaseScope[p.activePhaseIndex]|
  }

  /** The vertex's general-scope progression at the end of the active phase. */
  function GeneralAt(p: FrameParams): real
    requires Addressable(p)
  {
    p.progressionsGeneralScope[p.activePhaseIndex][p.vertex.index]
  }

  /** The vertex's phase-scope progression in the active phase. */
  function PhaseAt(p: FrameParams): real
    requires Addressable(p)
  {
    p.progressionsPhaseScope[p.activePhaseIndex][p.vertex.index]
  }

  // ---------------------------------------------------------------------------
  // Radius functions.

  /** Phase one: every group's radius grows with the frame's progression up to the longest length. */
  function PhaseOneRadius(p: FrameParams): (r: real)
    ensures 0.0 <= p.endPath.parameters.maxLength && 0.0 <= p.progression <= 1.0 ==>
      0.0 <= r <= p.endPath.parameters.maxLength
    ensures p.progression == 1.0 ==> r == p.endPath.parameters.maxLength
    ensures p.progression == 0.0 ==> r == 0.0
  {
    p.endPath.parameters.maxLength * p.progression
  }

  /**
   * Phase two, anchors: the progression relative to the vertex's general-scope
   * progression, scaled by its phase-scope progression and the longest length.
   * When the frame reaches the vertex's general-scope progression the radius
   * is the phase-scope fraction of the longest length.
   */
  function RadiusFirstGroup(p: FrameParams): (r: real)
    requires Addressable(p) && GeneralAt(p) != 0.0
    ensures p.progression == GeneralAt(p) ==> r == PhaseAt(p) * p.endPath.parameters.maxLength
    ensures p.progression == 0.0 ==> r == 0.0
  {
    var maxLength := p.endPath.parameters.maxLength;
    var factor := (p.progression / GeneralAt(p)) * PhaseAt(p);
    factor * maxLength
  }

  /** Phase two, ordinary vertexes: half the anchor radius for the same inputs. */
  function PhaseTwoRadiusSecondGroup(p: FrameParams): (r: real)
    requires Addressable(p) && GeneralAt(p) != 0.0
    ensures r == RadiusFirstGroup(p) / 2.0
  {
    var maxLength := p.endPath.parameters.maxLength;
    var factor := (p.progression / GeneralAt(p)) * PhaseAt(p);
    var result := factor * maxLength;
    result / 2.0
  }

  /**
   * Phase three, ordinary vertexes: the phase-two ratio against the longest
   * ordinary vertex instead of the longest vertex overall.
   */
  function PhaseThreeRadiusSecondGroup(p: FrameParams): (r: real)
    requires Addressable(p) && GeneralAt(p) != 0.0 && |p.endPath.parameters.maxLengthByGroup| > 1
    ensures p.progression == GeneralAt(p) ==> r == PhaseAt(p) * p.endPath.parameters.maxLengthByGroup[1]
    ensures p.progression == 0.0 ==> r == 0.0
  {
    var maxLength := p.endPath.parameters.maxLengthByGroup[1];
    var factor := (p.progression / GeneralAt(p)) * PhaseAt(p);
    factor * maxLength
  }

  // ---------------------------------------------------------------------------
  // Round functions.

  /** What a round function yields: one value for the vertex or one per adjacent arm. */
  datatype RoundValue = Uniform(value: real) | PerArm(arms: seq<real>)

  /** An arm value outside [0, 1] is reset to 0 (not clamped): that arm has not started rounding. */
  function ResetArm(arm: real): (r: real)
    ensures 0.0 <= r <= 1.0
    ensures 0.0 <= arm <= 1.0 ==> r == arm
    ensures arm < 0.0 || 1.0 < arm ==> r == 0.0
  {
    if arm < 0.0 then 0.0 else if arm > 1.0 then 0.0 else arm
  }

  /**
   * The anchor's general-scope progression before the active phase and both
   * circular neighbours' after it can be read.
   */
  predicate ArmsReadable(p: FrameParams)
  {
    && 2 <= |p.endPath.vertexes|
    && p.vertex.index < |p.endPath.vertexes|
    && 1 <= p.activePhaseIndex < |p.progressionsGeneralScope|
    && p.vertex.index < |p.progressionsGeneralScope[p.activePhaseIndex - 1]|
    && |p.endPath.vertexes| <= |p.progressionsGeneralScope[p.activePhaseIndex]|
  }

  /** The anchor's general-scope progression before the active phase. */
  function PrevPhaseGeneral(p: FrameParams): real
    requires ArmsReadable(p)
  {
    p.progressionsGeneralScope[p.activePhaseIndex - 1][p.vertex.index]
  }

  /** The general-scope progression of vertex j after the active phase. */
  function GeneralOf(p: FrameParams, j: nat): real
    requires ArmsReadable(p) && j < |p.endPath.vertexes|
  {
    p.progressionsGeneralScope[p.activePhaseIndex][j]
  }

  function PrevOf(p: FrameParams): nat
    requires ArmsReadable(p)
  {
    PrevIndex(|p.endPath.vertexes|, p.vertex.index)
  }

  function NextOf(p: FrameParams): nat
    requires ArmsReadable(p)
  {
    NextIndex(|p.endPath.vertexes|, p.vertex.index)
  }

  /** Neither arm's ratio divides by zero. */
  predicate ArmsComputable(p: FrameParams)
  {
    && ArmsReadable(p)
    && PrevPhaseGeneral(p) != GeneralOf(p, PrevOf(p))
    && PrevPhaseGeneral(p) != GeneralOf(p, NextOf(p))
  }

  /** The arm ratio is 0 at its start and 1 at its end. */
  lemma FactorAtEnds(a: real, x: real, b: real)
    requires a != b
    ensures x == a ==> (a - x) / (a - b) == 0.0
    ensures x == b ==> (a - x) / (a - b) == 1.0
  {
    var d := a - b;
    assert (a - x) / d * d == a - x;
  }

  /**
   * One arm's rounding: one minus how far the frame has moved from the
   * anchor's previous progression toward the neighbour's new progression,
   * reset to 0 when that lies outside [0, 1]. It is 1 at the anchor's
   * previous progression and 0 at the neighbour's new one.
   */
  function Arm(prevProgression: real, progression: real, neighbourProgression: real): (r: real)
    requires prevProgression != neighbourProgression
    ensures 0.0 <= r <= 1.0
    ensures progression == prevProgression ==> r == 1.0
    ensures progression == neighbourProgression ==> r == 0.0
    ensures var f := 1.0 - (prevProgression - progression) / (prevProgression - neighbourProgression);
      (0.0 <= f <= 1.0 ==> r == f) && (f < 0.0 || 1.0 < f ==> r == 0.0)
  {
    var factor := (prevProgression - progression) / (prevProgression - neighbourProgression);
    FactorAtEnds(prevProgression, progression, neighbourProgression);
    ResetArm(1.0 - factor)
  }

  /**
   * Phase three, anchors: one rounding value per adjacent arm, toward the
   * previous and then the next neighbour. Both arms are fully rounded when
   * the frame is at the anchor's previous progression, and an arm is
   * unrounded when the frame reaches its neighbour's new progression.
   */
  function RoundFirstGroup(p: FrameParams): (arms: seq<real>)
    requires ArmsComputable(p)
    ensures |arms| == 2
    ensures forall j :: 0 <= j < 2 ==> 0.0 <= arms[j] <= 1.0
    ensures p.progression == PrevPhaseGeneral(p) ==> arms == [1.0, 1.0]
    ensures p.progression == GeneralOf(p, PrevOf(p)) ==> arms[0] == 0.0
    ensures p.progression == GeneralOf(p, NextOf(p)) ==> arms[1] == 0.0
  {
    var vertexes := p.endPath.vertexes;
    var prevIndex := if p.vertex.index == 0 then |vertexes| - 2 else p.vertex.index - 1;
    var nextIndex := if p.vertex.index == |vertexes| - 1 then 1 else p.vertex.index + 1;
    var prevPhaseGeneralScopeProgression := p.progressionsGeneralScope[p.activePhaseIndex - 1][p.vertex.index];
    var firstArm :=
      Arm(prevPhaseGeneralScopeProgression, p.progression, p.progressionsGeneralScope[p.activePhaseIndex][prevIndex]);
    var secondArm :=
      Arm(prevPhaseGeneralScopeProgression, p.progression, p.progressionsGeneralScope[p.activePhaseIndex][nextIndex]);
    [firstArm, secondArm]
  }

  /** The configurable variant: a uniform 1 for an incircle shape, otherwise the two arms. */
  function RoundFirstGroupUnlessIncircle(incircle: bool, p: FrameParams): (r: RoundValue)
    requires incircle || ArmsComputable(p)
    ensures incircle ==> r == Uniform(1.0)
    ensures !incircle ==> r.PerArm? && |r.arms| == 2 && forall j :: 0 <= j < 2 ==> 0.0 <= r.arms[j] <= 1.0
  {
    if incircle then Uniform(1.0) else PerArm(RoundFirstGroup(p))
  }

  // ---------------------------------------------------------------------------
  // The per-group parameter functions of a phase, named by which function they are.

  datatype RadiusRule =
    | GrowWithProgression      // phaseOneRadius
    | FirstGroupRadius         // radiusFirstGroup
    | HalvedSecondGroupRadius  // phase two's radiusSecondGroup
    | SecondGroupRadius        // phase three's radiusSecondGroup
    | VertexLength             // the vertex's own length

  datatype RoundRule =
    | ConstantRound(value: real)
    | FirstGroupRound
    | FirstGroupRoundUnlessIncircle(incircle: bool)

  /** One group's parameter functions within a phase. */
  datatype GroupProfile = GroupProfile(
    incircle: bool,
    topology: Topology,
    radius: RadiusRule,
    round: RoundRule,
    adaptArms: bool,
    roundMode: RoundMode)

  predicate RadiusDefined(rule: RadiusRule, p: FrameParams)
  {
    match rule
    case GrowWithProgression => true
    case FirstGroupRadius => Addressable(p) && GeneralAt(p) != 0.0
    case HalvedSecondGroupRadius => Addressable(p) && GeneralAt(p) != 0.0
    case SecondGroupRadius =>
      Addressable(p) && GeneralAt(p) != 0.0 && |p.endPath.parameters.maxLengthByGroup| > 1
    case VertexLength => true
  }

  function EvalRadius(rule: RadiusRule, p: FrameParams): real
    requires RadiusDefined(rule, p)
  {
    match rule
    case GrowWithProgression => PhaseOneRadius(p)
    case FirstGroupRadius => RadiusFirstGroup(p)
    case HalvedSecondGroupRadius => PhaseTwoRadiusSecondGroup(p)
    case SecondGroupRadius => PhaseThreeRadiusSecondGroup(p)
    case VertexLength => p.vertex.length
  }

  predicate RoundDefined(rule: RoundRule, p: FrameParams)
  {
    match rule
    case ConstantRound(_) => true
    case FirstGroupRound => ArmsComputable(p)
    case FirstGroupRoundUnlessIncircle(incircle) => incircle || ArmsComputable(p)
  }

  function EvalRound(rule: RoundRule, p: FrameParams): RoundValue
    requires RoundDefined(rule, p)
  {
    match rule
    case ConstantRound(v) => Uniform(v)
    case FirstGroupRound => PerArm(RoundFirstGroup(p))
    case FirstGroupRoundUnlessIncircle(incircle) => RoundFirstGroupUnlessIncircle(incircle, p)
  }

  // ---------------------------------------------------------------------------
  // How the radius functions meet the progression arrays.

  /**
   * In phase two a vertex's phase-scope progression is `length / maxLength`;
   * when the frame reaches the vertex's general-scope progression, the anchor
   * radius equals the vertex's length and the ordinary radius half of it.
   */
  lemma PhaseTwoRadiiReachLength(p: FrameParams)
    requires Addressable(p) && GeneralAt(p) != 0.0 && p.endPath.parameters.maxLength != 0.0
    requires PhaseAt(p) == p.vertex.length / p.endPath.parameters.maxLength
    requires p.progression == GeneralAt(p)
    ensures EvalRadius(FirstGroupRadius, p) == p.vertex.length
    ensures EvalRadius(HalvedSecondGroupRadius, p) == p.vertex.length / 2.0
  {
    var m := p.endPath.parameters.maxLength;
    assert EvalRadius(FirstGroupRadius, p) == (p.vertex.length / m) * m;
  }

  /**
   * In phase three an ordinary vertex's phase-scope progression is
   * `length / maxLengthByGroup[1]`; when the frame reaches its general-scope
   * progression its radius is its length, which is what an anchor's radius
   * is throughout the phase.
   */
  lemma PhaseThreeRadiiReachLength(p: FrameParams)
    requires Addressable(p) && GeneralAt(p) != 0.0
    requires |p.endPath.parameters.maxLengthByGroup| > 1 && p.endPath.parameters.maxLengthByGroup[1] != 0.0
    requires PhaseAt(p) == p.vertex.length / p.endPath.parameters.maxLengthByGroup[1]
    requires p.progression == GeneralAt(p)
    ensures EvalRadius(SecondGroupRadius, p) == p.vertex.length == EvalRadius(VertexLength, p)
  {
    var m := p.endPath.parameters.maxLengthByGroup[1];
    assert EvalRadius(SecondGroupRadius, p) == (p.vertex.length / m) * m;
  }

  /** The configurable round function agrees with the fixed one unless the shape is incircle. */
  lemma RoundUnlessIncircleAgrees(p: FrameParams)
    ensures RoundDefined(FirstGroupRoundUnlessIncircle(true), p)
    ensures EvalRound(FirstGroupRoundUnlessIncircle(true), p) == Uniform(1.0)
    ensures RoundDefined(FirstGroupRoundUnlessIncircle(false), p) == RoundDefined(FirstGroupRound, p)
    ensures RoundDefined(FirstGroupRound, p) ==>
      EvalRound(FirstGroupRoundUnlessIncircle(false), p) == EvalRound(FirstGroupRound, p)
  {
  }
}
