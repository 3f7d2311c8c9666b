# Phased transition progressions in Dafny

This project models the phase definitions that the phased-transition effect hands
to the contour library's phase scheduler. A transition morphs a closed contour
in three phases. **Unfurl** grows every group's radius with the frame's progression.
**Extend** moves each vertex in proportion to its length. **Settle** lets the anchor
vertexes (group 0, the points shared by two segments) drive their neighbours.
Each phase has four parts:

- a duration, as a share of the [0, 1] timeline;
- a phase-scope progression array, giving progress within the phase;
- a general-scope progression array, giving progress on the whole timeline and
  carried forward from the previous phase;
- one profile of per-frame parameter functions per vertex group (type, radius,
  round, adaptArms).

The repository defines these twice:

- `src/TransitionEffect.js` has a fixed two-group version. It is module
  `TransitionEffect`.
- `src/usePhasedTransition.js` has a version that takes `numOfGroups` and an
  `incircle` switch. It is module `PhasedTransition`.

Both files share the same numeric code, which is modelled once:

- `VertexIndexer`: the circular neighbour rule. The previous vertex of 0 is n-2.
  The next vertex of n-1 is 1.
- `Geometry`: the end path and the two length-weighted formulas.
- `Durations`: the three duration rules.
- `Progressions`: the six array builders. These are methods with loops: fill,
  push, and the indexed-write sweep.
- `GroupRules`: the radius and round functions, and the group records.
- `Schedule`: the phase record and a driver that chains the three phases in the
  order they are handed over.

Lengths and progressions are `real`. A JavaScript array slot that is still
`undefined` is `None`.

The phase-three builders visit vertexes in ascending order.

- An anchor writes both neighbours' slots.
- It then writes its own slot with the larger of the two values.
- An ordinary vertex fills its own slot only if the slot is still empty.

`Progressions.PhaseThreePhaseScope` and `Progressions.PhaseThreeGeneralScope` are
proved equal to a closed form, `Progressions.Settled`:

- every slot is filled;
- an ordinary vertex always ends with its own length-weighted value;
- an anchor k ends with the larger neighbour value, unless an anchor visited
  after it rewrites its slot. That happens exactly when vertex k+1 exists and is
  an anchor, or when k = 1, n >= 3 and vertex n-1 is an anchor. Anchor k then
  ends with its own value. The last vertex is never rewritten, because its
  next neighbour, vertex 1, is visited before it. With n = 2, vertex 1 is the
  last vertex, so it too ends with the larger neighbour value.

Two facts about the code are worth stating up front:

- General-scope progression is not monotone for anchors. The code guarantees
  that a vertex never moves back on the timeline only for ordinary vertexes
  (`Schedule.ChainProgresses`). `Schedule.AnchorMayFallBack` gives a
  well-formed five-vertex path where anchor 0 ends phase three behind where it
  ended phase two.
- The code never rejects a zero vertex length or a zero reference length. The
  model states non-zero (or positive) lengths as preconditions instead.

Phase three divides every ordinary vertex by `maxLengthByGroup[1]`, the
longest vertex of group 1. With more than two groups, a longer ordinary vertex
of another group ends phase three with progress above 1
(`Schedule.OtherGroupMayOvershoot`). The (0, 1] bounds of phase three are
therefore stated for group 1 only.

## Model

| member | source | states |
|---|---|---|
| VertexIndexer.PrevIndex | src/TransitionEffect.js:201 | for n >= 2 the previous index lies in [0, n); for n >= 3 it is never the vertex itself |
| VertexIndexer.NextIndex | src/TransitionEffect.js:202 | for n >= 2 the next index lies in [0, n); for n >= 3 it is never the vertex itself |
| VertexIndexer.NeighboursInverse | src/TransitionEffect.js:232-233 | next(prev(i)) = i for i > 0 and prev(next(i)) = i for i < n-1 |
| VertexIndexer.SeamIdentifiesClosingPoint | src/TransitionEffect.js:265-266 | at the seam, next(prev(0)) = n-1 and prev(next(n-1)) = 0: the two copies of the closing point are treated as one |
| Geometry.LengthRatio | src/TransitionEffect.js:112-113 | `1 / (reference / length)` is `length / reference`, and lies in (0, 1] when 0 < length <= reference |
| Geometry.Advance | src/TransitionEffect.js:123-124 | `duration / (reference / length) + previous` is previous + duration * length / reference, and lies between previous and previous + duration when the duration is non-negative and 0 < length <= reference |
| Durations.PhaseOneDuration | src/TransitionEffect.js:62-68 | phase one lasts minLength / (6 * maxLength), which is in (0, 1/6] when 0 < minLength <= maxLength |
| Durations.PhaseTwoDuration | src/TransitionEffect.js:103-105 | phases one and two together last exactly 0.5 |
| Durations.PhaseThreeDuration | src/TransitionEffect.js:307 | phase three takes the other half: with any phase-one duration and the phase-two duration that follows from it, the three sum to 1; the hook repeats it at src/usePhasedTransition.js:358 |
| Durations.DurationsFillTimeline | src/TransitionEffect.js:306-307 | phase one, phase two and the fixed 0.5 of phase three sum to 1; phase two lasts between 1/3 and 1/2 |
| Durations.WorkedExample | src/TransitionEffect.js:62-68 | minLength 60 and maxLength 200 give durations 0.05 and 0.45 |
| Progressions.Fill | src/TransitionEffect.js:51 | `fill(value, start, end)` sets exactly the slots in [start, end) and leaves the rest alone |
| Progressions.PhaseOnePhaseScope | src/TransitionEffect.js:48-53 | one entry per vertex, every entry 1 |
| Progressions.PhaseOneGeneralScope | src/TransitionEffect.js:55-60 | one entry per vertex, every entry the phase's duration |
| Progressions.PhaseScopeValues | src/TransitionEffect.js:110-114 | entry k is length_k / reference, one entry per vertex |
| Progressions.GeneralScopeValues | src/TransitionEffect.js:121-125 | entry k is prev[k] + duration * length_k / reference, one entry per vertex |
| Progressions.PhaseScopeInUnitInterval | src/TransitionEffect.js:107-116 | with 0 < length_k <= reference, every phase-scope entry is in (0, 1] |
| Progressions.GeneralScopeCarriesForward | src/TransitionEffect.js:118-127 | with positive lengths no longer than the reference and a non-negative duration, every general-scope entry lies between prev[k] and prev[k] + duration |
| Progressions.PhaseTwoPhaseScope | src/TransitionEffect.js:107-116 | the forEach/push loop yields the phase-scope values against maxLength; the same code is at src/usePhasedTransition.js:126-135 |
| Progressions.PhaseTwoGeneralScope | src/TransitionEffect.js:118-127 | the forEach/push loop yields the general-scope values against maxLength, carried forward from prevPhaseProgressions; the same code is at src/usePhasedTransition.js:137-146 |
| Progressions.NeighbourMax | src/TransitionEffect.js:213-214 | the anchor's value is at least both neighbour values and equal to one of them |
| Progressions.VisitAdvancesSweep | src/TransitionEffect.js:197-219 | one visit, with the overwrite-on-visit for anchors and the `=== undefined` guard for ordinary vertexes, takes the sweep invariant from step i to step i+1 |
| Progressions.AnchorVisitTakesLarger | src/TransitionEffect.js:210-214 | visiting an anchor (any n >= 2) sets both neighbour slots and its own. Its own slot holds `NeighbourMax`: the larger of the two neighbour values, and equal to one of them. With n = 2 the anchor's own slot is also a neighbour slot |
| Progressions.SweptIsSettled | src/TransitionEffect.js:197-220 | after the last visit every slot is filled and holds its settled value |
| Progressions.PhaseThreePhaseScope | src/TransitionEffect.js:191-221 | the indexed-write sweep against maxLengthByGroup[1] fills every slot and equals the settled closed form of the phase-scope values; the same code is at src/usePhasedTransition.js:216-246 |
| Progressions.PhaseThreeGeneralScope | src/TransitionEffect.js:223-254 | the same for the general-scope values carried forward from prevPhaseProgressions; the same code is at src/usePhasedTransition.js:248-279 |
| Progressions.SettledAnchor | src/TransitionEffect.js:243-247 | a settled anchor holds its own value if a later anchor rewrote it, and otherwise the larger neighbour value, which is at least both neighbour values |
| Progressions.PhaseThreeOrdinaryVertex | src/TransitionEffect.js:248-251 | for any positive lengths and reference, an ordinary vertex ends phase three with its own value, whichever visit wrote it. Within the phase that is length / reference, which is positive. On the timeline it is prev + duration * length / reference, never below prev. When the vertex is no longer than the reference, both stay within (0, 1] and within prev + duration |
| GroupRules.PhaseOneRadius | src/TransitionEffect.js:70-73 | the radius grows with the frame's progression from 0 to maxLength |
| GroupRules.RadiusFirstGroup | src/TransitionEffect.js:129-144 | the radius is 0 at progression 0; when the frame reaches the vertex's general-scope progression it is the phase-scope fraction of maxLength |
| GroupRules.PhaseTwoRadiusSecondGroup | src/TransitionEffect.js:146-161 | phase two's ordinary radius is exactly half the anchor radius for the same inputs |
| GroupRules.PhaseThreeRadiusSecondGroup | src/TransitionEffect.js:290-304 | like the phase-two anchor radius but against maxLengthByGroup[1] |
| GroupRules.ResetArm | src/TransitionEffect.js:274-276 | the result is in [0, 1]; a value in range passes unchanged; a value below 0 or above 1 becomes exactly 0 and never 1 |
| GroupRules.Arm | src/TransitionEffect.js:269-276 | an arm is 1 when the frame is at the anchor's previous-phase progression and 0 when it reaches the neighbour's new progression; otherwise 1 - factor when that is in [0, 1], else 0 |
| GroupRules.RoundFirstGroup | src/TransitionEffect.js:256-288 | two arms, each in [0, 1]; both are 1 at the anchor's previous-phase progression, and an arm is 0 at its neighbour's new progression |
| GroupRules.RoundFirstGroupUnlessIncircle | src/usePhasedTransition.js:281-316 | returns the scalar 1 whenever incircle, and reads nothing else then; otherwise returns two arms in [0, 1] |
| GroupRules.PhaseTwoRadiiReachLength | src/usePhasedTransition.js:148-180 | with phase-two phase-scope length / maxLength, at the vertex's own general-scope progression the anchor radius is the vertex's length and the ordinary radius is half of it |
| GroupRules.PhaseThreeRadiiReachLength | src/usePhasedTransition.js:318-340 | in phase three an ordinary vertex's radius reaches its length at its own general-scope progression, which is the anchor radius (the vertex's own length) throughout |
| GroupRules.RoundUnlessIncircleAgrees | src/usePhasedTransition.js:289 | the configurable round function is the scalar 1 when incircle, needs exactly what the fixed one needs, and otherwise rounds exactly as the fixed one does |
| Schedule.ApplyProgressions | src/usePhasedTransition.js:379-385 | for each of the phase records at src/usePhasedTransition.js:111-116, :205-210 and :357-362, running its builders gives all-ones/all-duration arrays for phase one, the length-weighted arrays for phase two and the settled arrays for phase three |
| Schedule.ChainProgresses | src/usePhasedTransition.js:379-385 | chained in order, the durations sum to 1. Every vertex's general-scope progression is positive and does not decrease from phase one to phase two, staying at most 0.5. Every ordinary vertex does not decrease in phase three either, and its phase-three phase-scope entry is positive. Vertexes of group 1 end at most 1 on the timeline and within the phase. Phase-scope entries are in (0, 1] for phases one and two |
| Schedule.AnchorMayFallBack | src/usePhasedTransition.js:263-272 | a well-formed path exists where an anchor's phase-three general-scope progression is below its phase-two one |
| Schedule.OtherGroupMayOvershoot | src/usePhasedTransition.js:248-279 | a well-formed three-group path exists where a group-2 vertex, longer than every vertex of group 1, ends phase three with phase-scope progress 2 |
| Schedule.ChainPhases | src/usePhasedTransition.js:379-385 | each phase sees the earlier durations and the previous general-scope array. The resulting durations sum to 1, and the arrays are those of the chained specification |
| TransitionEffect.StartGroupsParameters | src/TransitionEffect.js:8-24 | two records, every one not incircle, at radius 2, fully rounded, with arm adaptation and smart rounding; the anchor record leaves its type unset and the ordinary one names linear |
| TransitionEffect.EndGroupsParameters | src/TransitionEffect.js:26-42 | two records at distance 1 with length-based rounding; the anchors end unrounded with adapted arms, the ordinary vertexes fully rounded without arm adaptation; only the ordinary record names its type (linear) |
| TransitionEffect.PhaseOne | src/TransitionEffect.js:75-97 | the unfurl duration and uniform builders; an anchor profile (radial) and an ordinary one (linear) that share a radius defined on every frame as maxLength * progression, both fully rounded with arm adaptation and smart rounding |
| TransitionEffect.PhaseTwo | src/TransitionEffect.js:163-185 | the remainder-of-half duration and length-weighted builders; wherever the anchor radius is defined, the ordinary radius is defined too and is exactly half of it; only the anchors adapt their arms; both fully rounded |
| TransitionEffect.PhaseThree | src/TransitionEffect.js:306-328 | the fixed-half duration and the anchor-driven builders; the anchor radius is the vertex's length on every frame, and its round gives the two per-arm values wherever they are computable; the ordinary profile takes the group-1 radius, round 1 and no arm adaptation |
| TransitionEffect.Phases | src/TransitionEffect.js:343-349 | unfurl, extend and settle in order, each with a radial anchor profile and a linear ordinary profile |
| PhasedTransition.Groups | src/usePhasedTransition.js:8-29 | max(1, numOfGroups) records: copies of one record, then the distinct last one |
| PhasedTransition.PushGroups | src/usePhasedTransition.js:9-20 | the push loop produces exactly those records |
| PhasedTransition.GetStartGroupsParameters | src/usePhasedTransition.js:8-29 | max(1, numOfGroups) records, each of type radial exactly when incircle |
| PhasedTransition.GetEndGroupsParameters | src/usePhasedTransition.js:31-52 | max(1, numOfGroups) records, each radial exactly when incircle. The last record has round 1 and no arm adaptation. Every earlier record has round (incircle ? 1 : 0) and adaptArms = !incircle |
| PhasedTransition.GetPhaseOneGroupsParameters | src/usePhasedTransition.js:88-109 | max(1, numOfGroups) profiles; all but the last are radial, and the last is radial exactly when incircle |
| PhasedTransition.GetPhaseTwoGroupsParameters | src/usePhasedTransition.js:182-203 | max(1, numOfGroups) profiles. The last has the halved radius and no arm adaptation. The earlier ones adapt arms with the anchor radius. All are radial exactly when incircle |
| PhasedTransition.GetPhaseThreeGroupsParameters | src/usePhasedTransition.js:334-355 | max(1, numOfGroups) profiles. The last has round 1 and no arm adaptation. The earlier ones take the vertex length as radius and adaptArms = !incircle. All are radial exactly when incircle |
| PhasedTransition.Phases | src/usePhasedTransition.js:379-385 | the records of src/usePhasedTransition.js:111-116, :205-210 and :357-362, handed over at :384: the same three rules in the same order as the fixed version, each phase with max(1, numOfGroups) profiles |
| PhasedTransition.StartGroupsAgainstFixed | src/TransitionEffect.js:8-24 | with two groups and no incircle, the hook's start records equal the fixed ones except that the first names type linear instead of leaving it unset |
| PhasedTransition.EndGroupsAgainstFixed | src/TransitionEffect.js:26-42 | the same holds for the end records |
| PhasedTransition.PhaseOneAgainstFixed | src/TransitionEffect.js:75-97 | phase one's profiles equal the fixed ones |
| PhasedTransition.PhaseTwoAgainstFixed | src/TransitionEffect.js:163-185 | phase two's anchor profile is linear where the fixed one is radial; nothing else differs |
| PhasedTransition.PhaseThreeAgainstFixed | src/TransitionEffect.js:306-328 | phase three's anchor profile is linear where the fixed one is radial, and has the configurable round function, which agrees with the fixed one |

## Left out

- The contour library (`phases`, `path`, `spacing`, `morphing`, `randomRange`) is not part of this model. That covers the real phase scheduler, contour construction, and the derivation of keyTimes and keySplines. `Schedule.ChainPhases` assumes only what the phase records need: each phase gets the earlier durations and the previous general-scope array.
- Schedule.ChainPhases: does not model how the library samples frames or evaluates the group profiles per frame. Those are evaluated separately, by `GroupRules.EvalRadius` and `GroupRules.EvalRound`.
- The random rotation of incircle shapes is not modelled, because it is random and cosmetic.
- The SVG rendering, the `<animate>` timing, React state and timers are not modelled. Scene.js is not part of this model.
- JavaScript double semantics are not modelled: Infinity, NaN and rounding. Numbers are exact reals. The code never rejects a zero length or a zero denominator. In JavaScript a zero vertex length gives a progression of 0 through `1 / Infinity`, and a zero minLength gives a phase-one duration of 0. Here non-zero lengths, a non-zero reference and non-zero denominators are preconditions instead.
- Progressions.Fill: requires 0 <= start <= end <= length. JavaScript's `fill` clamps out-of-range bounds, but the builders only call it with 0 and the array length.
- PhasedTransition.GetStartGroupsParameters: `numOfGroups` is an integer here. A fractional or missing value from the caller's props is not modelled. The same holds for the other four builders.
- Schedule.ChainPhases: says nothing about a path whose `maxLengthByGroup` has fewer than two entries, because `WellFormed` requires `maxLengthByGroup[1]`. The hook with `numOfGroups <= 1` builds a single record (`PhasedTransition.GroupCount`). If the contour library then reports one group, phase three reads `maxLengthByGroup[1]` as `undefined` (src/usePhasedTransition.js:220 and :251), and every phase-three progression becomes NaN.
- The unused `phaseTwoRatio` constant is not modelled. The commented-out floor on minLength is not modelled either.
- The `incircle`, `type`, `adaptArms`, `smartRound` and `lengthBasedRound` functions of a phase record ignore their arguments. They are modelled as the constants they return. The radius and round functions are named by a tag and evaluated by `GroupRules.EvalRadius` and `GroupRules.EvalRound`.
- The phase-scope builders of phases two and three receive `duration` but never read it, so `Progressions.PhaseTwoPhaseScope` and `Progressions.PhaseThreePhaseScope` do not take it (src/TransitionEffect.js:109 and :193, src/usePhasedTransition.js:128 and :218).
