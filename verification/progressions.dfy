/**
 * The per-vertex progression arrays each phase hands to the phase scheduler:
 * the phase-scope array (progress within the phase) and the general-scope
 * array (progress on the whole timeline, carried forward from the previous
 * phase's general-scope array).
 */
module Progressions {
  import opened Wrappers
  import opened Geometry
  import opened VertexIndexer

  /** `Array.prototype.fill(value, start, end)` on an array of numbers. */
  method Fill(a: array<real>, value: real, start: nat, end: nat)
    requires start <= end <= a.Length
    modifies a
    ensures forall k :: 0 <= k < a.Length ==> a[k] == (if start <= k < end then value else old(a[k]))
  {
    var k := start;
    while k < end
      invariant start <= k <= end
      invariant forall j :: 0 <= j < a.Length ==> a[j] == (if start <= j < k then value else old(a[j]))
    {
      a[k] := value;
      k := k + 1;
    }
  }

  // ---------------------------------------------------------------------------
  // Phase one: uniform progress.

  /** Every vertex is fully progressed within phase one. */
  method PhaseOnePhaseScope(endPath: EndPath) returns (progressions: seq<real>)
    ensures |progressions| == |endPath.vertexes|
    ensures forall k :: 0 <= k < |progressions| ==> progressions[k] == 1.0
  {
    var numOfVertexes := |endPath.vertexes|;
    var slots := new real[numOfVertexes];
    Fill(slots, 1.0, 0, numOfVertexes);
    progressions := slots[..];
  }

  /** Every vertex has covered exactly phase one's duration of the timeline. */
  method PhaseOneGeneralScope(endPath: EndPath, duration: real) returns (progressions: seq<real>)
    ensures |progressions| == |endPath.vertexes|
    ensures forall k :: 0 <= k < |progressions| ==> progressions[k] == duration
  {
    var numOfVertexes := |endPath.vertexes|;
    var slots := new real[numOfVertexes];
    Fill(slots, duration, 0, numOfVertexes);
    progressions := slots[..];
  }

  // ---------------------------------------------------------------------------
  // Length-weighted progress, vertex by vertex (phase two; phase three's values).

  /** Each vertex's progress within a length-weighted phase. */
  function PhaseScopeValues(vs: seq<Vertex>, reference: real): (r: seq<real>)
    requires NonZeroLengths(vs) && reference != 0.0
    ensures |r| == |vs|
    ensures forall k :: 0 <= k < |vs| ==> r[k] == vs[k].length / reference
  {
    seq(|vs|, k requires 0 <= k < |vs| => LengthRatio(vs[k].length, reference))
  }

  /** Each vertex's cumulative progress after a length-weighted phase. */
  function GeneralScopeValues(vs: seq<Vertex>, reference: real, duration: real, prev: seq<real>): (r: seq<real>)
    requires NonZeroLengths(vs) && reference != 0.0 && |vs| <= |prev|
    ensures |r| == |vs|
    ensures forall k :: 0 <= k < |vs| ==> r[k] == prev[k] + duration * (vs[k].length / reference)
  {
    seq(|vs|, k requires 0 <= k < |vs| => Advance(duration, vs[k].length, reference, prev[k]))
  }

  /** Vertexes no longer than the reference progress by a fraction in (0, 1]. */
  lemma PhaseScopeInUnitInterval(vs: seq<Vertex>, reference: real)
    requires 0.0 < reference
    requires forall k :: 0 <= k < |vs| ==> 0.0 < vs[k].length <= reference
    ensures NonZeroLengths(vs)
    ensures forall k :: 0 <= k < |vs| ==> 0.0 < PhaseScopeValues(vs, reference)[k] <= 1.0
  {
  }

  /** A phase of non-negative duration never moves a vertex back on the timeline. */
  lemma GeneralScopeCarriesForward(vs: seq<Vertex>, reference: real, duration: real, prev: seq<real>)
    requires forall k :: 0 <= k < |vs| ==> 0.0 < vs[k].length <= reference
    requires 0.0 < reference && 0.0 <= duration && |vs| <= |prev|
    ensures NonZeroLengths(vs)
    ensures forall k :: 0 <= k < |vs| ==>
      prev[k] <= GeneralScopeValues(vs, reference, duration, prev)[k] <= prev[k] + duration
  {
  }

  /** Phase two's phase-scope array, one push per vertex. */
  method PhaseTwoPhaseScope(endPath: EndPath) returns (progressions: seq<real>)
    requires NonZeroLengths(endPath.vertexes) && endPath.parameters.maxLength != 0.0
    ensures progressions == PhaseScopeValues(endPath.vertexes, endPath.parameters.maxLength)
  {
    progressions := [];
    var index := 0;
    while index < |endPath.vertexes|
      invariant index <= |endPath.vertexes|
      invariant progressions == PhaseScopeValues(endPath.vertexes, endPath.parameters.maxLength)[..index]
    {
      var vertex := endPath.vertexes[index];
      var maxLength := endPath.parameters.maxLength;
      var delta := maxLength / vertex.length;
      progressions := progressions + [1.0 / delta];
      index := index + 1;
    }
  }

  /** Phase two's general-scope array, one push per vertex. */
  method PhaseTwoGeneralScope(endPath: EndPath, duration: real, prevPhaseProgressions: seq<real>)
    returns (progressions: seq<real>)
    requires NonZeroLengths(endPath.vertexes) && endPath.parameters.maxLength != 0.0
    requires |endPath.vertexes| <= |prevPhaseProgressions|
    ensures progressions ==
      GeneralScopeValues(endPath.vertexes, endPath.parameters.maxLength, duration, prevPhaseProgressions)
  {
    progressions := [];
    var index := 0;
    while index < |endPath.vertexes|
      invariant index <= |endPath.vertexes|
      invariant progressions ==
        GeneralScopeValues(endPath.vertexes, endPath.parameters.maxLength, duration, prevPhaseProgressions)[..index]
    {
      var vertex := endPath.vertexes[index];
      var maxLength := endPath.parameters.maxLength;
      var delta := maxLength / vertex.length;
      progressions := progressions + [duration / delta + prevPhaseProgressions[index]];
      index := index + 1;
    }
  }

  // ---------------------------------------------------------------------------
  // Phase three: the anchor-driven sweep.
  //
  // The builder visits the vertexes in ascending order. An anchor writes both
  // neighbours' slots with their own values and then its own slot with the
  // larger of the two; an ordinary vertex fills its own slot only if no anchor
  // has written it yet. `values[k]` is the value slot k gets when written for
  // vertex k itself; the two phase-three builders differ only in `values`.

  /** The larger of an anchor's two neighbours' values (the earlier one on a tie). */
  function NeighbourMax(vs: seq<Vertex>, values: seq<real>, k: nat): (m: real)
    requires 2 <= |vs| && |values| == |vs| && k < |vs|
    ensures values[PrevIndex(|vs|, k)] <= m && values[NextIndex(|vs|, k)] <= m
    ensures m == values[PrevIndex(|vs|, k)] || m == values[NextIndex(|vs|, k)]
  {
    var p := PrevIndex(|vs|, k);
    var n := NextIndex(|vs|, k);
    if values[n] > values[p] then values[n] else values[p]
  }

  /**
   * Whether anchor k's slot, after k's own visit, is written again by an anchor
   * visited before step i: its successor k+1, or (for k == 1) the last vertex,
   * whose next neighbour wraps round to 1.
   */
  predicate RewrittenBefore(vs: seq<Vertex>, k: nat, i: nat)
    requires k < |vs| && i <= |vs|
  {
    || (k + 1 < i && vs[k + 1].group == 0)
    || (k == 1 && 2 < |vs| && |vs| - 1 < i && vs[|vs| - 1].group == 0)
  }

  /** The value slot k holds after the sweep has visited vertexes 0..i-1, if it is written at all. */
  function SlotAfter(vs: seq<Vertex>, values: seq<real>, k: nat, i: nat): real
    requires AnchorsHaveNeighbours(vs) && |values| == |vs| && k < |vs| && i <= |vs|
  {
    if vs[k].group == 0 && k < i && !RewrittenBefore(vs, k, i) then NeighbourMax(vs, values, k)
    else values[k]
  }

  /** What every slot holds once the sweep is complete. */
  function Settled(vs: seq<Vertex>, values: seq<real>): (r: seq<real>)
    requires AnchorsHaveNeighbours(vs) && |values| == |vs|
    ensures |r| == |vs|
  {
    seq(|vs|, k requires 0 <= k < |vs| => SlotAfter(vs, values, k, |vs|))
  }

  /** One step of the sweep: the visit of vertex i. */
  function Visit(vs: seq<Vertex>, values: seq<real>, slots: seq<Option<real>>, i: nat): (r: seq<Option<real>>)
    requires AnchorsHaveNeighbours(vs) && |values| == |vs| == |slots| && i < |vs|
    ensures |r| == |vs|
  {
    if vs[i].group == 0 then
      var p := PrevIndex(|vs|, i);
      var n := NextIndex(|vs|, i);
      slots[p := Some(values[p])][n := Some(values[n])][i := Some(if values[n] > values[p] then values[n] else values[p])]
    else if slots[i].None? then
      slots[i := Some(values[i])]
    else
      slots
  }

  /** The sweep's state after visiting vertexes 0..i-1: those slots are set, and every set slot holds its `SlotAfter` value. */
  ghost predicate SweptUpTo(vs: seq<Vertex>, values: seq<real>, slots: seq<Option<real>>, i: nat)
    requires AnchorsHaveNeighbours(vs) && |values| == |vs| && i <= |vs|
  {
    && |slots| == |vs|
    && forall k :: 0 <= k < |vs| ==>
         && (k < i ==> slots[k].Some?)
         && (slots[k].Some? ==> slots[k].value == SlotAfter(vs, values, k, i))
  }

  /** Visiting vertex i takes the sweep from step i to step i + 1. */
  lemma VisitAdvancesSweep(vs: seq<Vertex>, values: seq<real>, slots: seq<Option<real>>, i: nat)
    requires AnchorsHaveNeighbours(vs) && |values| == |vs| && i < |vs|
    requires SweptUpTo(vs, values, slots, i)
    ensures SweptUpTo(vs, values, Visit(vs, values, slots, i), i + 1)
  {
    var r := Visit(vs, values, slots, i);
    var n := |vs|;
    forall k | 0 <= k < n
      ensures k < i + 1 ==> r[k].Some?
      ensures r[k].Some? ==> r[k].value == SlotAfter(vs, values, k, i + 1)
    {
      if vs[i].group == 0 {
        var p := PrevIndex(n, i);
        var q := NextIndex(n, i);
        if k == i {
          assert !RewrittenBefore(vs, k, i + 1);
        } else if k == q {
          if i == n - 1 {
            assert k == 1 && 2 < n;
            assert vs[k].group == 0 ==> RewrittenBefore(vs, k, i + 1);
          } else {
            assert k == i + 1;
          }
        } else if k == p {
          if i == 0 {
            assert k == n - 2 && i + 1 <= k;
          } else {
            assert k + 1 == i;
            assert vs[k].group == 0 ==> RewrittenBefore(vs, k, i + 1);
          }
        } else {
          assert r[k] == slots[k];
          assert RewrittenBefore(vs, k, i + 1) == RewrittenBefore(vs, k, i);
        }
      } else {
        if k == i {
        } else {
          assert r[k] == slots[k];
          assert RewrittenBefore(vs, k, i + 1) == RewrittenBefore(vs, k, i);
        }
      }
    }
  }

  /**
   * When an anchor is visited its slot gets the larger of the two neighbour
   * values just written. With two vertexes anchor 0 is its own previous
   * neighbour, so that neighbour's slot is the anchor's slot.
   */
  lemma AnchorVisitTakesLarger(vs: seq<Vertex>, values: seq<real>, slots: seq<Option<real>>, i: nat)
    requires AnchorsHaveNeighbours(vs) && |values| == |vs| == |slots| && i < |vs|
    requires vs[i].group == 0
    ensures var r := Visit(vs, values, slots, i);
      && r[PrevIndex(|vs|, i)].Some? && r[NextIndex(|vs|, i)].Some? && r[i].Some?
      && r[PrevIndex(|vs|, i)].value <= r[i].value
      && r[NextIndex(|vs|, i)].value <= r[i].value
      && (r[i].value == r[PrevIndex(|vs|, i)].value || r[i].value == r[NextIndex(|vs|, i)].value)
      && r[i].value == NeighbourMax(vs, values, i)
  {
  }

  /** The sweep after its last step holds the settled values. */
  lemma SweptIsSettled(vs: seq<Vertex>, values: seq<real>, slots: seq<Option<real>>)
    requires AnchorsHaveNeighbours(vs) && |values| == |vs|
    requires SweptUpTo(vs, values, slots, |vs|)
    ensures forall k :: 0 <= k < |vs| ==> slots[k] == Some(Settled(vs, values)[k])
  {
  }

  /** Phase three's phase-scope array, relative to the longest ordinary vertex. */
  method PhaseThreePhaseScope(endPath: EndPath) returns (progressions: seq<real>)
    requires AnchorsHaveNeighbours(endPath.vertexes) && NonZeroLengths(endPath.vertexes)
    requires |endPath.parameters.maxLengthByGroup| > 1 && endPath.parameters.maxLengthByGroup[1] != 0.0
    ensures progressions ==
      Settled(endPath.vertexes, PhaseScopeValues(endPath.vertexes, endPath.parameters.maxLengthByGroup[1]))
  {
    var vertexes := endPath.vertexes;
    var maxLength := endPath.parameters.maxLengthByGroup[1];
    ghost var values := PhaseScopeValues(vertexes, maxLength);
    var slots: seq<Option<real>> := seq(|vertexes|, _ => None);
    for i := 0 to |vertexes|
      invariant SweptUpTo(vertexes, values, slots, i)
    {
      ghost var before := slots;
      var vertex := vertexes[i];
      if vertex.group == 0 {
        var prevIndex := if i == 0 then |vertexes| - 2 else i - 1;
        var nextIndex := if i == |vertexes| - 1 then 1 else i + 1;
        var prevDelta := maxLength / vertexes[prevIndex].length;
        var nextDelta := maxLength / vertexes[nextIndex].length;
        var prevProgression := 1.0 / prevDelta;
        var nextProgression := 1.0 / nextDelta;
        slots := slots[prevIndex := Some(prevProgression)];
        slots := slots[nextIndex := Some(nextProgression)];
        slots := slots[i := Some(if nextProgression > prevProgression then nextProgression else prevProgression)];
      } else if slots[i].None? {
        var delta := maxLength / vertex.length;
        slots := slots[i := Some(1.0 / delta)];
      }
      assert slots == Visit(vertexes, values, before, i);
      VisitAdvancesSweep(vertexes, values, before, i);
    }
    SweptIsSettled(vertexes, values, slots);
    progressions := seq(|vertexes|, k requires 0 <= k < |vertexes| => slots[k].value);
  }

  /** Phase three's general-scope array, relative to the longest ordinary vertex. */
  method PhaseThreeGeneralScope(endPath: EndPath, duration: real, prevPhaseProgressions: seq<real>)
    returns (progressions: seq<real>)
    requires AnchorsHaveNeighbours(endPath.vertexes) && NonZeroLengths(endPath.vertexes)
    requires |endPath.parameters.maxLengthByGroup| > 1 && endPath.parameters.maxLengthByGroup[1] != 0.0
    requires |endPath.vertexes| <= |prevPhaseProgressions|
    ensures progressions ==
      Settled(endPath.vertexes,
              GeneralScopeValues(endPath.vertexes, endPath.parameters.maxLengthByGroup[1], duration, prevPhaseProgressions))
  {
    var vertexes := endPath.vertexes;
    var maxLength := endPath.parameters.maxLengthByGroup[1];
    ghost var values := GeneralScopeValues(vertexes, maxLength, duration, prevPhaseProgressions);
    var slots: seq<Option<real>> := seq(|vertexes|, _ => None);
    for i := 0 to |vertexes|
      invariant SweptUpTo(vertexes, values, slots, i)
    {
      ghost var before := slots;
      var vertex := vertexes[i];
      if vertex.group == 0 {
        var prevIndex := if i == 0 then |vertexes| - 2 else i - 1;
        var nextIndex := if i == |vertexes| - 1 then 1 else i + 1;
        var prevDelta := maxLength / vertexes[prevIndex].length;
        var nextDelta := maxLength / vertexes[nextIndex].length;
        var prevProgression := duration / prevDelta + prevPhaseProgressions[prevIndex];
        var nextProgression := duration / nextDelta + prevPhaseProgressions[nextIndex];
        slots := slots[prevIndex := Some(prevProgression)];
        slots := slots[nextIndex := Some(nextProgression)];
        slots := slots[i := Some(if nextProgression > prevProgression then nextProgression else prevProgression)];
      } else if slots[i].None? {
        var delta := maxLength / vertex.length;
        slots := slots[i := Some(duration / delta + prevPhaseProgressions[i])];
      }
      assert slots == Visit(vertexes, values, before, i);
      VisitAdvancesSweep(vertexes, values, before, i);
    }
    SweptIsSettled(vertexes, values, slots);
    progressions := seq(|vertexes|, k requires 0 <= k < |vertexes| => slots[k].value);
  }

  // ---------------------------------------------------------------------------
  // What the completed sweep leaves in each slot.

  /**
   * An anchor ends with the larger neighbour value unless a later anchor
   * rewrites its slot, in which case it ends with its own value.
   */
  lemma SettledAnchor(vs: seq<Vertex>, values: seq<real>, k: nat)
    requires AnchorsHaveNeighbours(vs) && |values| == |vs| && k < |vs| && vs[k].group == 0
    ensures RewrittenBefore(vs, k, |vs|) ==> Settled(vs, values)[k] == values[k]
    ensures !RewrittenBefore(vs, k, |vs|) ==>
      && values[PrevIndex(|vs|, k)] <= Settled(vs, values)[k]
      && values[NextIndex(|vs|, k)] <= Settled(vs, values)[k]
      && (Settled(vs, values)[k] == values[PrevIndex(|vs|, k)] || Settled(vs, values)[k] == values[NextIndex(|vs|, k)])
  {
  }

  /**
   * An ordinary vertex ends phase three with its own length-weighted value,
   * whether a neighbouring anchor or its own visit wrote it: progress
   * `length / reference` within the phase, and on the timeline that fraction
   * of the phase's duration added to its previous progress, which it
   * therefore never falls below. Only a vertex no longer than the reference
   * (any vertex of group 1) stays within (0, 1] and within the phase's duration.
   */
  lemma PhaseThreeOrdinaryVertex(vs: seq<Vertex>, reference: real, duration: real, prev: seq<real>, k: nat)
    requires AnchorsHaveNeighbours(vs) && forall j :: 0 <= j < |vs| ==> 0.0 < vs[j].length
    requires 0.0 < reference && 0.0 <= duration && |vs| <= |prev|
    requires k < |vs| && vs[k].group != 0
    ensures NonZeroLengths(vs)
    ensures Settled(vs, PhaseScopeValues(vs, reference))[k] == vs[k].length / reference
    ensures 0.0 < Settled(vs, PhaseScopeValues(vs, reference))[k]
    ensures Settled(vs, GeneralScopeValues(vs, reference, duration, prev))[k] == prev[k] + duration * (vs[k].length / reference)
    ensures prev[k] <= Settled(vs, GeneralScopeValues(vs, reference, duration, prev))[k]
    ensures vs[k].length <= reference ==>
      && Settled(vs, PhaseScopeValues(vs, reference))[k] <= 1.0
      && Settled(vs, GeneralScopeValues(vs, reference, duration, prev))[k] <= prev[k] + duration
  {
    assert 0.0 < vs[k].length;
  }
}
