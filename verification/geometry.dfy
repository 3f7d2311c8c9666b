/**
 * The end contour as the phases see it: its vertexes and the length extrema
 * the contour builder reports for it.
 */
module Geometry {

  /**
   * One vertex of the end contour: its position in the circular sequence, its
   * group (0 marks an anchor shared by two segments, any other value an
   * ordinary vertex) and its length, the magnitude progress is weighted by.
   */
  datatype Vertex = Vertex(index: nat, group: nat, length: real)

  /** `maxLengthByGroup[g]` is the largest length among the vertexes of group `g`. */
  datatype PathParameters = PathParameters(minLength: real, maxLength: real, maxLengthByGroup: seq<real>)

  datatype EndPath = EndPath(vertexes: seq<Vertex>, parameters: PathParameters)

  /** Every length can be divided by: the builders compute `maxLength / vertex.length`. */
  predicate NonZeroLengths(vs: seq<Vertex>)
  {
    forall k :: 0 <= k < |vs| ==> vs[k].length != 0.0
  }

  /** An anchor reads `vertexes[n - 2]` and `vertexes[1]`, which exist only when n >= 2. */
  predicate AnchorsHaveNeighbours(vs: seq<Vertex>)
  {
    forall k :: 0 <= k < |vs| && vs[k].group == 0 ==> 2 <= |vs|
  }

  /**
   * What the contour builder guarantees of an end path: positive lengths
   * bounded by the reported extrema, and a positive maximum for group 1, the
   * reference of phase three. `maxLengthByGroup[1]` bounds the vertexes of
   * group 1 only: with more than two groups an ordinary vertex of another
   * group may be longer.
   */
  predicate WellFormed(path: EndPath)
  {
    var vs := path.vertexes;
    var ps := path.parameters;
    && 0.0 < ps.minLength <= ps.maxLength
    && |ps.maxLengthByGroup| > 1 && 0.0 < ps.maxLengthByGroup[1]
    && AnchorsHaveNeighbours(vs)
    && (forall k :: 0 <= k < |vs| ==> ps.minLength <= vs[k].length <= ps.maxLength)
    && (forall k :: 0 <= k < |vs| && vs[k].group == 1 ==> vs[k].length <= ps.maxLengthByGroup[1])
  }

  /**
   * A vertex's progress within a length-weighted phase: one over the ratio of
   * the reference length to the vertex's own length.
   */
  function LengthRatio(length: real, reference: real): (r: real)
    requires length != 0.0 && reference != 0.0
    ensures r == length / reference
    ensures 0.0 < length <= reference ==> 0.0 < r <= 1.0
  {
    var delta := reference / length;
    1.0 / delta
  }

  /**
   * A vertex's cumulative progress after a length-weighted phase of the given
   * duration, carried forward from its progress before that phase.
   */
  function Advance(duration: real, length: real, reference: real, previous: real): (r: real)
    requires length != 0.0 && reference != 0.0
    ensures r == previous + duration * (length / reference)
    ensures 0.0 <= duration && 0.0 < length <= reference ==> previous <= r <= previous + duration
  {
    var delta := reference / length;
    duration / delta + previous
  }

  /** In a well-formed path every length is positive and no longer than the maximum of its kind. */
  lemma WellFormedLengths(path: EndPath)
    requires WellFormed(path)
    ensures NonZeroLengths(path.vertexes)
    ensures forall k :: 0 <= k < |path.vertexes| ==> 0.0 < path.vertexes[k].length <= path.parameters.maxLength
    ensures forall k :: 0 <= k < |path.vertexes| && path.vertexes[k].group == 1 ==>
      path.vertexes[k].length <= path.parameters.maxLengthByGroup[1]
  {
  }
}
