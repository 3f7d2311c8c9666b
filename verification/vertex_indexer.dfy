/**
 * Circular neighbour indices over the vertexes of a closed contour of `n` vertexes.
 * Index 0 and index n-1 both hold the point that closes the contour, so the
 * neighbour of one end skips the other: the previous vertex of 0 is n-2 and the
 * next vertex of n-1 is 1 (a plain modulo wrap would land on the duplicate).
 */
module VertexIndexer {

  function PrevIndex(n: nat, i: nat): (p: nat)
    requires 2 <= n && i < n
    ensures p < n
    ensures 3 <= n ==> p != i
  {
    if i == 0 then n - 2 else i - 1
  }

  function NextIndex(n: nat, i: nat): (q: nat)
    requires 2 <= n && i < n
    ensures q < n
    ensures 3 <= n ==> q != i
  {
    if i == n - 1 then 1 else i + 1
  }

  /** Away from the seam the two functions undo each other. */
  lemma NeighboursInverse(n: nat, i: nat)
    requires 2 <= n && i < n
    ensures 0 < i ==> NextIndex(n, PrevIndex(n, i)) == i
    ensures i < n - 1 ==> PrevIndex(n, NextIndex(n, i)) == i
  {
  }

  /** At the seam they identify the two copies of the closing point instead. */
  lemma SeamIdentifiesClosingPoint(n: nat)
    requires 3 <= n
    ensures NextIndex(n, PrevIndex(n, 0)) == n - 1
    ensures PrevIndex(n, NextIndex(n, n - 1)) == 0
  {
  }
}
