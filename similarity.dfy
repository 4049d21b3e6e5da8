/**
 * Cosine similarity with its two guard cases. The dot product and the squared norms are
 * sums of products; the final `dot / (sqrt(normA) * sqrt(normB))` is floating-point
 * arithmetic and is a parameter `ratio` here.
 */
module Similarity {
  /** Sum of `a[i] * b[i]` over the common length, accumulated left to right. */
  function Dot(a: seq<real>, b: seq<real>): real
    requires |a| == |b|
  {
    if a == [] then 0.0
    else Dot(a[..|a| - 1], b[..|b| - 1]) + a[|a| - 1] * b[|b| - 1]
  }

  /** The squared norm `sum(a[i] * a[i])`. */
  function SumSquares(a: seq<real>): (r: real)
    ensures r >= 0.0
  {
    if a == [] then 0.0 else SumSquares(a[..|a| - 1]) + a[|a| - 1] * a[|a| - 1]
  }

  /**
   * The zero vector has squared norm 0, so the guard catches it. (The converse holds for
   * real numbers but not for floating point, where tiny squares underflow to 0.)
   */
  lemma {:induction false} ZeroVectorHasZeroNorm(a: seq<real>)
    ensures (forall i :: 0 <= i < |a| ==> a[i] == 0.0) ==> SumSquares(a) == 0.0
  {
    if a != [] {
      var front := a[..|a| - 1];
      ZeroVectorHasZeroNorm(front);
    }
  }

  /**
   * `cosineSimilarity(a, b)`: 0 when the lengths differ or either vector is zero, otherwise
   * `ratio(dot, normA, normB)`.
   */
  function Cosine(a: seq<real>, b: seq<real>, ratio: (real, real, real) -> real): (r: real)
    ensures |a| != |b| ==> r == 0.0
    ensures (forall i :: 0 <= i < |a| ==> a[i] == 0.0) ==> r == 0.0
    ensures (forall i :: 0 <= i < |b| ==> b[i] == 0.0) ==> r == 0.0
    ensures |a| == |b| && SumSquares(a) != 0.0 && SumSquares(b) != 0.0
            ==> r == ratio(Dot(a, b), SumSquares(a), SumSquares(b))
  {
    ZeroVectorHasZeroNorm(a);
    ZeroVectorHasZeroNorm(b);
    if |a| != |b| then 0.0
    else if SumSquares(a) == 0.0 || SumSquares(b) == 0.0 then 0.0
    else ratio(Dot(a, b), SumSquares(a), SumSquares(b))
  }

  /** The accumulator loop of `cosineSimilarity`. */
  method CosineSimilarity(a: seq<real>, b: seq<real>, ratio: (real, real, real) -> real) returns (r: real)
    ensures r == Cosine(a, b, ratio)
  {
    if |a| != |b| {
      return 0.0;
    }
    var dotProduct := 0.0;
    var normA := 0.0;
    var normB := 0.0;
    var i := 0;
    while i < |a|
      invariant 0 <= i <= |a|
      invariant dotProduct == Dot(a[..i], b[..i])
      invariant normA == SumSquares(a[..i])
      invariant normB == SumSquares(b[..i])
    {
      assert a[..i + 1][..i] == a[..i] && b[..i + 1][..i] == b[..i];
      dotProduct := dotProduct + a[i] * b[i];
      normA := normA + a[i] * a[i];
      normB := normB + b[i] * b[i];
      i := i + 1;
    }
    assert a[..i] == a && b[..i] == b;
    if normA == 0.0 || normB == 0.0 {
      return 0.0;
    }
    return ratio(dotProduct, normA, normB);
  }
}
