/**
 * The sums the similarity code accumulates over two embeddings of the same length, defined
 * in the order the loops add them up (index 0 first, so the last term is added last).
 * `float64` is `real`: rounding is not modelled.
 */
module Vectors {

  /** The dot product `a[0]*b[0] + ... + a[n-1]*b[n-1]`; `Dot(a, a)` is the squared norm. */
  function Dot(a: seq<real>, b: seq<real>): real
    requires |a| == |b|
  {
    if a == [] then 0.0 else Dot(a[..|a| - 1], b[..|b| - 1]) + a[|a| - 1] * b[|b| - 1]
  }

  /** The squared Euclidean distance `(a[0]-b[0])^2 + ... + (a[n-1]-b[n-1])^2`. */
  function SquaredDistance(a: seq<real>, b: seq<real>): real
    requires |a| == |b|
  {
    if a == [] then 0.0
    else
      var d := a[|a| - 1] - b[|b| - 1];
      SquaredDistance(a[..|a| - 1], b[..|b| - 1]) + d * d
  }

  /** A real square is never negative. */
  lemma {:induction false} Square(x: real)
    ensures x * x >= 0.0
  {
    if x < 0.0 {
      var y := -x;
      assert y * y > 0.0;
      assert x * x == y * y;
    }
  }

  lemma {:induction false} DotSymmetric(a: seq<real>, b: seq<real>)
    requires |a| == |b|
    ensures Dot(a, b) == Dot(b, a)
  {
    if a != [] {
      DotSymmetric(a[..|a| - 1], b[..|b| - 1]);
    }
  }

  /** A squared norm is never negative, and the zero vector's is zero. */
  lemma {:induction false} SquaredNorm(a: seq<real>)
    ensures Dot(a, a) >= 0.0
    ensures (forall k :: 0 <= k < |a| ==> a[k] == 0.0) ==> Dot(a, a) == 0.0
  {
    if a != [] {
      var init, last := a[..|a| - 1], a[|a| - 1];
      SquaredNorm(init);
      Square(last);
      assert (forall k :: 0 <= k < |a| ==> a[k] == 0.0) ==>
        (forall k :: 0 <= k < |init| ==> init[k] == 0.0) && last == 0.0;
    }
  }

  lemma {:induction false} SquaredDistanceSymmetric(a: seq<real>, b: seq<real>)
    requires |a| == |b|
    ensures SquaredDistance(a, b) == SquaredDistance(b, a)
  {
    if a != [] {
      SquaredDistanceSymmetric(a[..|a| - 1], b[..|b| - 1]);
      var d := a[|a| - 1] - b[|b| - 1];
      assert d * d == (-d) * (-d);
    }
  }

  /** A squared distance is never negative, and it is zero from a vector to itself. */
  lemma {:induction false} SquaredDistanceBounds(a: seq<real>, b: seq<real>)
    requires |a| == |b|
    ensures SquaredDistance(a, b) >= 0.0
    ensures a == b ==> SquaredDistance(a, b) == 0.0
  {
    if a != [] {
      SquaredDistanceBounds(a[..|a| - 1], b[..|b| - 1]);
      Square(a[|a| - 1] - b[|b| - 1]);
    }
  }
}
