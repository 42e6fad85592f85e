/** The vertex-angle computation of utils/pose_utils.py (`calculate_angle`).

    Points are the integer pixel points the callers pass. The difference vectors, the dot
    product and the squared norms are kept exact; the two floating-point steps (the quotient
    dot / (|BA| * |BC|) in float32, and arccos converted to degrees) are supplied by the caller
    as a `Numerics` value, of which only the range of arccos is assumed. */
module Geometry {

  import opened Wrappers

  datatype Point = Point(x: int, y: int)

  const Origin := Point(0, 0)

  /** The vector from `q` to `p`. */
  function Sub(p: Point, q: Point): (v: Point)
    ensures v == Origin <==> p == q
    ensures Point(q.x + v.x, q.y + v.y) == p
  {
    Point(p.x - q.x, p.y - q.y)
  }

  function Dot(u: Point, v: Point): int {
    u.x * v.x + u.y * v.y
  }

  function NormSq(v: Point): (n: int)
    ensures n >= 0
  {
    v.x * v.x + v.y * v.y
  }

  /** The floating-point part of the computation, left abstract.
      `cosine(d, p, q)` is the float32 value of d / (sqrt(p) * sqrt(q)), and
      `acosDegrees(t)` is np.degrees(np.arccos(t)). Taking the quotient as a function of the
      exact dot product and squared norms is faithful while every component product is exact in
      float32, which holds for pixel coordinates below 4096 (products below 2^24). */
  datatype Numerics = Numerics(cosine: (int, int, int) -> real, acosDegrees: real -> real)

  /** arccos in degrees maps [-1, 1] into [0, 180]; this is all the model assumes of it. */
  ghost predicate AcosInRange(acosDegrees: real -> real) {
    forall t :: -1.0 <= t <= 1.0 ==> 0.0 <= acosDegrees(t) <= 180.0
  }

  /** The float product |BA| * |BC| does not depend on the order of its factors. */
  ghost predicate CosineSymmetric(cosine: (int, int, int) -> real) {
    forall d, p, q :: cosine(d, p, q) == cosine(d, q, p)
  }

  /** np.clip on a scalar. */
  function Clamp(t: real, lo: real, hi: real): (r: real)
    requires lo <= hi
    ensures lo <= r <= hi
    ensures lo <= t <= hi ==> r == t
    ensures t < lo ==> r == lo
    ensures hi < t ==> r == hi
  {
    if t < lo then lo else if hi < t then hi else t
  }

  lemma SquareZero(a: int)
    ensures a * a >= 0
    ensures a * a == 0 <==> a == 0
  {
    if a > 0 {
      assert a * a >= a;
    } else if a < 0 {
      assert a * a == (-a) * (-a) >= -a;
    }
  }

  lemma NormSqZero(v: Point)
    ensures NormSq(v) == 0 <==> v == Origin
  {
    SquareZero(v.x);
    SquareZero(v.y);
  }

  lemma ProductZero(p: int, q: int)
    requires p >= 0 && q >= 0
    ensures p * q == 0 <==> p == 0 || q == 0
  {
    if p > 0 && q > 0 {
      assert p * q == (p - 1) * q + q;
      assert (p - 1) * q >= 0;
    }
  }

  /** The degeneracy test of `calculate_angle`: the product of the two norms is zero exactly
      when one of the two vectors is the zero vector. Stated on squared norms, whose product
      is zero exactly when the product of the norms is. */
  lemma DenominatorZero(u: Point, v: Point)
    ensures NormSq(u) * NormSq(v) == 0 <==> u == Origin || v == Origin
  {
    NormSqZero(u);
    NormSqZero(v);
    ProductZero(NormSq(u), NormSq(v));
  }

  /** Cauchy-Schwarz on integer vectors: the exact quotient dot / (|u| * |v|) already lies in
      [-1, 1], so the clamp only absorbs rounding of the float computation. This justifies the
      clamp; no other contract depends on it, since the float quotient `num.cosine` is abstract. */
  lemma CauchySchwarz(u: Point, v: Point)
    ensures Dot(u, v) * Dot(u, v) <= NormSq(u) * NormSq(v)
  {
    var w := u.x * v.y - u.y * v.x;
    SquareZero(w);
    assert NormSq(u) * NormSq(v) == Dot(u, v) * Dot(u, v) + w * w;
  }

  /** `calculate_angle(a, b, c)`: the angle at vertex `b` between BA and BC, in degrees,
      or None when BA or BC is the zero vector. */
  function CalculateAngle(num: Numerics, a: Point, b: Point, c: Point): (r: Option<real>)
    requires AcosInRange(num.acosDegrees)
    ensures r.None? <==> a == b || c == b
    ensures r.Some? ==> 0.0 <= r.value <= 180.0
  {
    var ba := Sub(a, b);
    var bc := Sub(c, b);
    DenominatorZero(ba, bc);
    if NormSq(ba) * NormSq(bc) == 0 then None
    else
      var cosAngle := Clamp(num.cosine(Dot(ba, bc), NormSq(ba), NormSq(bc)), -1.0, 1.0);
      Some(num.acosDegrees(cosAngle))
  }

  /** Whatever the float quotient evaluates to, the value handed to arccos is the clamped one. */
  lemma AngleIsArccosOfClampedCosine(num: Numerics, a: Point, b: Point, c: Point)
    requires AcosInRange(num.acosDegrees)
    requires a != b && c != b
    ensures exists t :: -1.0 <= t <= 1.0 && CalculateAngle(num, a, b, c) == Some(num.acosDegrees(t))
  {
    var ba, bc := Sub(a, b), Sub(c, b);
    var t := Clamp(num.cosine(Dot(ba, bc), NormSq(ba), NormSq(bc)), -1.0, 1.0);
    assert CalculateAngle(num, a, b, c) == Some(num.acosDegrees(t));
  }

  /** Swapping the two outer points gives the same result: only the dot product and the
      product of the norms are used, and both are symmetric. */
  lemma CalculateAngleSymmetric(num: Numerics, a: Point, b: Point, c: Point)
    requires AcosInRange(num.acosDegrees)
    requires CosineSymmetric(num.cosine)
    ensures CalculateAngle(num, a, b, c) == CalculateAngle(num, c, b, a)
  {
    var ba, bc := Sub(a, b), Sub(c, b);
    assert Dot(ba, bc) == Dot(bc, ba);
    assert num.cosine(Dot(ba, bc), NormSq(ba), NormSq(bc)) == num.cosine(Dot(bc, ba), NormSq(bc), NormSq(ba));
  }
}
