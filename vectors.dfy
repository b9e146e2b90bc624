/** Errors raised by the numeric core. */
module Wrappers {
  datatype Error =
    | ShapeMismatch     // a flat buffer whose length is not 6 * (number of bodies)
    | IndexOutOfRange   // a body index outside the trajectory

  datatype Result<+T> = Ok(value: T) | Err(error: Error)
}

/** Three-component real vectors (positions, velocities, accelerations) and
    the element-wise operations the numeric core applies to whole arrays of them. */
module Vectors {

  datatype Vec3 = Vec3(x: real, y: real, z: real)

  const Zero: Vec3 := Vec3(0.0, 0.0, 0.0)

  function Add(a: Vec3, b: Vec3): Vec3 { Vec3(a.x + b.x, a.y + b.y, a.z + b.z) }

  function Sub(a: Vec3, b: Vec3): Vec3 { Vec3(a.x - b.x, a.y - b.y, a.z - b.z) }

  function Neg(a: Vec3): Vec3 { Vec3(-a.x, -a.y, -a.z) }

  function Scale(c: real, a: Vec3): Vec3 { Vec3(c * a.x, c * a.y, c * a.z) }

  function Dot(a: Vec3, b: Vec3): real { a.x * b.x + a.y * b.y + a.z * b.z }

  /** Component c (0 = x, 1 = y, 2 = z), the last index of an (N, 3) array. */
  function At(a: Vec3, c: nat): real
    requires c < 3
  {
    if c == 0 then a.x else if c == 1 then a.y else a.z
  }

  /** |a|^2 is never negative. */
  lemma DotSelfNonNegative(a: Vec3)
    ensures Dot(a, a) >= 0.0
  {
    assert a.x * a.x >= 0.0 && a.y * a.y >= 0.0 && a.z * a.z >= 0.0;
  }

  /** The squared distance is symmetric: |b - a|^2 == |a - b|^2. */
  lemma DistanceSymmetric(a: Vec3, b: Vec3)
    ensures Dot(Sub(b, a), Sub(b, a)) == Dot(Sub(a, b), Sub(a, b))
  {
    var d, e := Sub(b, a), Sub(a, b);
    assert e.x == -d.x && e.y == -d.y && e.z == -d.z;
    assert e.x * e.x == d.x * d.x && e.y * e.y == d.y * d.y && e.z * e.z == d.z * d.z;
  }

  // Element-wise arithmetic on arrays of vectors, as numpy does on (N, 3) arrays.

  function SeqAdd(xs: seq<Vec3>, ys: seq<Vec3>): seq<Vec3>
    requires |xs| == |ys|
  {
    seq(|xs|, i requires 0 <= i < |xs| => Add(xs[i], ys[i]))
  }

  function SeqScale(c: real, xs: seq<Vec3>): seq<Vec3>
  {
    seq(|xs|, i requires 0 <= i < |xs| => Scale(c, xs[i]))
  }

  function Zeros(n: nat): seq<Vec3>
  {
    seq(n, _ => Zero)
  }

  /** Sum of m[i] * xs[i] over the first p entries. */
  function WeightedPrefix(m: seq<real>, xs: seq<Vec3>, p: nat): Vec3
    requires p <= |xs| <= |m|
  {
    if p == 0 then Zero else Add(WeightedPrefix(m, xs, p - 1), Scale(m[p - 1], xs[p - 1]))
  }

  /** Sum of m[i] * xs[i] over all entries (mass-weighted sum). */
  function WeightedSum(m: seq<real>, xs: seq<Vec3>): Vec3
    requires |xs| == |m|
  {
    WeightedPrefix(m, xs, |xs|)
  }

  /** Sum of the first p entries of a real sequence. */
  function SumPrefix(m: seq<real>, p: nat): real
    requires p <= |m|
  {
    if p == 0 then 0.0 else SumPrefix(m, p - 1) + m[p - 1]
  }

  /** Total of a mass vector. */
  function Total(m: seq<real>): real
  {
    SumPrefix(m, |m|)
  }

  /** The weighted sum is additive in the vectors it weighs. */
  lemma {:induction false} WeightedPrefixAdd(m: seq<real>, xs: seq<Vec3>, ys: seq<Vec3>, p: nat)
    requires |xs| == |ys| <= |m| && p <= |xs|
    ensures WeightedPrefix(m, SeqAdd(xs, ys), p) == Add(WeightedPrefix(m, xs, p), WeightedPrefix(m, ys, p))
  {
    if p > 0 {
      WeightedPrefixAdd(m, xs, ys, p - 1);
      ScaleAdd(m[p - 1], xs[p - 1], ys[p - 1]);
    }
  }

  /** The weighted sum commutes with a common scale factor. */
  lemma {:induction false} WeightedPrefixScale(m: seq<real>, c: real, xs: seq<Vec3>, p: nat)
    requires |xs| <= |m| && p <= |xs|
    ensures WeightedPrefix(m, SeqScale(c, xs), p) == Scale(c, WeightedPrefix(m, xs, p))
  {
    if p > 0 {
      WeightedPrefixScale(m, c, xs, p - 1);
      ScaleDistributes(c, WeightedPrefix(m, xs, p - 1), m[p - 1], xs[p - 1]);
    }
  }

  lemma ScaleAdd(c: real, a: Vec3, b: Vec3)
    ensures Scale(c, Add(a, b)) == Add(Scale(c, a), Scale(c, b))
  {
    assert c * (a.x + b.x) == c * a.x + c * b.x;
    assert c * (a.y + b.y) == c * a.y + c * b.y;
    assert c * (a.z + b.z) == c * a.z + c * b.z;
  }

  lemma AddScales(s: real, w: real, q: Vec3)
    ensures Add(Scale(s, q), Scale(w, q)) == Scale(s + w, q)
  {
    assert s * q.x + w * q.x == (s + w) * q.x;
    assert s * q.y + w * q.y == (s + w) * q.y;
    assert s * q.z + w * q.z == (s + w) * q.z;
  }

  lemma ScaleCommute(c: real, w: real, a: Vec3)
    ensures Scale(c, Scale(w, a)) == Scale(w, Scale(c, a))
  {
    assert c * (w * a.x) == w * (c * a.x);
    assert c * (w * a.y) == w * (c * a.y);
    assert c * (w * a.z) == w * (c * a.z);
  }

  lemma ScaleDistributes(c: real, s: Vec3, w: real, a: Vec3)
    ensures Scale(c, Add(s, Scale(w, a))) == Add(Scale(c, s), Scale(w, Scale(c, a)))
  {
    ScaleAdd(c, s, Scale(w, a));
    ScaleCommute(c, w, a);
  }

  /** Weighing the same vector p everywhere gives (sum of weights) * p. */
  lemma {:induction false} WeightedPrefixConstant(m: seq<real>, xs: seq<Vec3>, p: nat, q: Vec3)
    requires p <= |xs| <= |m|
    requires forall i :: 0 <= i < |xs| ==> xs[i] == q
    ensures WeightedPrefix(m, xs, p) == Scale(SumPrefix(m, p), q)
  {
    if p > 0 {
      WeightedPrefixConstant(m, xs, p - 1, q);
      AddScales(SumPrefix(m, p - 1), m[p - 1], q);
    }
  }

  lemma WeightedSumAdd(m: seq<real>, xs: seq<Vec3>, ys: seq<Vec3>)
    requires |xs| == |ys| == |m|
    ensures WeightedSum(m, SeqAdd(xs, ys)) == Add(WeightedSum(m, xs), WeightedSum(m, ys))
  {
    WeightedPrefixAdd(m, xs, ys, |xs|);
  }

  lemma WeightedSumScale(m: seq<real>, c: real, xs: seq<Vec3>)
    requires |xs| == |m|
    ensures WeightedSum(m, SeqScale(c, xs)) == Scale(c, WeightedSum(m, xs))
  {
    WeightedPrefixScale(m, c, xs, |xs|);
  }
}
