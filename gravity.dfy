/** The pairwise gravitational acceleration kernel (`accelerazioni`).

    The kernel divides by distance^3, where distance = sqrt(|r_j - r_i|^2 + eps^2).
    Dafny has no real square root, so every operation here takes `inv3`, the map
    q |-> 1 / sqrt(q)^3 applied to the softened squared distance q; nothing is
    assumed about its values. */
module Gravity {
  import opened Vectors

  /** Acceleration that a body of mass mj at rj gives a body at ri:
      G mj (rj - ri) / distance^3. */
  function PullOf(ri: Vec3, rj: Vec3, mj: real, G: real, eps: real, inv3: real -> real): (p: Vec3)
    ensures G == 0.0 || mj == 0.0 ==> p == Zero
  {
    var diff := Sub(rj, ri);
    Scale(Coupling(G, mj, inv3(Dot(diff, diff) + eps * eps)), diff)
  }

  /** The scalar G * mj / distance^3 that multiplies the separation. */
  function Coupling(G: real, mj: real, k: real): real
  {
    G * mj * k
  }

  /** Contribution of body j to the acceleration of body i. */
  function Pull(r: seq<Vec3>, m: seq<real>, G: real, eps: real, inv3: real -> real, i: nat, j: nat): Vec3
    requires i < |r| && j < |r| && |r| <= |m|
  {
    PullOf(r[i], r[j], m[j], G, eps, inv3)
  }

  /** What `a[i]` holds after the inner loop has visited j = 0 .. k-1: the pulls
      of every visited j other than i, added in visiting order. */
  function PartialAccel(r: seq<Vec3>, m: seq<real>, G: real, eps: real, inv3: real -> real, i: nat, k: nat): (a: Vec3)
    requires i < |r| && k <= |r| <= |m|
    ensures G == 0.0 ==> a == Zero
  {
    if k == 0 then Zero
    else if k - 1 != i then Add(PartialAccel(r, m, G, eps, inv3, i, k - 1), Pull(r, m, G, eps, inv3, i, k - 1))
    else PartialAccel(r, m, G, eps, inv3, i, k - 1)
  }

  /** The acceleration of every body: a_i = sum over j != i of Pull(i, j). */
  function Accel(r: seq<Vec3>, m: seq<real>, G: real, eps: real, inv3: real -> real): (a: seq<Vec3>)
    requires |r| <= |m|
    ensures |a| == |r|
  {
    seq(|r|, i requires 0 <= i < |r| => PartialAccel(r, m, G, eps, inv3, i, |r|))
  }

  /** `accelerazioni(r, m, G, eps)`: a zero-filled array of one vector per body,
      into which a double loop adds every pull except a body's pull on itself. */
  method Accelerations(r: seq<Vec3>, m: seq<real>, G: real, eps: real, inv3: real -> real) returns (acc: seq<Vec3>)
    requires |r| <= |m|
    ensures |acc| == |r|
    ensures acc == Accel(r, m, G, eps, inv3)
  {
    var n := |r|;
    var a := new Vec3[n](_ => Zero);
    for i := 0 to n
      invariant forall p :: 0 <= p < i ==> a[p] == PartialAccel(r, m, G, eps, inv3, p, n)
      invariant forall p :: i <= p < n ==> a[p] == Zero
    {
      AddPulls(a, r, m, G, eps, inv3, i);
    }
    acc := a[..];
  }

  /** The inner loop of `accelerazioni` for body i: add the pull of every
      other body j to a[i], which starts at zero; no other entry changes. */
  method AddPulls(a: array<Vec3>, r: seq<Vec3>, m: seq<real>, G: real, eps: real, inv3: real -> real, i: nat)
    requires a.Length == |r| && i < |r| <= |m| && a[i] == Zero
    modifies a
    ensures a[..] == old(a[..])[i := PartialAccel(r, m, G, eps, inv3, i, |r|)]
  {
    ghost var a0 := a[..];
    for j := 0 to |r|
      invariant a[..] == a0[i := PartialAccel(r, m, G, eps, inv3, i, j)]
    {
      if i != j {
        var diff := Sub(r[j], r[i]);
        var distSq := Dot(diff, diff) + eps * eps;
        a[i] := Add(a[i], Scale(Coupling(G, m[j], inv3(distSq)), diff));
      }
    }
  }

  /** A body feels nothing from sources that exert no pull: if G == 0 or m_j == 0 for
      every other body j (a lone body, G = 0, or massless companions), a_i is zero. */
  lemma {:induction false} PartialAccelNoSources(r: seq<Vec3>, m: seq<real>, G: real, eps: real, inv3: real -> real, i: nat, k: nat)
    requires i < |r| && k <= |r| <= |m|
    requires forall j :: 0 <= j < |r| && j != i ==> G == 0.0 || m[j] == 0.0
    ensures PartialAccel(r, m, G, eps, inv3, i, k) == Zero
  {
    if k > 0 {
      PartialAccelNoSources(r, m, G, eps, inv3, i, k - 1);
      if k - 1 != i {
        var diff := Sub(r[k - 1], r[i]);
        ScaleByZero(G, m[k - 1], inv3(Dot(diff, diff) + eps * eps), diff);
      }
    }
  }

  lemma ScaleByZero(G: real, mj: real, k: real, v: Vec3)
    requires G == 0.0 || mj == 0.0
    ensures Scale(Coupling(G, mj, k), v) == Zero
  {
  }

  lemma AccelNoSources(r: seq<Vec3>, m: seq<real>, G: real, eps: real, inv3: real -> real, i: nat)
    requires i < |r| <= |m|
    requires forall j :: 0 <= j < |r| && j != i ==> G == 0.0 || m[j] == 0.0
    ensures Accel(r, m, G, eps, inv3)[i] == Zero
  {
    PartialAccelNoSources(r, m, G, eps, inv3, i, |r|);
  }

  /** No body is accelerated when there is a single body or G is zero. */
  predicate ForceFree(m: seq<real>, G: real)
  {
    |m| <= 1 || G == 0.0
  }

  lemma AccelForceFree(r: seq<Vec3>, m: seq<real>, G: real, eps: real, inv3: real -> real)
    requires |r| == |m| && ForceFree(m, G)
    ensures Accel(r, m, G, eps, inv3) == Zeros(|r|)
  {
    forall i | 0 <= i < |r|
      ensures Accel(r, m, G, eps, inv3)[i] == Zero
    {
      AccelNoSources(r, m, G, eps, inv3, i);
    }
  }

  /** With a non-zero softening length the self-distance is eps^2 > 0, so the
      self-term would be finite and add exactly the zero vector (its direction
      r_i - r_i is zero). With eps = 0 the self-distance is 0 and the term
      would be 0 / 0: there the `i != j` guard is what keeps it out. */
  lemma SelfPullVanishes(r: seq<Vec3>, m: seq<real>, G: real, eps: real, inv3: real -> real, i: nat)
    requires eps != 0.0
    requires i < |r| <= |m|
    ensures Pull(r, m, G, eps, inv3, i, i) == Zero
  {
  }

  // Momentum balance: sum over i of m_i a_i is zero (Newton's third law).

  /** Sum over j < k of f(i, j). */
  function RowSum(f: (nat, nat) -> Vec3, i: nat, k: nat): Vec3
  {
    if k == 0 then Zero else Add(RowSum(f, i, k - 1), f(i, k - 1))
  }

  /** Sum over i < k of f(i, j). */
  function ColSum(f: (nat, nat) -> Vec3, j: nat, k: nat): Vec3
  {
    if k == 0 then Zero else Add(ColSum(f, j, k - 1), f(k - 1, j))
  }

  /** Sum over i < p and j < k of f(i, j), row by row. */
  function GridSum(f: (nat, nat) -> Vec3, p: nat, k: nat): Vec3
  {
    if p == 0 then Zero else Add(GridSum(f, p - 1, k), RowSum(f, p - 1, k))
  }

  lemma {:induction false} GridSumExtend(f: (nat, nat) -> Vec3, p: nat, k: nat)
    ensures GridSum(f, p, k + 1) == Add(GridSum(f, p, k), ColSum(f, k, p))
  {
    if p > 0 {
      GridSumExtend(f, p - 1, k);
    }
  }

  lemma {:induction false} ColumnOpposesRow(f: (nat, nat) -> Vec3, n: nat, k: nat)
    requires k <= n
    requires forall i: nat, j: nat :: i <= n && j <= n ==> f(i, j) == Neg(f(j, i))
    ensures ColSum(f, n, k) == Neg(RowSum(f, n, k))
  {
    if k > 0 {
      ColumnOpposesRow(f, n, k - 1);
    }
  }

  /** The total of an antisymmetric interaction over all ordered pairs is zero. */
  lemma {:induction false} AntisymmetricGridSum(f: (nat, nat) -> Vec3, n: nat)
    requires forall i: nat, j: nat :: i < n && j < n ==> f(i, j) == Neg(f(j, i))
    ensures GridSum(f, n, n) == Zero
  {
    if n > 0 {
      var k := n - 1;
      AntisymmetricGridSum(f, k);
      GridSumExtend(f, k, k);
      ColumnOpposesRow(f, k, k);
      assert f(k, k) == Neg(f(k, k));
    }
  }

  /** m_i times the pull of j on i; zero on the diagonal and outside the system. */
  function Interaction(r: seq<Vec3>, m: seq<real>, G: real, eps: real, inv3: real -> real, i: nat, j: nat): Vec3
  {
    if |r| <= |m| && i < |r| && j < |r| && i != j then Scale(m[i], Pull(r, m, G, eps, inv3, i, j)) else Zero
  }

  lemma InteractionAntisymmetric(r: seq<Vec3>, m: seq<real>, G: real, eps: real, inv3: real -> real, i: nat, j: nat)
    ensures Interaction(r, m, G, eps, inv3, i, j) == Neg(Interaction(r, m, G, eps, inv3, j, i))
  {
    if |r| <= |m| && i < |r| && j < |r| && i != j {
      ActionReaction(r[i], r[j], m[i], m[j], G, eps, inv3);
    }
  }

  /** Newton's third law for one pair: m_i * (pull of j on i) == -(m_j * (pull of i on j)). */
  lemma ActionReaction(ri: Vec3, rj: Vec3, mi: real, mj: real, G: real, eps: real, inv3: real -> real)
    ensures Scale(mi, PullOf(ri, rj, mj, G, eps, inv3)) == Neg(Scale(mj, PullOf(rj, ri, mi, G, eps, inv3)))
  {
    var d, e := Sub(rj, ri), Sub(ri, rj);
    DistanceSymmetric(ri, rj);
    var k := inv3(Dot(d, d) + eps * eps);
    assert inv3(Dot(e, e) + eps * eps) == k;
    OpposedPulls(mi, mj, G, k, d, e);
  }

  lemma OpposedPulls(mi: real, mj: real, G: real, k: real, d: Vec3, e: Vec3)
    requires e == Neg(d)
    ensures Scale(mi, Scale(Coupling(G, mj, k), d)) == Neg(Scale(mj, Scale(Coupling(G, mi, k), e)))
  {
    var a, b := Coupling(G, mj, k), Coupling(G, mi, k);
    assert mi * a == mj * b;
    OpposedComponent(mi, a, mj, b, d.x);
    OpposedComponent(mi, a, mj, b, d.y);
    OpposedComponent(mi, a, mj, b, d.z);
  }

  lemma OpposedComponent(mi: real, a: real, mj: real, b: real, t: real)
    requires mi * a == mj * b
    ensures mi * (a * t) == -(mj * (b * -t))
  {
    assert mi * (a * t) == (mi * a) * t;
    assert mj * (b * -t) == -((mj * b) * t);
  }

  /** m_i * a_i, accumulated like a_i itself. */
  lemma {:induction false} ScaledPartialAccel(r: seq<Vec3>, m: seq<real>, G: real, eps: real, inv3: real -> real, i: nat, k: nat)
    requires i < |r| && k <= |r| <= |m|
    ensures Scale(m[i], PartialAccel(r, m, G, eps, inv3, i, k))
         == RowSum((p: nat, q: nat) => Interaction(r, m, G, eps, inv3, p, q), i, k)
  {
    if k > 0 {
      ScaledPartialAccel(r, m, G, eps, inv3, i, k - 1);
      if k - 1 != i {
        ScaleAdd(m[i], PartialAccel(r, m, G, eps, inv3, i, k - 1), Pull(r, m, G, eps, inv3, i, k - 1));
      }
    }
  }

  lemma {:induction false} WeightedAccelIsGridSum(r: seq<Vec3>, m: seq<real>, G: real, eps: real, inv3: real -> real, p: nat)
    requires p <= |r| <= |m|
    ensures WeightedPrefix(m, Accel(r, m, G, eps, inv3), p)
         == GridSum((i: nat, j: nat) => Interaction(r, m, G, eps, inv3, i, j), p, |r|)
  {
    if p > 0 {
      WeightedAccelIsGridSum(r, m, G, eps, inv3, p - 1);
      ScaledPartialAccel(r, m, G, eps, inv3, p - 1, |r|);
    }
  }

  /** Momentum balance: the mass-weighted sum of the accelerations is zero,
      because the pull of j on i and of i on j are equal and opposite. */
  lemma MomentumBalance(r: seq<Vec3>, m: seq<real>, G: real, eps: real, inv3: real -> real)
    requires |r| == |m|
    ensures WeightedSum(m, Accel(r, m, G, eps, inv3)) == Zero
  {
    var f := (i: nat, j: nat) => Interaction(r, m, G, eps, inv3, i, j);
    forall i: nat, j: nat | i < |r| && j < |r|
      ensures f(i, j) == Neg(f(j, i))
    {
      InteractionAntisymmetric(r, m, G, eps, inv3, i, j);
    }
    AntisymmetricGridSum(f, |r|);
    WeightedAccelIsGridSum(r, m, G, eps, inv3, |r|);
  }
}
