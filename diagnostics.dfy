/** Diagnostics computed from a trajectory: the barycentre of every row
    (`baricentro`), the radial velocity of one body along a line of sight
    (`radial_velocity`) and the total energy of every row (`energia_totale`).
    A trajectory is a sequence of rows, one per time point, each holding one
    vector per body. */
module Diagnostics {
  import opened Wrappers
  import opened Vectors
  import opened StateVector
  import opened Integrators

  // ---------------------------------------------------------------------------
  // Barycentre

  /** Reciprocal of the total mass. */
  function InverseTotal(m: seq<real>): (w: real)
    requires Total(m) != 0.0
    ensures w * Total(m) == 1.0
  {
    1.0 / Total(m)
  }

  /** Scaling by w and then by its reciprocal c gives the vector back. */
  lemma ScaleCancel(c: real, w: real, a: Vec3)
    requires c * w == 1.0
    ensures Scale(c, Scale(w, a)) == a
  {
    assert c * (w * a.x) == (c * w) * a.x;
    assert c * (w * a.y) == (c * w) * a.y;
    assert c * (w * a.z) == (c * w) * a.z;
  }

  /** Barycentre of one row: the mass-weighted average of the positions.
      It is the one vector that, scaled by the total mass, gives the
      mass-weighted sum of the positions. */
  function Barycenter(m: seq<real>, row: seq<Vec3>): (c: Vec3)
    requires |row| == |m| && Total(m) != 0.0
    ensures Scale(Total(m), c) == WeightedSum(m, row)
  {
    ScaleCancel(Total(m), InverseTotal(m), WeightedSum(m, row));
    Scale(InverseTotal(m), WeightedSum(m, row))
  }

  /** `baricentro`: the barycentre of every row of a trajectory. */
  function Barycenters(R: seq<seq<Vec3>>, m: seq<real>): (c: seq<Vec3>)
    requires forall k :: 0 <= k < |R| ==> |R[k]| == |m|
    requires Total(m) != 0.0
    ensures |c| == |R|
    ensures forall k :: 0 <= k < |R| ==> Scale(Total(m), c[k]) == WeightedSum(m, R[k])
  {
    seq(|R|, k requires 0 <= k < |R| => Barycenter(m, R[k]))
  }

  /** If every body sits at the same point p, the barycentre is p. */
  lemma BarycenterCoincident(m: seq<real>, row: seq<Vec3>, p: Vec3)
    requires |row| == |m| && Total(m) != 0.0
    requires forall i :: 0 <= i < |row| ==> row[i] == p
    ensures Barycenter(m, row) == p
  {
    WeightedPrefixConstant(m, row, |row|, p);
    ScaleCancel(InverseTotal(m), Total(m), p);
  }

  /** Under Euler steps the barycentre moves uniformly: after k steps it is
      the initial barycentre plus k dt times the barycentre velocity. */
  lemma EulerBarycenterDrift(s0: Phase, m: seq<real>, G: real, eps: real, inv3: real -> real, dt: real, k: nat)
    requires |s0.pos| == |s0.vel| == |m| && Total(m) != 0.0
    ensures Barycenter(m, EulerState(s0, m, G, eps, inv3, dt, k).pos)
         == Add(Barycenter(m, s0.pos), Scale(Elapsed(k, dt), Barycenter(m, s0.vel)))
  {
    EulerMomentum(s0, m, G, eps, inv3, dt, k);
    ScaleDistributes(InverseTotal(m), WeightedSum(m, s0.pos), Elapsed(k, dt), WeightedSum(m, s0.vel));
  }

  /** Under RK4 steps the barycentre moves uniformly as well, and the total
      momentum of every stored velocity row is the initial one. */
  lemma Rk4BarycenterDrift(t: seq<real>, r0: seq<Vec3>, v0: seq<Vec3>, m: seq<real>, G: real, eps: real, inv3: real -> real, dt: real, k: nat)
    requires k <= |t| && |r0| == |v0| == |m| && Total(m) != 0.0
    ensures var s := Unpack(Rk4State(t, Pack(r0, v0), m, G, eps, inv3, dt, k), |m|).value;
            WeightedSum(m, s.vel) == WeightedSum(m, v0) &&
            Barycenter(m, s.pos) == Add(Barycenter(m, r0), Scale(Elapsed(k, dt), Barycenter(m, v0)))
  {
    UnpackPack(r0, v0);
    Rk4Momentum(t, Pack(r0, v0), m, G, eps, inv3, dt, k);
    ScaleDistributes(InverseTotal(m), WeightedSum(m, r0), Elapsed(k, dt), WeightedSum(m, v0));
  }

  // ---------------------------------------------------------------------------
  // Radial velocity

  /** numpy's reading of a body index: -n <= idx < 0 counts from the end. */
  function BodyIndex(idx: int, n: nat): (i: nat)
    requires -(n as int) <= idx < n
    ensures i < n
    ensures idx >= 0 ==> i == idx
    ensures idx < 0 ==> i == idx + n
  {
    if idx < 0 then idx + n else idx
  }

  /** The line of sight divided by its length `norm`. */
  function Unit(dir: Vec3, norm: real): (u: Vec3)
    requires norm > 0.0
    ensures Scale(norm, u) == dir
  {
    ScaleCancel(norm, 1.0 / norm, dir);
    Scale(1.0 / norm, dir)
  }

  /** When norm is the length of dir, the normalised direction has length one. */
  lemma UnitLength(dir: Vec3, norm: real)
    requires norm > 0.0 && norm * norm == Dot(dir, dir)
    ensures Dot(Unit(dir, norm), Unit(dir, norm)) == 1.0
  {
    var c := 1.0 / norm;
    var u := Unit(dir, norm);
    assert Dot(u, u) == (c * c) * Dot(dir, dir) by {
      assert u.x * u.x == (c * c) * (dir.x * dir.x);
      assert u.y * u.y == (c * c) * (dir.y * dir.y);
      assert u.z * u.z == (c * c) * (dir.z * dir.z);
    }
    assert (c * c) * (norm * norm) == (c * norm) * (c * norm);
  }

  /** Projecting onto the normalised direction and multiplying by the norm is
      projecting onto the direction itself. */
  lemma DotUnit(v: Vec3, dir: Vec3, norm: real)
    requires norm > 0.0
    ensures Dot(v, Unit(dir, norm)) * norm == Dot(v, dir)
  {
    var c := 1.0 / norm;
    assert c * norm == 1.0;
    assert Dot(v, Unit(dir, norm)) == c * Dot(v, dir);
    assert (c * Dot(v, dir)) * norm == (c * norm) * Dot(v, dir);
  }

  /** `radial_velocity`: for every row, the velocity of body idx projected on
      the normalised line of sight. An index outside -n <= idx < n raises. */
  function RadialVelocity(V: seq<seq<Vec3>>, n: nat, idx: int, dir: Vec3, norm: real): (r: Result<seq<real>>)
    requires forall k :: 0 <= k < |V| ==> |V[k]| == n
    requires norm > 0.0 && norm * norm == Dot(dir, dir)
    ensures r.Ok? <==> -(n as int) <= idx < n
    ensures r.Err? ==> r.error == IndexOutOfRange
    ensures r.Ok? ==> |r.value| == |V|
  {
    if idx < -(n as int) || idx >= n then Err(IndexOutOfRange)
    else
      var i := BodyIndex(idx, n);
      Ok(seq(|V|, k requires 0 <= k < |V| => Dot(V[k][i], Unit(dir, norm))))
  }

  /** Each entry, times the length of the line of sight, is the velocity of
      the chosen body dotted with the line of sight. */
  lemma RadialVelocityProjects(V: seq<seq<Vec3>>, n: nat, idx: int, dir: Vec3, norm: real, k: nat)
    requires forall k :: 0 <= k < |V| ==> |V[k]| == n
    requires norm > 0.0 && norm * norm == Dot(dir, dir)
    requires -(n as int) <= idx < n && k < |V|
    ensures RadialVelocity(V, n, idx, dir, norm).value[k] * norm == Dot(V[k][BodyIndex(idx, n)], dir)
  {
    DotUnit(V[k][BodyIndex(idx, n)], dir, norm);
  }

  /** With the default line of sight (1, 0, 0) the radial velocity is the x
      component of the body's velocity. */
  lemma RadialVelocityDefaultAxis(V: seq<seq<Vec3>>, n: nat, idx: int, k: nat)
    requires forall k :: 0 <= k < |V| ==> |V[k]| == n
    requires -(n as int) <= idx < n && k < |V|
    ensures RadialVelocity(V, n, idx, Vec3(1.0, 0.0, 0.0), 1.0).value[k] == V[k][BodyIndex(idx, n)].x
  {
    RadialVelocityProjects(V, n, idx, Vec3(1.0, 0.0, 0.0), 1.0, k);
  }

  // ---------------------------------------------------------------------------
  // Energy

  /** m_i |v_i|^2 for one body. */
  function MassSpeed(mi: real, vi: Vec3): real
  {
    mi * Dot(vi, vi)
  }

  /** Sum of m_i |v_i|^2 over the first p bodies. */
  function SpeedSum(m: seq<real>, v: seq<Vec3>, p: nat): real
    requires p <= |v| <= |m|
  {
    if p == 0 then 0.0 else SpeedSum(m, v, p - 1) + MassSpeed(m[p - 1], v[p - 1])
  }

  /** Kinetic energy of one row: 1/2 sum m_i |v_i|^2. */
  function Kinetic(m: seq<real>, v: seq<Vec3>): (e: real)
    requires |v| == |m|
    ensures e + e == SpeedSum(m, v, |v|)
  {
    0.5 * SpeedSum(m, v, |v|)
  }

  lemma {:induction false} SpeedSumNonNegative(m: seq<real>, v: seq<Vec3>, p: nat)
    requires p <= |v| <= |m|
    requires forall i :: 0 <= i < |m| ==> m[i] >= 0.0
    ensures SpeedSum(m, v, p) >= 0.0
  {
    if p > 0 {
      SpeedSumNonNegative(m, v, p - 1);
      DotSelfNonNegative(v[p - 1]);
      assert m[p - 1] * Dot(v[p - 1], v[p - 1]) >= 0.0;
    }
  }

  /** With non-negative masses the kinetic energy is never negative. */
  lemma KineticNonNegative(m: seq<real>, v: seq<Vec3>)
    requires |v| == |m|
    requires forall i :: 0 <= i < |m| ==> m[i] >= 0.0
    ensures Kinetic(m, v) >= 0.0
  {
    SpeedSumNonNegative(m, v, |v|);
  }

  /** -G m_i m_j / |r_j - r_i| for one pair, with invDist(q) standing for 1 / sqrt(q). */
  function PairEnergy(pos: seq<Vec3>, m: seq<real>, G: real, invDist: real -> real, i: nat, j: nat): (e: real)
    requires i < |pos| && j < |pos| && |pos| <= |m|
    ensures G == 0.0 || m[i] == 0.0 || m[j] == 0.0 ==> e == 0.0
  {
    var diff := Sub(pos[j], pos[i]);
    -G * m[i] * m[j] * invDist(Dot(diff, diff))
  }

  /** Sum of the pair energies of body i with bodies i + 1 .. j - 1 (the
      inner loop after it reached j). */
  function InnerSum(pos: seq<Vec3>, m: seq<real>, G: real, invDist: real -> real, i: nat, j: nat): real
    requires i < |pos| && j <= |pos| && |pos| <= |m|
  {
    if j <= i + 1 then 0.0 else InnerSum(pos, m, G, invDist, i, j - 1) + PairEnergy(pos, m, G, invDist, i, j - 1)
  }

  /** Sum of the pair energies of every pair whose first body is below p. */
  function OuterSum(pos: seq<Vec3>, m: seq<real>, G: real, invDist: real -> real, p: nat): real
    requires p <= |pos| <= |m|
  {
    if p == 0 then 0.0 else OuterSum(pos, m, G, invDist, p - 1) + InnerSum(pos, m, G, invDist, p - 1, |pos|)
  }

  /** Potential energy of one row: - sum over pairs i < j of G m_i m_j / |r_i - r_j|. */
  function Potential(m: seq<real>, pos: seq<Vec3>, G: real, invDist: real -> real): (e: real)
    requires |pos| == |m|
    ensures |pos| == 2 ==> e == PairEnergy(pos, m, G, invDist, 0, 1)
  {
    assert |pos| == 2 ==>
      OuterSum(pos, m, G, invDist, 1) == InnerSum(pos, m, G, invDist, 0, 2) == PairEnergy(pos, m, G, invDist, 0, 1) &&
      OuterSum(pos, m, G, invDist, 2) == OuterSum(pos, m, G, invDist, 1);
    OuterSum(pos, m, G, invDist, |pos|)
  }

  /** The accumulator loop over pairs i < j of `energia_totale` for one row. */
  method RowPotential(pos: seq<Vec3>, m: seq<real>, G: real, invDist: real -> real) returns (u: real)
    requires |pos| == |m|
    ensures u == Potential(m, pos, G, invDist)
  {
    var n := |m|;
    u := 0.0;
    for i := 0 to n
      invariant u == OuterSum(pos, m, G, invDist, i)
    {
      for j := i + 1 to n
        invariant u == OuterSum(pos, m, G, invDist, i) + InnerSum(pos, m, G, invDist, i, j)
      {
        u := u + PairEnergy(pos, m, G, invDist, i, j);
      }
    }
  }

  /** `energia_totale`: kinetic plus potential energy of every row, filled
      row by row into the arrays T and U and returned as T + U. */
  method TotalEnergy(R: seq<seq<Vec3>>, V: seq<seq<Vec3>>, m: seq<real>, G: real, invDist: real -> real)
    returns (E: seq<real>)
    requires |R| <= |V|
    requires forall k :: 0 <= k < |R| ==> |R[k]| == |m| && |V[k]| == |m|
    ensures |E| == |R|
    ensures forall k :: 0 <= k < |R| ==> E[k] == Kinetic(m, V[k]) + Potential(m, R[k], G, invDist)
  {
    var T := new real[|R|];
    var U := new real[|R|];
    for k := 0 to |R|
      invariant forall l :: 0 <= l < k ==> T[l] == Kinetic(m, V[l]) && U[l] == Potential(m, R[l], G, invDist)
    {
      T[k] := Kinetic(m, V[k]);
      var u := RowPotential(R[k], m, G, invDist);
      U[k] := u;
    }
    E := FlatAdd(T[..], U[..]);
  }

  /** The pair term does not depend on which body of the pair comes first. */
  lemma PairEnergySymmetric(pos: seq<Vec3>, m: seq<real>, G: real, invDist: real -> real, i: nat, j: nat)
    requires i < |pos| && j < |pos| && |pos| <= |m|
    ensures PairEnergy(pos, m, G, invDist, i, j) == PairEnergy(pos, m, G, invDist, j, i)
  {
    DistanceSymmetric(pos[i], pos[j]);
    assert -G * m[i] * m[j] == -G * m[j] * m[i];
  }

  lemma PairEnergyNonPositive(pos: seq<Vec3>, m: seq<real>, G: real, invDist: real -> real, i: nat, j: nat)
    requires i < |pos| && j < |pos| && |pos| <= |m|
    requires G >= 0.0 && m[i] >= 0.0 && m[j] >= 0.0
    requires invDist(Dot(Sub(pos[j], pos[i]), Sub(pos[j], pos[i]))) >= 0.0
    ensures PairEnergy(pos, m, G, invDist, i, j) <= 0.0
  {
    var d := Sub(pos[j], pos[i]);
    var w := invDist(Dot(d, d));
    assert G * m[i] >= 0.0;
    assert G * m[i] * m[j] >= 0.0;
    assert G * m[i] * m[j] * w >= 0.0;
    assert -G * m[i] * m[j] * w == -(G * m[i] * m[j] * w);
  }

  lemma {:induction false} InnerSumNonPositive(pos: seq<Vec3>, m: seq<real>, G: real, invDist: real -> real, i: nat, j: nat)
    requires i < |pos| && j <= |pos| && |pos| <= |m|
    requires G >= 0.0 && forall b :: 0 <= b < |m| ==> m[b] >= 0.0
    requires forall q :: invDist(q) >= 0.0
    ensures InnerSum(pos, m, G, invDist, i, j) <= 0.0
  {
    if j > i + 1 {
      InnerSumNonPositive(pos, m, G, invDist, i, j - 1);
      var d := Sub(pos[j - 1], pos[i]);
      assert invDist(Dot(d, d)) >= 0.0;
      PairEnergyNonPositive(pos, m, G, invDist, i, j - 1);
    }
  }

  lemma {:induction false} OuterSumNonPositive(pos: seq<Vec3>, m: seq<real>, G: real, invDist: real -> real, p: nat)
    requires p <= |pos| <= |m|
    requires G >= 0.0 && forall b :: 0 <= b < |m| ==> m[b] >= 0.0
    requires forall q :: invDist(q) >= 0.0
    ensures OuterSum(pos, m, G, invDist, p) <= 0.0
  {
    if p > 0 {
      OuterSumNonPositive(pos, m, G, invDist, p - 1);
      InnerSumNonPositive(pos, m, G, invDist, p - 1, |pos|);
    }
  }

  /** Gravity binds: with G >= 0, non-negative masses and a non-negative
      reciprocal distance, the potential energy is never positive. */
  lemma PotentialNonPositive(m: seq<real>, pos: seq<Vec3>, G: real, invDist: real -> real)
    requires |pos| == |m|
    requires G >= 0.0 && forall b :: 0 <= b < |m| ==> m[b] >= 0.0
    requires forall q :: invDist(q) >= 0.0
    ensures Potential(m, pos, G, invDist) <= 0.0
  {
    OuterSumNonPositive(pos, m, G, invDist, |pos|);
  }

  /** A single body has no pairs: its energy is purely kinetic. */
  lemma SingleBodyEnergy(m: seq<real>, pos: seq<Vec3>, G: real, invDist: real -> real)
    requires |pos| == |m| <= 1
    ensures Potential(m, pos, G, invDist) == 0.0
  {
    if |pos| == 1 {
      assert OuterSum(pos, m, G, invDist, 1) == InnerSum(pos, m, G, invDist, 0, 1);
    }
  }
}
