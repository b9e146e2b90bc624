/** The fixed-step integrators `integr_eulero` and `integr_rk4`: each
    preallocates an (M, N) array of positions and one of velocities, stores the
    initial condition in row 0 and fills row i + 1 from the state after step i.
    The step is dt = t[1] - t[0] for every row: the grid is taken to be uniform. */
module Integrators {
  import opened Wrappers
  import opened Vectors
  import opened StateVector
  import opened Gravity
  import opened Dynamics

  /** The step both integrators use for every row: the first gap of the time grid. */
  function TimeStep(t: seq<real>): (dt: real)
    requires |t| >= 2
    ensures t[0] + dt == t[1]
  {
    t[1] - t[0]
  }

  // ---------------------------------------------------------------------------
  // Semi-implicit Euler

  /** One Euler step: the velocity is updated with the acceleration at the
      current positions, then the positions with the UPDATED velocity. */
  function EulerStep(s: Phase, m: seq<real>, G: real, eps: real, inv3: real -> real, dt: real): (next: Phase)
    requires |s.pos| == |s.vel| == |m|
    ensures |next.pos| == |next.vel| == |m|
  {
    var v := SeqAdd(s.vel, SeqScale(dt, Accel(s.pos, m, G, eps, inv3)));
    Phase(SeqAdd(s.pos, SeqScale(dt, v)), v)
  }

  /** The state after k Euler steps of size dt from s0. */
  function EulerState(s0: Phase, m: seq<real>, G: real, eps: real, inv3: real -> real, dt: real, k: nat): (s: Phase)
    requires |s0.pos| == |s0.vel| == |m|
    ensures |s.pos| == |s.vel| == |m|
  {
    if k == 0 then s0 else EulerStep(EulerState(s0, m, G, eps, inv3, dt, k - 1), m, G, eps, inv3, dt)
  }

  /** `integr_eulero(r0, v0, masse, tempi, G, epsilon)`: two (M, N, 3) arrays,
      held as M rows of N vectors; row k is the state after k steps, so row 0
      is (r0, v0) and row k + 1 is one Euler step from row k. */
  method IntegrateEuler(r0: seq<Vec3>, v0: seq<Vec3>, m: seq<real>, t: seq<real>, G: real, eps: real, inv3: real -> real)
    returns (P: array<seq<Vec3>>, W: array<seq<Vec3>>)
    requires |t| >= 2 && |r0| == |v0| == |m|
    ensures fresh(P) && fresh(W) && P.Length == |t| && W.Length == |t|
    ensures forall k :: 0 <= k < |t| ==>
              var s := EulerState(Phase(r0, v0), m, G, eps, inv3, TimeStep(t), k);
              P[k] == s.pos && W[k] == s.vel
  {
    var dt := TimeStep(t);
    var r, v := r0, v0;
    P := new seq<Vec3>[|t|];
    W := new seq<Vec3>[|t|];
    P[0] := r;
    W[0] := v;
    for i := 0 to |t| - 1
      invariant Phase(r, v) == EulerState(Phase(r0, v0), m, G, eps, inv3, dt, i)
      invariant forall k :: 0 <= k <= i ==>
                  var s := EulerState(Phase(r0, v0), m, G, eps, inv3, dt, k);
                  P[k] == s.pos && W[k] == s.vel
    {
      r, v := EulerRecord(P, W, Phase(r0, v0), r, v, m, G, eps, inv3, dt, i);
    }
  }

  /** One pass of the time loop of `integr_eulero`: advance the state and
      store it as row i + 1; rows 0 to i keep the states stored there. */
  method EulerRecord(P: array<seq<Vec3>>, W: array<seq<Vec3>>, s0: Phase, r: seq<Vec3>, v: seq<Vec3>,
                     m: seq<real>, G: real, eps: real, inv3: real -> real, dt: real, i: nat)
    returns (r': seq<Vec3>, v': seq<Vec3>)
    requires P != W && P.Length == W.Length && i + 1 < P.Length && |s0.pos| == |s0.vel| == |m|
    requires Phase(r, v) == EulerState(s0, m, G, eps, inv3, dt, i)
    requires forall k :: 0 <= k <= i ==>
               var s := EulerState(s0, m, G, eps, inv3, dt, k);
               P[k] == s.pos && W[k] == s.vel
    modifies P, W
    ensures Phase(r', v') == EulerState(s0, m, G, eps, inv3, dt, i + 1)
    ensures forall k :: 0 <= k <= i + 1 ==>
              var s := EulerState(s0, m, G, eps, inv3, dt, k);
              P[k] == s.pos && W[k] == s.vel
  {
    r', v' := EulerAdvance(r, v, m, G, eps, inv3, dt);
    P[i + 1] := r';
    W[i + 1] := v';
  }

  /** The body of the time loop of `integr_eulero`: accelerations at the
      current positions, then v += a dt, then r += v dt with the new v. */
  method EulerAdvance(r: seq<Vec3>, v: seq<Vec3>, m: seq<real>, G: real, eps: real, inv3: real -> real, dt: real)
    returns (r': seq<Vec3>, v': seq<Vec3>)
    requires |r| == |v| == |m|
    ensures Phase(r', v') == EulerStep(Phase(r, v), m, G, eps, inv3, dt)
  {
    var a := Accelerations(r, m, G, eps, inv3);
    v' := SeqAdd(v, SeqScale(dt, a));
    r' := SeqAdd(r, SeqScale(dt, v'));
  }

  // ---------------------------------------------------------------------------
  // Classic Runge-Kutta of order 4 on the packed state

  /** Derivative on a buffer already known to have length 6N. */
  function Slope(t: real, y: seq<real>, m: seq<real>, G: real, eps: real, inv3: real -> real): (s: seq<real>)
    requires |y| == 6 * |m|
    ensures |s| == |y|
  {
    Derivative(t, y, m, G, eps, inv3).value
  }

  /** Half a time step, where RK4 takes its two midpoint slopes. */
  function Half(dt: real): (h: real)
    ensures h + h == dt
  {
    dt / 2.0
  }

  /** One RK4 step from time ti: slopes at y, at the two half-step
      estimates and at the full-step estimate, combined with weights (1, 2, 2, 1) / 6. */
  function Rk4Step(ti: real, y: seq<real>, m: seq<real>, G: real, eps: real, inv3: real -> real, dt: real): (next: seq<real>)
    requires |y| == 6 * |m|
    ensures |next| == |y|
  {
    var s1 := Slope(ti, y, m, G, eps, inv3);
    var s2 := Slope(ti + Half(dt), FlatAdd(y, FlatScale(Half(dt), s1)), m, G, eps, inv3);
    var s3 := Slope(ti + Half(dt), FlatAdd(y, FlatScale(Half(dt), s2)), m, G, eps, inv3);
    var s4 := Slope(ti + dt, FlatAdd(y, FlatScale(dt, s3)), m, G, eps, inv3);
    Rk4Combine(y, s1, s2, s3, s4, dt)
  }

  /** The RK4 update y + dt/6 (s1 + 2 s2 + 2 s3 + s4). */
  function Rk4Combine(y: seq<real>, s1: seq<real>, s2: seq<real>, s3: seq<real>, s4: seq<real>, dt: real): (next: seq<real>)
    requires |s1| == |s2| == |s3| == |s4| == |y|
    ensures |next| == |y|
  {
    FlatAdd(y, FlatScale(dt / 6.0, FlatAdd(FlatAdd(FlatAdd(s1, FlatScale(2.0, s2)), FlatScale(2.0, s3)), s4)))
  }

  /** The packed state after k RK4 steps from y0; step j starts at time t[j]. */
  function Rk4State(t: seq<real>, y0: seq<real>, m: seq<real>, G: real, eps: real, inv3: real -> real, dt: real, k: nat): (y: seq<real>)
    requires k <= |t| && |y0| == 6 * |m|
    ensures |y| == |y0|
  {
    if k == 0 then y0 else Rk4Step(t[k - 1], Rk4State(t, y0, m, G, eps, inv3, dt, k - 1), m, G, eps, inv3, dt)
  }

  /** `integr_rk4(r0, v0, masse, tempi, G, epsilon)`: two (M, N, 3) arrays,
      held as M rows of N vectors; row k is the unpacked state after k RK4
      steps from the packed initial condition. */
  method IntegrateRk4(r0: seq<Vec3>, v0: seq<Vec3>, m: seq<real>, t: seq<real>, G: real, eps: real, inv3: real -> real)
    returns (P: array<seq<Vec3>>, W: array<seq<Vec3>>)
    requires |t| >= 2 && |r0| == |v0| == |m|
    ensures fresh(P) && fresh(W) && P.Length == |t| && W.Length == |t|
    ensures forall k :: 0 <= k < |t| ==>
              Unpack(Rk4State(t, Pack(r0, v0), m, G, eps, inv3, TimeStep(t), k), |m|) == Ok(Phase(P[k], W[k]))
  {
    var dt := TimeStep(t);
    var y := Pack(r0, v0);
    P := new seq<Vec3>[|t|];
    W := new seq<Vec3>[|t|];
    P[0] := r0;
    W[0] := v0;
    UnpackPack(r0, v0);
    for i := 0 to |t| - 1
      invariant y == Rk4State(t, Pack(r0, v0), m, G, eps, inv3, dt, i)
      invariant forall k :: 0 <= k <= i ==>
                  Unpack(Rk4State(t, Pack(r0, v0), m, G, eps, inv3, dt, k), |m|) == Ok(Phase(P[k], W[k]))
    {
      y := Rk4Record(P, W, t, Pack(r0, v0), y, m, G, eps, inv3, dt, i);
    }
  }

  /** One pass of the time loop of `integr_rk4`: advance the packed state from
      t[i], unpack it and store it as row i + 1; rows 0 to i keep the states
      stored there. */
  method Rk4Record(P: array<seq<Vec3>>, W: array<seq<Vec3>>, t: seq<real>, y0: seq<real>, y: seq<real>,
                   m: seq<real>, G: real, eps: real, inv3: real -> real, dt: real, i: nat)
    returns (y': seq<real>)
    requires P != W && P.Length == W.Length == |t| && i + 1 < |t| && |y0| == 6 * |m|
    requires y == Rk4State(t, y0, m, G, eps, inv3, dt, i)
    requires forall k :: 0 <= k <= i ==> Unpack(Rk4State(t, y0, m, G, eps, inv3, dt, k), |m|) == Ok(Phase(P[k], W[k]))
    modifies P, W
    ensures y' == Rk4State(t, y0, m, G, eps, inv3, dt, i + 1)
    ensures forall k :: 0 <= k <= i + 1 ==> Unpack(Rk4State(t, y0, m, G, eps, inv3, dt, k), |m|) == Ok(Phase(P[k], W[k]))
  {
    y' := Rk4Advance(t[i], y, m, G, eps, inv3, dt);
    var s := Unpack(y', |m|).value;
    P[i + 1] := s.pos;
    W[i + 1] := s.vel;
  }

  /** The body of the time loop of `integr_rk4`: four calls of the derivative
      and the weighted update of the packed state. */
  method Rk4Advance(ti: real, y: seq<real>, m: seq<real>, G: real, eps: real, inv3: real -> real, dt: real) returns (y': seq<real>)
    requires |y| == 6 * |m|
    ensures y' == Rk4Step(ti, y, m, G, eps, inv3, dt)
  {
    var s1 := Derivative(ti, y, m, G, eps, inv3).value;
    var s2 := Derivative(ti + Half(dt), FlatAdd(y, FlatScale(Half(dt), s1)), m, G, eps, inv3).value;
    var s3 := Derivative(ti + Half(dt), FlatAdd(y, FlatScale(Half(dt), s2)), m, G, eps, inv3).value;
    var s4 := Derivative(ti + dt, FlatAdd(y, FlatScale(dt, s3)), m, G, eps, inv3).value;
    y' := Rk4Combine(y, s1, s2, s3, s4, dt);
  }

  // ---------------------------------------------------------------------------
  // Force-free motion: a single body (or G = 0) moves in a straight line

  /** Uniform motion for time h: positions advance by h * v, velocities stay. */
  function Drift(s: Phase, h: real): (next: Phase)
    requires |s.pos| == |s.vel|
  {
    Phase(SeqAdd(s.pos, SeqScale(h, s.vel)), s.vel)
  }

  /** Time covered by k steps of size dt. */
  function Elapsed(k: nat, dt: real): real
  {
    (k as real) * dt
  }

  lemma ElapsedStep(k: nat, dt: real)
    requires k > 0
    ensures Elapsed(k - 1, dt) + dt == Elapsed(k, dt)
  {
  }

  /** Drifting for k - 1 steps and then one more is drifting for k steps. */
  lemma DriftSteps(s: Phase, k: nat, dt: real)
    requires |s.pos| == |s.vel| && k > 0
    ensures Drift(Drift(s, Elapsed(k - 1, dt)), dt) == Drift(s, Elapsed(k, dt))
  {
    var h := Elapsed(k - 1, dt);
    DriftTwice(s, h, dt);
    ElapsedStep(k, dt);
    assert Drift(s, h + dt) == Drift(s, Elapsed(k, dt));
  }

  lemma DriftZero(s: Phase)
    requires |s.pos| == |s.vel|
    ensures Drift(s, 0.0) == s
  {
    var l := Drift(s, 0.0).pos;
    forall j | 0 <= j < |l|
      ensures l[j] == s.pos[j]
    {
      assert Scale(0.0, s.vel[j]) == Zero;
    }
    assert l == s.pos;
  }

  lemma AddScaledZeros(v: seq<Vec3>, h: real)
    ensures SeqAdd(v, SeqScale(h, Zeros(|v|))) == v
  {
  }

  lemma DriftTwice(s: Phase, a: real, b: real)
    requires |s.pos| == |s.vel|
    ensures Drift(Drift(s, a), b) == Drift(s, a + b)
  {
    var l, r := Drift(Drift(s, a), b).pos, Drift(s, a + b).pos;
    forall j | 0 <= j < |l|
      ensures l[j] == r[j]
    {
      DriftComponents(s.pos[j], s.vel[j], a, b);
    }
  }

  lemma DriftComponents(p: Vec3, v: Vec3, a: real, b: real)
    ensures Add(Add(p, Scale(a, v)), Scale(b, v)) == Add(p, Scale(a + b, v))
  {
    assert a * v.x + b * v.x == (a + b) * v.x;
    assert a * v.y + b * v.y == (a + b) * v.y;
    assert a * v.z + b * v.z == (a + b) * v.z;
  }

  /** With no force an Euler step is a drift by dt. */
  lemma EulerStepForceFree(s: Phase, m: seq<real>, G: real, eps: real, inv3: real -> real, dt: real)
    requires |s.pos| == |s.vel| == |m| && ForceFree(m, G)
    ensures EulerStep(s, m, G, eps, inv3, dt) == Drift(s, dt)
  {
    AccelForceFree(s.pos, m, G, eps, inv3);
    AddScaledZeros(s.vel, dt);
  }

  /** With no force, one RK4 stage update y + h * s from a packed state is a drift by h. */
  lemma StageForceFree(p: seq<Vec3>, v: seq<Vec3>, h: real)
    requires |p| == |v|
    ensures FlatAdd(Pack(p, v), FlatScale(h, Pack(v, Zeros(|v|)))) == Pack(SeqAdd(p, SeqScale(h, v)), v)
  {
    PackAxpy(p, v, h, v, Zeros(|v|));
    AddScaledZeros(v, h);
  }

  /** Weights (1, 2, 2, 1) / 6 sum to one: four equal slopes advance y by dt * s. */
  lemma Rk4WeightsSumToOne(y: seq<real>, s: seq<real>, dt: real)
    requires |y| == |s|
    ensures Rk4Combine(y, s, s, s, s, dt) == FlatAdd(y, FlatScale(dt, s))
  {
    var w := FlatAdd(FlatAdd(FlatAdd(s, FlatScale(2.0, s)), FlatScale(2.0, s)), s);
    var l, r := Rk4Combine(y, s, s, s, s, dt), FlatAdd(y, FlatScale(dt, s));
    forall i | 0 <= i < |s|
      ensures l[i] == r[i]
    {
      assert w[i] == 6.0 * s[i];
      assert (dt / 6.0) * (6.0 * s[i]) == dt * s[i];
    }
  }

  /** With no force the slope at a packed state (p, v) is (v, 0). */
  lemma SlopeForceFree(ti: real, p: seq<Vec3>, v: seq<Vec3>, m: seq<real>, G: real, eps: real, inv3: real -> real)
    requires |p| == |v| == |m| && ForceFree(m, G)
    ensures Slope(ti, Pack(p, v), m, G, eps, inv3) == Pack(v, Zeros(|v|))
  {
    DerivativeOfPacked(ti, p, v, m, G, eps, inv3);
    AccelForceFree(p, m, G, eps, inv3);
  }

  /** With no force the slope at an intermediate RK4 stage is (v, 0) again. */
  lemma StageSlopeForceFree(ti: real, p: seq<Vec3>, v: seq<Vec3>, h: real, m: seq<real>, G: real, eps: real, inv3: real -> real)
    requires |p| == |v| == |m| && ForceFree(m, G)
    ensures Slope(ti, FlatAdd(Pack(p, v), FlatScale(h, Pack(v, Zeros(|v|)))), m, G, eps, inv3) == Pack(v, Zeros(|v|))
  {
    StageForceFree(p, v, h);
    SlopeForceFree(ti, SeqAdd(p, SeqScale(h, v)), v, m, G, eps, inv3);
  }

  /** When the slope at y and at both stage estimates is the same s, the
      RK4 step is the combination of four copies of s. */
  lemma Rk4StepEqualSlopes(ti: real, y: seq<real>, s: seq<real>, m: seq<real>, G: real, eps: real, inv3: real -> real, dt: real)
    requires |y| == 6 * |m| && |s| == |y|
    requires Slope(ti, y, m, G, eps, inv3) == s
    requires Slope(ti + Half(dt), FlatAdd(y, FlatScale(Half(dt), s)), m, G, eps, inv3) == s
    requires Slope(ti + dt, FlatAdd(y, FlatScale(dt, s)), m, G, eps, inv3) == s
    ensures Rk4Step(ti, y, m, G, eps, inv3, dt) == Rk4Combine(y, s, s, s, s, dt)
  {
  }

  /** With no force an RK4 step is a drift by dt: all four slopes are (v, 0). */
  lemma Rk4StepForceFree(ti: real, p: seq<Vec3>, v: seq<Vec3>, m: seq<real>, G: real, eps: real, inv3: real -> real, dt: real)
    requires |p| == |v| == |m| && ForceFree(m, G)
    ensures Rk4Step(ti, Pack(p, v), m, G, eps, inv3, dt) == Pack(SeqAdd(p, SeqScale(dt, v)), v)
  {
    var y, s := Pack(p, v), Pack(v, Zeros(|v|));
    SlopeForceFree(ti, p, v, m, G, eps, inv3);
    StageSlopeForceFree(ti + Half(dt), p, v, Half(dt), m, G, eps, inv3);
    StageSlopeForceFree(ti + dt, p, v, dt, m, G, eps, inv3);
    Rk4StepEqualSlopes(ti, y, s, m, G, eps, inv3, dt);
    Rk4WeightsSumToOne(y, s, dt);
    StageForceFree(p, v, dt);
  }

  /** With no force, the state after k Euler steps is the initial state
      drifted for k dt: v[k] = v0 and r[k] = r0 + k dt v0. */
  lemma EulerForceFree(s0: Phase, m: seq<real>, G: real, eps: real, inv3: real -> real, dt: real, k: nat)
    requires |s0.pos| == |s0.vel| == |m| && ForceFree(m, G)
    ensures EulerState(s0, m, G, eps, inv3, dt, k) == Drift(s0, Elapsed(k, dt))
  {
    DriftZero(s0);
    var j := 0;
    while j < k
      invariant j <= k
      invariant EulerState(s0, m, G, eps, inv3, dt, j) == Drift(s0, Elapsed(j, dt))
    {
      var s := EulerState(s0, m, G, eps, inv3, dt, j);
      EulerStepForceFree(s, m, G, eps, inv3, dt);
      DriftSteps(s0, j + 1, dt);
      j := j + 1;
    }
  }

  /** With no force, the packed state after k RK4 steps is the packed initial
      state drifted for k dt. */
  lemma Rk4ForceFree(t: seq<real>, s0: Phase, m: seq<real>, G: real, eps: real, inv3: real -> real, dt: real, k: nat)
    requires k <= |t| && |s0.pos| == |s0.vel| == |m| && ForceFree(m, G)
    ensures Rk4State(t, Pack(s0.pos, s0.vel), m, G, eps, inv3, dt, k) == Pack(Drift(s0, Elapsed(k, dt)).pos, s0.vel)
  {
    var y0 := Pack(s0.pos, s0.vel);
    assert |y0| == 6 * |m|;
    DriftZero(s0);
    var j := 0;
    while j < k
      invariant j <= k
      invariant Rk4State(t, y0, m, G, eps, inv3, dt, j) == Pack(Drift(s0, Elapsed(j, dt)).pos, s0.vel)
    {
      assert Rk4State(t, y0, m, G, eps, inv3, dt, j + 1)
          == Rk4Step(t[j], Rk4State(t, y0, m, G, eps, inv3, dt, j), m, G, eps, inv3, dt);
      Rk4DriftStep(t[j], s0, m, G, eps, inv3, dt, j + 1);
      j := j + 1;
    }
  }

  /** With no force one RK4 step takes the packed state drifted for k - 1
      steps to the packed state drifted for k steps. */
  lemma Rk4DriftStep(ti: real, s0: Phase, m: seq<real>, G: real, eps: real, inv3: real -> real, dt: real, k: nat)
    requires |s0.pos| == |s0.vel| == |m| && ForceFree(m, G) && k > 0
    ensures Rk4Step(ti, Pack(Drift(s0, Elapsed(k - 1, dt)).pos, s0.vel), m, G, eps, inv3, dt)
         == Pack(Drift(s0, Elapsed(k, dt)).pos, s0.vel)
  {
    var d := Drift(s0, Elapsed(k - 1, dt));
    Rk4StepForceFree(ti, d.pos, s0.vel, m, G, eps, inv3, dt);
    DriftSteps(s0, k, dt);
  }

  /** With no force the two fixed-step integrators agree exactly: the RK4
      state after k steps unpacks to the Euler state after k steps. */
  lemma EulerRk4AgreeForceFree(t: seq<real>, s0: Phase, m: seq<real>, G: real, eps: real, inv3: real -> real, dt: real, k: nat)
    requires k <= |t| && |s0.pos| == |s0.vel| == |m| && ForceFree(m, G)
    ensures Unpack(Rk4State(t, Pack(s0.pos, s0.vel), m, G, eps, inv3, dt, k), |m|) == Ok(EulerState(s0, m, G, eps, inv3, dt, k))
  {
    EulerForceFree(s0, m, G, eps, inv3, dt, k);
    Rk4ForceFree(t, s0, m, G, eps, inv3, dt, k);
    UnpackPack(Drift(s0, Elapsed(k, dt)).pos, s0.vel);
  }

  // ---------------------------------------------------------------------------
  // Momentum: Euler keeps the total momentum and moves the mass-weighted
  // position sum uniformly

  lemma EulerStepMomentum(s: Phase, m: seq<real>, G: real, eps: real, inv3: real -> real, dt: real)
    requires |s.pos| == |s.vel| == |m|
    ensures WeightedSum(m, EulerStep(s, m, G, eps, inv3, dt).vel) == WeightedSum(m, s.vel)
    ensures WeightedSum(m, EulerStep(s, m, G, eps, inv3, dt).pos) == Add(WeightedSum(m, s.pos), Scale(dt, WeightedSum(m, s.vel)))
  {
    var a := Accel(s.pos, m, G, eps, inv3);
    MomentumBalance(s.pos, m, G, eps, inv3);
    WeightedSumScale(m, dt, a);
    WeightedSumAdd(m, s.vel, SeqScale(dt, a));
    var v := SeqAdd(s.vel, SeqScale(dt, a));
    WeightedSumScale(m, dt, v);
    WeightedSumAdd(m, s.pos, SeqScale(dt, v));
  }

  /** After k Euler steps the total momentum is still the initial one and the
      mass-weighted position sum has moved uniformly with it. */
  lemma {:induction false} EulerMomentum(s0: Phase, m: seq<real>, G: real, eps: real, inv3: real -> real, dt: real, k: nat)
    requires |s0.pos| == |s0.vel| == |m|
    ensures var s := EulerState(s0, m, G, eps, inv3, dt, k);
            WeightedSum(m, s.vel) == WeightedSum(m, s0.vel) &&
            WeightedSum(m, s.pos) == Add(WeightedSum(m, s0.pos), Scale(Elapsed(k, dt), WeightedSum(m, s0.vel)))
  {
    if k == 0 {
      DriftComponents(WeightedSum(m, s0.pos), WeightedSum(m, s0.vel), 0.0, 0.0);
    } else {
      EulerMomentum(s0, m, G, eps, inv3, dt, k - 1);
      EulerStepMomentum(EulerState(s0, m, G, eps, inv3, dt, k - 1), m, G, eps, inv3, dt);
      DriftComponents(WeightedSum(m, s0.pos), WeightedSum(m, s0.vel), Elapsed(k - 1, dt), dt);
      ElapsedStep(k, dt);
    }
  }

  // ---------------------------------------------------------------------------
  // Momentum under RK4: every slope carries the momentum of its state in its
  // position half and nothing in its acceleration half, so each RK4 step keeps
  // the total momentum and moves the mass-weighted position sum by dt times it

  /** Sum of m_i r_i over the positions of a packed state. */
  function PosMoment(y: seq<real>, m: seq<real>): Vec3
    requires |y| == 6 * |m|
  {
    WeightedSum(m, Unpack(y, |m|).value.pos)
  }

  /** Sum of m_i v_i over the velocities of a packed state: the total momentum. */
  function VelMoment(y: seq<real>, m: seq<real>): Vec3
    requires |y| == 6 * |m|
  {
    WeightedSum(m, Unpack(y, |m|).value.vel)
  }

  /** Both moments are linear in the packed state: the update a + c * b. */
  lemma MomentsAxpy(a: seq<real>, c: real, b: seq<real>, m: seq<real>)
    requires |a| == |b| == 6 * |m|
    ensures PosMoment(FlatAdd(a, FlatScale(c, b)), m) == Add(PosMoment(a, m), Scale(c, PosMoment(b, m)))
    ensures VelMoment(FlatAdd(a, FlatScale(c, b)), m) == Add(VelMoment(a, m), Scale(c, VelMoment(b, m)))
  {
    var x, y := Unpack(a, |m|).value, Unpack(b, |m|).value;
    UnpackAxpy(a, c, b, |m|);
    WeightedSumScale(m, c, y.pos);
    WeightedSumAdd(m, x.pos, SeqScale(c, y.pos));
    WeightedSumScale(m, c, y.vel);
    WeightedSumAdd(m, x.vel, SeqScale(c, y.vel));
  }

  /** Both moments are linear in the packed state: the sum a + b. */
  lemma MomentsAdd(a: seq<real>, b: seq<real>, m: seq<real>)
    requires |a| == |b| == 6 * |m|
    ensures PosMoment(FlatAdd(a, b), m) == Add(PosMoment(a, m), PosMoment(b, m))
    ensures VelMoment(FlatAdd(a, b), m) == Add(VelMoment(a, m), VelMoment(b, m))
  {
    var x, y := Unpack(a, |m|).value, Unpack(b, |m|).value;
    UnpackAdd(a, b, |m|);
    WeightedSumAdd(m, x.pos, y.pos);
    WeightedSumAdd(m, x.vel, y.vel);
  }

  /** The slope at y has the momentum of y as its position moment and zero
      as its velocity moment (the accelerations balance). */
  lemma SlopeMoments(ti: real, y: seq<real>, m: seq<real>, G: real, eps: real, inv3: real -> real)
    requires |y| == 6 * |m|
    ensures PosMoment(Slope(ti, y, m, G, eps, inv3), m) == VelMoment(y, m)
    ensures VelMoment(Slope(ti, y, m, G, eps, inv3), m) == Zero
  {
    DerivativeUnpacked(ti, y, m, G, eps, inv3);
    MomentumBalance(Unpack(y, |m|).value.pos, m, G, eps, inv3);
  }

  /** A stage estimate y + h * s, with s a slope of momentum P = VelMoment(y)
      and no velocity moment, still has momentum P, so its slope is again of that kind. */
  lemma StageMoments(ti: real, y: seq<real>, h: real, s: seq<real>, m: seq<real>, G: real, eps: real, inv3: real -> real)
    requires |y| == |s| == 6 * |m|
    requires PosMoment(s, m) == VelMoment(y, m) && VelMoment(s, m) == Zero
    ensures PosMoment(Slope(ti, FlatAdd(y, FlatScale(h, s)), m, G, eps, inv3), m) == VelMoment(y, m)
    ensures VelMoment(Slope(ti, FlatAdd(y, FlatScale(h, s)), m, G, eps, inv3), m) == Zero
  {
    var z := FlatAdd(y, FlatScale(h, s));
    MomentsAxpy(y, h, s, m);
    assert VelMoment(z, m) == VelMoment(y, m);
    SlopeMoments(ti, z, m, G, eps, inv3);
  }

  /** The (1, 2, 2, 1) / 6 combination of four slopes of momentum P and no
      velocity moment keeps the momentum and moves the position moment by dt * P. */
  lemma CombineMoments(y: seq<real>, s1: seq<real>, s2: seq<real>, s3: seq<real>, s4: seq<real>, dt: real, m: seq<real>)
    requires |y| == |s1| == |s2| == |s3| == |s4| == 6 * |m|
    requires PosMoment(s1, m) == VelMoment(y, m) && VelMoment(s1, m) == Zero
    requires PosMoment(s2, m) == VelMoment(y, m) && VelMoment(s2, m) == Zero
    requires PosMoment(s3, m) == VelMoment(y, m) && VelMoment(s3, m) == Zero
    requires PosMoment(s4, m) == VelMoment(y, m) && VelMoment(s4, m) == Zero
    ensures VelMoment(Rk4Combine(y, s1, s2, s3, s4, dt), m) == VelMoment(y, m)
    ensures PosMoment(Rk4Combine(y, s1, s2, s3, s4, dt), m) == Add(PosMoment(y, m), Scale(dt, VelMoment(y, m)))
  {
    var w1 := FlatAdd(s1, FlatScale(2.0, s2));
    var w2 := FlatAdd(w1, FlatScale(2.0, s3));
    var w := FlatAdd(w2, s4);
    MomentsAxpy(s1, 2.0, s2, m);
    MomentsAxpy(w1, 2.0, s3, m);
    MomentsAdd(w2, s4, m);
    MomentsAxpy(y, dt / 6.0, w, m);
    WeightsOfMoments(PosMoment(y, m), VelMoment(y, m), dt);
    WeightsOfZero(VelMoment(y, m), dt);
  }

  /** The vector arithmetic of CombineMoments: weights (1, 2, 2, 1) / 6 of p
      sum to p. */
  lemma WeightsOfMoments(x: Vec3, p: Vec3, dt: real)
    ensures Add(x, Scale(dt / 6.0, Add(Add(Add(p, Scale(2.0, p)), Scale(2.0, p)), p))) == Add(x, Scale(dt, p))
  {
    var w := Add(Add(Add(p, Scale(2.0, p)), Scale(2.0, p)), p);
    SixthOf(dt, w.x, p.x);
    SixthOf(dt, w.y, p.y);
    SixthOf(dt, w.z, p.z);
    assert Scale(dt / 6.0, w) == Scale(dt, p);
  }

  /** ... and of the zero vector they sum to zero. */
  lemma WeightsOfZero(p: Vec3, dt: real)
    ensures Add(p, Scale(dt / 6.0, Add(Add(Add(Zero, Scale(2.0, Zero)), Scale(2.0, Zero)), Zero))) == p
  {
    ZeroAbsorbs(2.0, Zero);
    ZeroAbsorbs(dt / 6.0, Zero);
  }

  lemma ZeroAbsorbs(c: real, p: Vec3)
    ensures Scale(c, Zero) == Zero && Add(p, Zero) == p && Add(Zero, p) == p
  {
  }

  lemma SixthOf(dt: real, w: real, a: real)
    requires w == 6.0 * a
    ensures (dt / 6.0) * w == dt * a
  {
    assert (dt / 6.0) * 6.0 == dt;
    assert (dt / 6.0) * (6.0 * a) == ((dt / 6.0) * 6.0) * a;
  }

  /** One RK4 step keeps the total momentum and moves the mass-weighted
      position sum by dt times it. */
  lemma Rk4StepMoments(ti: real, y: seq<real>, m: seq<real>, G: real, eps: real, inv3: real -> real, dt: real)
    requires |y| == 6 * |m|
    ensures VelMoment(Rk4Step(ti, y, m, G, eps, inv3, dt), m) == VelMoment(y, m)
    ensures PosMoment(Rk4Step(ti, y, m, G, eps, inv3, dt), m) == Add(PosMoment(y, m), Scale(dt, VelMoment(y, m)))
  {
    var s1 := Slope(ti, y, m, G, eps, inv3);
    var s2 := Slope(ti + Half(dt), FlatAdd(y, FlatScale(Half(dt), s1)), m, G, eps, inv3);
    var s3 := Slope(ti + Half(dt), FlatAdd(y, FlatScale(Half(dt), s2)), m, G, eps, inv3);
    var s4 := Slope(ti + dt, FlatAdd(y, FlatScale(dt, s3)), m, G, eps, inv3);
    SlopeMoments(ti, y, m, G, eps, inv3);
    StageMoments(ti + Half(dt), y, Half(dt), s1, m, G, eps, inv3);
    StageMoments(ti + Half(dt), y, Half(dt), s2, m, G, eps, inv3);
    StageMoments(ti + dt, y, dt, s3, m, G, eps, inv3);
    CombineMoments(y, s1, s2, s3, s4, dt, m);
  }

  /** After k RK4 steps the total momentum is the initial one and the
      mass-weighted position sum has moved by k dt times it. */
  lemma Rk4Momentum(t: seq<real>, y0: seq<real>, m: seq<real>, G: real, eps: real, inv3: real -> real, dt: real, k: nat)
    requires k <= |t| && |y0| == 6 * |m|
    ensures VelMoment(Rk4State(t, y0, m, G, eps, inv3, dt, k), m) == VelMoment(y0, m)
    ensures PosMoment(Rk4State(t, y0, m, G, eps, inv3, dt, k), m)
         == Add(PosMoment(y0, m), Scale(Elapsed(k, dt), VelMoment(y0, m)))
  {
    var x0, p0 := PosMoment(y0, m), VelMoment(y0, m);
    assert Scale(Elapsed(0, dt), p0) == Zero;
    var j := 0;
    while j < k
      invariant j <= k
      invariant VelMoment(Rk4State(t, y0, m, G, eps, inv3, dt, j), m) == p0
      invariant PosMoment(Rk4State(t, y0, m, G, eps, inv3, dt, j), m) == Add(x0, Scale(Elapsed(j, dt), p0))
    {
      Rk4MomentumStep(t, y0, m, G, eps, inv3, dt, j);
      j := j + 1;
    }
  }

  /** The inductive step of Rk4Momentum. */
  lemma Rk4MomentumStep(t: seq<real>, y0: seq<real>, m: seq<real>, G: real, eps: real, inv3: real -> real, dt: real, j: nat)
    requires j < |t| && |y0| == 6 * |m|
    requires VelMoment(Rk4State(t, y0, m, G, eps, inv3, dt, j), m) == VelMoment(y0, m)
    requires PosMoment(Rk4State(t, y0, m, G, eps, inv3, dt, j), m)
          == Add(PosMoment(y0, m), Scale(Elapsed(j, dt), VelMoment(y0, m)))
    ensures VelMoment(Rk4State(t, y0, m, G, eps, inv3, dt, j + 1), m) == VelMoment(y0, m)
    ensures PosMoment(Rk4State(t, y0, m, G, eps, inv3, dt, j + 1), m)
         == Add(PosMoment(y0, m), Scale(Elapsed(j + 1, dt), VelMoment(y0, m)))
  {
    var y := Rk4State(t, y0, m, G, eps, inv3, dt, j);
    assert Rk4State(t, y0, m, G, eps, inv3, dt, j + 1) == Rk4Step(t[j], y, m, G, eps, inv3, dt);
    Rk4StepMoments(t[j], y, m, G, eps, inv3, dt);
    MomentDrift(PosMoment(y0, m), VelMoment(y0, m), j, dt);
  }

  /** Moving by j dt and then by dt is moving by (j + 1) dt. */
  lemma MomentDrift(x: Vec3, p: Vec3, j: nat, dt: real)
    ensures Add(Add(x, Scale(Elapsed(j, dt), p)), Scale(dt, p)) == Add(x, Scale(Elapsed(j + 1, dt), p))
  {
    DriftComponents(x, p, Elapsed(j, dt), dt);
    assert Elapsed(j, dt) + dt == Elapsed(j + 1, dt);
  }
}
