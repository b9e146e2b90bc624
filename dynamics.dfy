/** The right-hand side of the first-order system dr/dt = v, dv/dt = a(r)
    on packed state vectors (`funzione`), shared by RK4 and the adaptive solver. */
module Dynamics {
  import opened Wrappers
  import opened Vectors
  import opened StateVector
  import opened Gravity

  /** `funzione(t, y, masse, G, eps)`: unpack y for n = |masses| bodies, compute
      the accelerations, and pack (velocities, accelerations). The time t is
      accepted for the solver interface and not used. A buffer of the wrong
      length fails in the unpacking, as numpy's reshape does. */
  function Derivative(t: real, y: seq<real>, m: seq<real>, G: real, eps: real, inv3: real -> real): (dy: Result<seq<real>>)
    ensures dy.Ok? <==> |y| == 6 * |m|
    ensures dy.Err? ==> dy.error == ShapeMismatch
    ensures dy.Ok? ==> |dy.value| == |y|
  {
    match Unpack(y, |m|)
    case Err(e) => Err(e)
    case Ok(s) => Ok(Pack(s.vel, Accel(s.pos, m, G, eps, inv3)))
  }

  /** On a well-formed buffer the derivative unpacks to (velocities,
      accelerations), and its first half is the second half of y. */
  lemma DerivativeUnpacked(t: real, y: seq<real>, m: seq<real>, G: real, eps: real, inv3: real -> real)
    requires |y| == 6 * |m|
    ensures var s := Unpack(y, |m|).value;
            var dy := Derivative(t, y, m, G, eps, inv3).value;
            Unpack(dy, |m|) == Ok(Phase(s.vel, Accel(s.pos, m, G, eps, inv3)))
            && dy[..3 * |m|] == y[3 * |m|..]
  {
    var n := |m|;
    var s := Unpack(y, n).value;
    var a := Accel(s.pos, m, G, eps, inv3);
    UnpackPack(s.vel, a);
    PackUnpack(y, n);
    assert Pack(s.vel, a)[..3 * n] == Flatten(s.vel);
    assert Pack(s.pos, s.vel)[3 * n..] == Flatten(s.vel);
  }

  /** The system is autonomous: the derivative is the same at every time. */
  lemma DerivativeTimeIndependent(t1: real, t2: real, y: seq<real>, m: seq<real>, G: real, eps: real, inv3: real -> real)
    ensures Derivative(t1, y, m, G, eps, inv3) == Derivative(t2, y, m, G, eps, inv3)
  {
  }

  /** The derivative at a packed state (r, v) is the packed pair (v, a(r)). */
  lemma DerivativeOfPacked(t: real, pos: seq<Vec3>, vel: seq<Vec3>, m: seq<real>, G: real, eps: real, inv3: real -> real)
    requires |pos| == |vel| == |m|
    ensures Derivative(t, Pack(pos, vel), m, G, eps, inv3) == Ok(Pack(vel, Accel(pos, m, G, eps, inv3)))
  {
    UnpackPack(pos, vel);
  }

  /** Momentum bookkeeping on packed derivatives: the mass-weighted sum of the
      acceleration half is zero. */
  lemma DerivativeMomentum(t: real, pos: seq<Vec3>, vel: seq<Vec3>, m: seq<real>, G: real, eps: real, inv3: real -> real)
    requires |pos| == |vel| == |m|
    ensures var dy := Derivative(t, Pack(pos, vel), m, G, eps, inv3).value;
            Unpack(dy, |m|).Ok? && WeightedSum(m, Unpack(dy, |m|).value.vel) == Zero
  {
    DerivativeOfPacked(t, pos, vel, m, G, eps, inv3);
    UnpackPack(vel, Accel(pos, m, G, eps, inv3));
    MomentumBalance(pos, m, G, eps, inv3);
  }
}
