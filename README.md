# N-body numeric core in Dafny

This project models the numeric core of `Progetto/nbody.py`, a small
Newtonian N-body simulator, over exact `real` arithmetic. It covers:

- **StateVector** (`state_vector.dfy`): the packed state vector. `unisci`
  flattens N positions and N velocities, row-major and positions first, into
  one buffer of 6N reals; `separa` reads them back. Both directions of the
  round trip and the index layout are proved. A buffer of the wrong length
  fails, as numpy's `reshape` does.
- **Gravity** (`gravity.dfy`): the pairwise acceleration kernel
  `accelerazioni`. It is a method with the source's double loop, proved
  against a specification function that sums over j ≠ i. Proved properties:
  - a body with no massive companion (or G = 0) gets zero acceleration;
  - action equals reaction;
  - the total mass-weighted acceleration is zero.
- **Dynamics** (`dynamics.dfy`): the right-hand side `funzione`. It unpacks
  the buffer, computes accelerations and packs (velocities, accelerations).
  It does not depend on the time argument.
- **Integrators** (`integrators.dfy`): `integr_eulero` and `integr_rk4` as
  methods.
  - Each allocates one array of rows for positions and one for velocities,
    stores the initial condition in row 0 and fills row i + 1 in the time
    loop.
  - Each is proved against a function giving the state after k steps
    (`EulerState`, `Rk4State`).
  - Euler updates the velocity first and then the positions with the new
    velocity. RK4 combines four slopes with weights (1, 2, 2, 1) / 6.
  - With no force, both integrators drift exactly: v[k] = v0 and
    r[k] = r0 + k dt v0. Under both integrators the total momentum is
    conserved and the barycentre moves uniformly.
- **Diagnostics** (`diagnostics.dfy`):
  - `baricentro`, the mass-weighted mean position of each row;
  - `radial_velocity`, one body's velocity projected on a normalised line of
    sight, with numpy's negative indices and its out-of-range error;
  - `energia_totale`, kinetic plus pair potential energy of each row, with
    the source's loops over pairs i < j.

The square root is never evaluated. The kernel takes `inv3`, standing for
q ↦ 1 / sqrt(q)^3 of the softened squared distance. The potential takes
`invDist`, standing for q ↦ 1 / sqrt(q). The radial velocity takes the length
of the line of sight as `norm`, tied to it by `norm * norm == Dot(dir, dir)`.
Nothing is assumed about `inv3` or `invDist`, except where a lemma states a
hypothesis (non-negativity, for the sign of the potential).

Arrays of shape (N, 3) are sequences of `Vec3`; a trajectory of shape
(M, N, 3) is an array of M rows (in the integrators) or a sequence of rows
(in the diagnostics).

## Model

| member | source | states |
|---|---|---|
| StateVector.Flatten | Progetto/nbody.py:57-58 | `reshape(-1)` of an (N, 3) array has 3N entries |
| StateVector.Pack | Progetto/nbody.py:55-59 | `unisci(r, v)` has length 3·len(r) + 3·len(v) |
| StateVector.Unpack | Progetto/nbody.py:62-67 | `separa(y, n)` succeeds exactly when len(y) = 6n, giving n positions and n velocities; otherwise it fails with a shape error |
| StateVector.PackLayout | Progetto/nbody.py:55-59 | entry 3i + c of the packed vector is r[i][c], and entry 3N + 3i + c is v[i][c] |
| StateVector.UnpackPack | Progetto/nbody.py:55-67 | `separa(unisci(r, v), n)` returns exactly (r, v) |
| StateVector.PackUnpack | Progetto/nbody.py:55-67 | re-packing an unpacked buffer of length 6n gives the buffer back |
| StateVector.FlatAdd | Progetto/nbody.py:194 | numpy's element-wise `+` on two flat arrays of equal length (`T + U` here, and the RK4 stage updates at lines 130-135): the sum has that same length |
| StateVector.PackAxpy | Progetto/nbody.py:130-132 | a stage update `y + h*s` on packed states applies the same update to the position half and to the velocity half |
| StateVector.UnpackAdd | Progetto/nbody.py:135-137 | `separa` of a sum of buffers is the vector-wise sum of the separated halves |
| StateVector.UnpackScale | Progetto/nbody.py:135-137 | `separa` of a scaled buffer is the separated halves, scaled |
| StateVector.UnpackAxpy | Progetto/nbody.py:130-137 | `separa(y + c*s)` is `separa(y)` plus c times `separa(s)`, half by half |
| Gravity.PullOf | Progetto/nbody.py:49-52 | the pull of a body at rj with mass mj on a body at ri, G m_j (r_j − r_i) · inv3(‖r_j − r_i‖² + eps²); it is zero when G = 0 or m_j = 0 |
| Gravity.PartialAccel | Progetto/nbody.py:46-52 | what a[i] holds after the inner loop has visited j = 0 .. k − 1: the pulls of every visited j ≠ i in visiting order; with G = 0 it is the zero vector |
| Gravity.Accel | Progetto/nbody.py:42-53 | the acceleration array: one vector per body, entry i being the sum over all j ≠ i of the pulls |
| Gravity.Accelerations | Progetto/nbody.py:42-53 | the double loop returns one vector per body, equal to the sum over j ≠ i of G m_j (r_j − r_i) / d³ |
| Gravity.AddPulls | Progetto/nbody.py:47-52 | the inner loop for body i leaves a[i] holding the sum of the pulls of every j ≠ i, and changes no other entry |
| Gravity.AccelNoSources | Progetto/nbody.py:46-52 | a body with no other body exerting a pull (G = 0 or m_j = 0 for all j ≠ i) has zero acceleration |
| Gravity.AccelForceFree | Progetto/nbody.py:42-53 | for one body, or G = 0, the result is the zero array |
| Gravity.SelfPullVanishes | Progetto/nbody.py:48-52 | with a non-zero softening length eps, the skipped self-term would be exactly the zero vector; with eps = 0 it would be 0 / 0, and the `i != j` guard is what keeps it out |
| Gravity.ActionReaction | Progetto/nbody.py:49-52 | m_i times the pull of j on i is minus m_j times the pull of i on j |
| Gravity.MomentumBalance | Progetto/nbody.py:42-53 | Σ_i m_i a_i = 0 for the accelerations the kernel returns |
| Dynamics.Derivative | Progetto/nbody.py:70-78 | `funzione` succeeds exactly when len(y) = 6n, with a result of the same length; otherwise it fails with the shape error of `separa` |
| Dynamics.DerivativeUnpacked | Progetto/nbody.py:70-78 | the result unpacks to (velocities of y, accelerations at the positions of y), and its first 3n entries equal the velocity half of y |
| Dynamics.DerivativeTimeIndependent | Progetto/nbody.py:70-78 | the result does not depend on t |
| Dynamics.DerivativeOfPacked | Progetto/nbody.py:70-78 | at a packed state (r, v) the derivative is the packed pair (v, a(r)) |
| Dynamics.DerivativeMomentum | Progetto/nbody.py:70-78 | the acceleration half of the derivative has zero mass-weighted sum |
| Integrators.TimeStep | Progetto/nbody.py:81 | the step `dt = tempi[1] - tempi[0]` (also line 115) carries t[0] to t[1] |
| Integrators.EulerStep | Progetto/nbody.py:99-105 | one velocity-first Euler step: v' = v + dt·a(r), then r' = r + dt·v'; it keeps N positions and N velocities |
| Integrators.EulerState | Progetto/nbody.py:96-109 | the state after k Euler steps from (r0, v0); it keeps N positions and N velocities |
| Integrators.EulerAdvance | Progetto/nbody.py:98-105 | one pass of the time loop: v ← v + a(r) dt first, then r ← r + v dt with the updated v |
| Integrators.EulerRecord | Progetto/nbody.py:96-109 | one loop pass stores the state after i + 1 steps in row i + 1 and keeps rows 0 .. i |
| Integrators.IntegrateEuler | Progetto/nbody.py:80-111 | with at least two time points, both arrays have len(tempi) rows; row k is the state after k steps of size dt = t[1] − t[0], so row 0 is (r0, v0) and each later row follows the velocity-first recurrence |
| Integrators.Rk4Step | Progetto/nbody.py:129-135 | one RK4 step from time t_i: slopes at y, at y + (dt/2)·k1, at y + (dt/2)·k2 and at y + dt·k3, combined with weights (1, 2, 2, 1)/6; the result has the length of y |
| Integrators.Rk4Combine | Progetto/nbody.py:135 | the update y + dt/6 (k1 + 2 k2 + 2 k3 + k4), of the length of y |
| Integrators.Rk4State | Progetto/nbody.py:126-139 | the packed state after k RK4 steps from y0, step j starting at t[j]; it has the length of y0 |
| Integrators.Rk4Advance | Progetto/nbody.py:127-135 | the four calls of `funzione` at t_i, t_i + dt/2 (twice) and t_i + dt, and the (1, 2, 2, 1)/6 update of y, compute one RK4 step |
| Integrators.Rk4Record | Progetto/nbody.py:126-139 | one loop pass advances y and stores `separa(y)` in row i + 1, keeping rows 0 .. i |
| Integrators.IntegrateRk4 | Progetto/nbody.py:114-141 | with at least two time points, both arrays have len(tempi) rows; row k is `separa` of the packed state after k RK4 steps, so row 0 is (r0, v0) |
| Integrators.Rk4WeightsSumToOne | Progetto/nbody.py:135 | four equal slopes s advance y by exactly dt·s: the weights sum to one |
| Integrators.EulerStepForceFree | Progetto/nbody.py:99-105 | with no force, one Euler step moves positions by dt·v and keeps v |
| Integrators.Rk4StepForceFree | Progetto/nbody.py:129-135 | with no force, one RK4 step moves positions by dt·v and keeps v |
| Integrators.EulerForceFree | Progetto/nbody.py:96-109 | with no force, after k Euler steps v[k] = v0 and r[k] = r0 + k·dt·v0 |
| Integrators.Rk4ForceFree | Progetto/nbody.py:126-139 | with no force, the packed state after k RK4 steps is (r0 + k·dt·v0, v0) |
| Integrators.EulerRk4AgreeForceFree | Progetto/nbody.py:80-141 | with no force, RK4 row k equals Euler row k exactly |
| Integrators.EulerStepMomentum | Progetto/nbody.py:99-105 | one Euler step keeps Σ m_i v_i and moves Σ m_i r_i by dt·Σ m_i v_i |
| Integrators.EulerMomentum | Progetto/nbody.py:96-109 | after k Euler steps the total momentum is the initial one and Σ m_i r_i has moved by k·dt times it |
| Integrators.MomentsAxpy | Progetto/nbody.py:130-135 | Σ m_i r_i and Σ m_i v_i of `y + c*s` are those of y plus c times those of s |
| Integrators.MomentsAdd | Progetto/nbody.py:135 | Σ m_i r_i and Σ m_i v_i of a sum of buffers are the sums of those of the parts |
| Integrators.SlopeMoments | Progetto/nbody.py:70-78 | the slope at y has Σ m_i v_i of y as its position moment and zero velocity moment |
| Integrators.StageMoments | Progetto/nbody.py:130-132 | a stage estimate `y + h*s` keeps the momentum of y, so its slope has the same moments |
| Integrators.CombineMoments | Progetto/nbody.py:135 | the (1, 2, 2, 1)/6 update keeps Σ m_i v_i and moves Σ m_i r_i by dt·Σ m_i v_i |
| Integrators.Rk4StepMoments | Progetto/nbody.py:129-135 | one RK4 step keeps Σ m_i v_i and moves Σ m_i r_i by dt·Σ m_i v_i |
| Integrators.Rk4Momentum | Progetto/nbody.py:126-139 | after k RK4 steps the total momentum is the initial one and Σ m_i r_i has moved by k·dt times it |
| Integrators.Rk4MomentumStep | Progetto/nbody.py:126-139 | one more RK4 step extends the momentum statement from k to k + 1 steps |
| Diagnostics.Barycenter | Progetto/nbody.py:201-202 | the barycentre c of a row satisfies M·c = Σ m_i r_i |
| Diagnostics.Barycenters | Progetto/nbody.py:197-202 | one barycentre per row, each satisfying M·c_k = Σ_i m_i R[k, i] |
| Diagnostics.BarycenterCoincident | Progetto/nbody.py:197-202 | if every body is at p, the barycentre is p |
| Diagnostics.EulerBarycenterDrift | Progetto/nbody.py:197-202 | the barycentre of Euler row k is the initial barycentre plus k·dt times the barycentre velocity |
| Diagnostics.Rk4BarycenterDrift | Progetto/nbody.py:197-202 | for the RK4 rows, Σ m_i v_i stays at its initial value and the barycentre is the initial barycentre plus k·dt times the barycentre velocity |
| Diagnostics.BodyIndex | Progetto/nbody.py:211 | numpy's index −N ≤ idx < N selects body idx, counting from the end when negative |
| Diagnostics.Unit | Progetto/nbody.py:209-210 | the line of sight divided by its length; scaled back by that length it gives the line of sight |
| Diagnostics.UnitLength | Progetto/nbody.py:209-210 | the normalised line of sight has length one |
| Diagnostics.DotUnit | Progetto/nbody.py:210-211 | projecting on the normalised direction and multiplying by its norm is projecting on the direction |
| Diagnostics.RadialVelocity | Progetto/nbody.py:205-211 | one entry per time row when −N ≤ idx < N; otherwise it fails with an index error |
| Diagnostics.RadialVelocityProjects | Progetto/nbody.py:205-211 | entry k times the norm of the line of sight equals V[k, idx] · n |
| Diagnostics.RadialVelocityDefaultAxis | Progetto/nbody.py:205 | with the default line of sight (1, 0, 0), entry k is the x component of V[k, idx] |
| Diagnostics.Kinetic | Progetto/nbody.py:183-184 | the kinetic energy ½ Σ m_i ‖v_i‖² of one row: twice it is the sum of m_i ‖v_i‖² |
| Diagnostics.SpeedSumNonNegative | Progetto/nbody.py:183-184 | with non-negative masses, Σ m_i v_i² over any prefix of the bodies is non-negative |
| Diagnostics.KineticNonNegative | Progetto/nbody.py:183-184 | with non-negative masses, T[k] = ½ Σ m_i v_i² is non-negative |
| Diagnostics.PairEnergy | Progetto/nbody.py:189-191 | the pair term −G m_i m_j / ‖r_i − r_j‖, zero when G = 0 or either mass is zero |
| Diagnostics.PairEnergySymmetric | Progetto/nbody.py:189-191 | the pair term is the same for (i, j) and (j, i) |
| Diagnostics.Potential | Progetto/nbody.py:186-191 | the potential energy of one row, the sum of the pair terms over i < j; for two bodies it is their one pair term |
| Diagnostics.RowPotential | Progetto/nbody.py:186-192 | the accumulator loops over pairs i < j compute the potential energy of the row |
| Diagnostics.TotalEnergy | Progetto/nbody.py:172-194 | one entry per row of R, equal to the kinetic energy of V[k] plus the potential energy of R[k] |
| Diagnostics.PairEnergyNonPositive | Progetto/nbody.py:189-191 | with G ≥ 0, non-negative masses and a non-negative reciprocal distance, each pair term is ≤ 0 |
| Diagnostics.PotentialNonPositive | Progetto/nbody.py:186-192 | under the same hypotheses the potential energy of a row is ≤ 0 |
| Diagnostics.SingleBodyEnergy | Progetto/nbody.py:186-192 | with at most one body there are no pairs, and the potential energy is zero |

Some lemmas and functions are steps inside the proofs above and model no
source lines of their own:

- `StateVector.FlattenAdd` and `StateVector.FlattenScale` serve `StateVector.PackAxpy`.
- `Integrators.Half` (the half step dt/2, with h + h = dt) serves `Integrators.Rk4Step` and `Integrators.Rk4Advance`.
- `Integrators.WeightsOfMoments` serves `Integrators.CombineMoments`.
- `Diagnostics.InverseTotal` (the reciprocal of the total mass) serves `Diagnostics.Barycenter`.

## Left out

- Floating point. Everything is exact `real` arithmetic, so rounding, overflow, NaN and infinities are not modelled. Neither are the energy-conservation and convergence-order behaviour of the integrators: these are numerical-analysis facts, not exact properties of the code.
- Square roots. `np.sqrt` in the kernel and in the potential, and `np.linalg.norm` in `radial_velocity`, are passed in as `inv3`, `invDist` and `norm`; nothing is proved about their values.
- `carica_json` (Progetto/nbody.py:9-40) is not part of this model. It is file and JSON input with `np.linspace`.
- `integr_scipy` (Progetto/nbody.py:143-168) is not part of this model. It wraps SciPy's `solve_ivp`, whose code is not available here. Its use of `funzione` is covered by `Dynamics.Derivative`.
- `Progetto/run_sim.py`, `Progetto/run_anim.py` and `Progetto/run_rv.py` are not part of this model. They are command-line parsing and plotting.
- Integrators.IntegrateEuler: the step is t[1] − t[0] for every row, as in the source. A non-uniform grid is not given special treatment. Fewer than two time points (an `IndexError` in the source) are excluded by the precondition rather than modelled as an error.
- Integrators.IntegrateRk4: the same holds as for `IntegrateEuler`. Row 0 stores r0 and v0 directly, as the source does; the contract states this through the round trip `separa(unisci(r0, v0))`.
- Integrators.IntegrateEuler, Integrators.IntegrateRk4: the zero-filled arrays of the source are arrays of rows that are all overwritten before being read. The model does not state their initial zeros.
- Gravity.Accelerations: shapes that numpy would broadcast, or that would raise an `IndexError` (fewer masses than bodies), are excluded by the precondition `|r| <= |m|`. The same goes for the row lengths required by `Dynamics`, the integrators and `Diagnostics.TotalEnergy`.
- Gravity.Accelerations: with eps = 0 (the default), two distinct bodies at the same point make the source divide 0 by 0 (NaN). The model applies `inv3` to 0 and adds a finite multiple of the zero vector instead.
- Diagnostics.Barycenters: requires a non-zero total mass. With a zero total, numpy divides by zero and returns infinities or NaN.
- Diagnostics.RadialVelocity: requires a non-zero line of sight. With (0, 0, 0), numpy's normalisation produces NaN.
- Diagnostics.TotalEnergy: the unsoftened `dist` of the source is zero for coinciding bodies. The model leaves its reciprocal to `invDist` and so says nothing about that case.
