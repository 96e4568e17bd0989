/** The first generation of system classes (pydykit/systems.py): a planar
    pendulum in port-Hamiltonian form, a spherical pendulum in Cartesian
    coordinates and a rigid body in unit quaternions, each with the state
    layout [q, p, λ], its mass matrix, potentials and constraint. */
module LegacySystems {
  import opened LinAlg
  import opened Outcomes
  import Operators
  import PortHamiltonian
  import opened MultiBodyLayout

  // ---------------------------------------------------------------------
  // The state layout [q, p, λ] shared by the multibody classes.

  /** decompose_state: AssertionError unless the state has 2·n + m
      entries; else the blocks [0, n), [n, 2n) and [2n, end). */
  function SplitState(state: Vector, n: nat, m: nat): (r: Result<Parts>)
    ensures r.Ok? <==> |state| == 2 * n + m
    ensures r.Err? ==> r.error.AssertionError?
    ensures r.Ok? ==>
      && |r.value.position| == n && |r.value.momentum| == n && |r.value.multiplier| == m
      && ComposeState(r.value) == state
  {
    if |state| != 2 * n + m then Err(AssertionError("state has the wrong length"))
    else Ok(DecomposeState(state, n))
  }

  /** compose_state then decompose_state gives the blocks back. */
  lemma SplitCompose(parts: Parts)
    requires |parts.position| == |parts.momentum|
    ensures SplitState(ComposeState(parts), |parts.position|, |parts.multiplier|) == Ok(parts)
  {
    ComposeDecompose(ComposeState(parts), parts, |parts.position|);
  }

  // ---------------------------------------------------------------------
  // Pendulum2D: get_z_vector, get_jacobian, get_j_matrix, get_e_matrix

  datatype Pendulum2D = Pendulum2D(mass: real, gravity: real, length: real)

  /** get_z_vector: [m·g·l·sin(q), v] of state (q, v) = (state[0], state[1]);
      IndexError for a shorter state. */
  function ZVector(sys: Pendulum2D, state: Vector, sin: real -> real): (r: Result<Vector>)
    ensures r.Ok? <==> |state| >= 2
    ensures r.Ok? ==> |r.value| == 2 && r.value[1] == state[1]
  {
    if |state| < 2 then Err(IndexError)
    else Ok([PortHamiltonian.Torque(sys.mass, sys.gravity, sys.length, sin(state[0])), state[1]])
  }

  /** get_jacobian: diag(m·g·l·cos(q), 1). */
  function Jacobian(sys: Pendulum2D, state: Vector, cos: real -> real): (r: Result<Matrix>)
    ensures r.Ok? <==> |state| >= 2
    ensures r.Ok? ==> IsMatrix(r.value, 2, 2) && r.value[0][1] == 0.0 && r.value[1] == [0.0, 1.0]
  {
    if |state| < 2 then Err(IndexError)
    else Ok(Diag([PortHamiltonian.Torque(sys.mass, sys.gravity, sys.length, cos(state[0])), 1.0]))
  }

  /** get_j_matrix: [[0, 1], [−1, 0]]. */
  function JMatrix(): (j: Matrix)
    ensures IsSkew(j) && |j| == 2
  {
    PortHamiltonian.PendulumStructureMatrix()
  }

  /** get_e_matrix: diag(1, m·l²), whatever the state. */
  function EMatrix(sys: Pendulum2D): (e: Matrix)
    ensures IsMatrix(e, 2, 2) && e[0][1] == 0.0 && e[1][0] == 0.0
    ensures e[0][0] == 1.0 && e[1][1] == PortHamiltonian.Inertia(sys.mass, sys.length)
  {
    Diag([1.0, PortHamiltonian.Inertia(sys.mass, sys.length)])
  }

  /** The planar pendulum's structure does no work on its co-state:
      zᵀ·J·z = 0. */
  lemma PendulumPowerBalance(sys: Pendulum2D, state: Vector, sin: real -> real)
    requires |state| >= 2
    ensures var z := ZVector(sys, state, sin).value;
      Dot(z, MatVec(JMatrix(), z)) == 0.0
  {
    SkewQuadraticFormZero(JMatrix(), ZVector(sys, state, sin).value);
  }

  // ---------------------------------------------------------------------
  // Pendulum3DCartesian

  /** The spherical pendulum: a point mass on a rod of length ℓ (the norm
      of the initial position) under a constant acceleration. */
  datatype Pendulum3D = Pendulum3D(
    mass: real, length: real, extAcc: Vector, nbrSpatialDimensions: nat, nbrConstraints: nat)

  function Pendulum3DDecompose(sys: Pendulum3D, state: Vector): (r: Result<Parts>)
    ensures r.Ok? <==> |state| == 2 * sys.nbrSpatialDimensions + sys.nbrConstraints
  {
    SplitState(state, sys.nbrSpatialDimensions, sys.nbrConstraints)
  }

  /** get_mass_matrix: mass·I. */
  function Pendulum3DMassMatrix(sys: Pendulum3D): (m: Matrix)
    ensures IsMatrix(m, sys.nbrSpatialDimensions, sys.nbrSpatialDimensions)
    ensures forall i, j :: 0 <= i < |m| && 0 <= j < |m| ==> m[i][j] == (if i == j then sys.mass else 0.0)
  {
    var m := ScaleMatrix(sys.mass, Identity(sys.nbrSpatialDimensions));
    assert forall i, j :: 0 <= i < |m| && 0 <= j < |m| ==> m[i][j] == sys.mass * Identity(sys.nbrSpatialDimensions)[i][j];
    m
  }

  /** external_potential_gradient: −M·a, that is −mass·a. */
  function Pendulum3DExternalGradient(sys: Pendulum3D): (g: Vector)
    requires |sys.extAcc| == sys.nbrSpatialDimensions
    ensures |g| == |sys.extAcc|
    ensures forall i :: 0 <= i < |g| ==> g[i] == -(sys.mass * sys.extAcc[i])
  {
    var m := Pendulum3DMassMatrix(sys);
    ScaleMatVec(sys.mass, Identity(sys.nbrSpatialDimensions), sys.extAcc);
    IdentityMatVec(sys.extAcc);
    assert MatVec(m, sys.extAcc) == Scale(sys.mass, sys.extAcc);
    Neg(MatVec(m, sys.extAcc))
  }

  /** external_potential: −(M·a)ᵀ·q. */
  function Pendulum3DExternalPotential(sys: Pendulum3D, q: Vector): real
  {
    -Dot(MatVec(Pendulum3DMassMatrix(sys), sys.extAcc), q)
  }

  /** The external potential is linear in q with slope −M·a: its change
      along w is exactly the gradient applied to w. */
  lemma Pendulum3DExternalPotentialSlope(sys: Pendulum3D, q: Vector, w: Vector)
    requires |sys.extAcc| == sys.nbrSpatialDimensions && |q| == |w|
    ensures Pendulum3DExternalPotential(sys, Add(q, w))
            == Pendulum3DExternalPotential(sys, q) + Dot(Pendulum3DExternalGradient(sys), w)
  {
    var ma := MatVec(Pendulum3DMassMatrix(sys), sys.extAcc);
    DotAddRight(ma, q, w);
    DotComm(Neg(ma), w);
    DotNegRight(w, ma);
    DotComm(w, ma);
  }

  /** 1/ℓ², the factor the constraint and its gradient share. */
  function InverseSquare(length: real): real
    requires length != 0.0
  {
    1.0 / (length * length)
  }

  /** Proof step for the constraint lemmas below: the shared factor times
      ℓ² is one. */
  lemma InverseSquareInverts(length: real)
    requires length != 0.0
    ensures InverseSquare(length) * (length * length) == 1.0
  {
  }

  /** constraint: ½·(qᵀq/ℓ² − 1). */
  function Pendulum3DConstraint(sys: Pendulum3D, q: Vector): real
    requires sys.length != 0.0
  {
    SphereConstraint(InverseSquare(sys.length), q)
  }

  /** ½·((k·q)ᵀq − 1): zero on the sphere qᵀq = 1/k. */
  function SphereConstraint(k: real, q: Vector): real
  {
    0.5 * (Dot(Scale(k, q), q) - 1.0)
  }

  /** k·(q + w) = k·q + k·w. */
  lemma ScaleAdd(k: real, q: Vector, w: Vector)
    requires |q| == |w|
    ensures Scale(k, Add(q, w)) == Add(Scale(k, q), Scale(k, w))
  {
    var s := Add(q, w);
    forall i | 0 <= i < |s|
      ensures Scale(k, s)[i] == Add(Scale(k, q), Scale(k, w))[i]
    {
      assert s[i] == q[i] + w[i];
    }
  }

  /** (k·(q + w))ᵀ(q + w) = (k·q)ᵀq + 2·(k·q)ᵀw + (k·w)ᵀw. */
  lemma ScaledQuadraticSum(k: real, q: Vector, w: Vector)
    requires |q| == |w|
    ensures Dot(Scale(k, Add(q, w)), Add(q, w))
            == Dot(Scale(k, q), q) + 2.0 * Dot(Scale(k, q), w) + Dot(Scale(k, w), w)
  {
    var s := Add(q, w);
    ScaleAdd(k, q, w);
    DotAddLeft(Scale(k, q), Scale(k, w), s);
    DotAddRight(Scale(k, q), q, w);
    DotAddRight(Scale(k, w), q, w);
    ScaledCross(k, q, w);
  }

  /** (k·w)ᵀq = (k·q)ᵀw. */
  lemma ScaledCross(k: real, q: Vector, w: Vector)
    ensures Dot(Scale(k, w), q) == Dot(Scale(k, q), w)
  {
    ScaledRowSlope(k, w, q);
    ScaledRowSlope(k, q, w);
    DotComm(w, q);
  }

  /** constraint_gradient: the row qᵀ/ℓ². */
  function Pendulum3DConstraintGradient(sys: Pendulum3D, q: Vector): (g: Matrix)
    requires sys.length != 0.0
    ensures IsMatrix(g, 1, |q|)
  {
    [Scale(InverseSquare(sys.length), q)]
  }

  /** The constraint vanishes exactly on the sphere of radius ℓ. */
  lemma Pendulum3DConstraintZero(sys: Pendulum3D, q: Vector)
    requires sys.length != 0.0
    ensures Pendulum3DConstraint(sys, q) == 0.0 <==> NormSq(q) == sys.length * sys.length
  {
    var k := InverseSquare(sys.length);
    InverseSquareInverts(sys.length);
    ScaledRowSlope(k, q, q);
    QuotientZero(Dot(q, q), sys.length * sys.length, k);
  }

  /** The constraint gradient is exact: moving q by w changes the
      constraint by (qᵀ/ℓ²)·w + ½·wᵀw/ℓ². */
  lemma Pendulum3DConstraintGradientExact(sys: Pendulum3D, q: Vector, w: Vector)
    requires sys.length != 0.0 && |q| == |w|
    ensures Pendulum3DConstraint(sys, Add(q, w))
            == Pendulum3DConstraint(sys, q) + Dot(Pendulum3DConstraintGradient(sys, q)[0], w)
               + 0.5 * Dot(Scale(InverseSquare(sys.length), w), w)
  {
    ScaledQuadraticSum(InverseSquare(sys.length), q, w);
  }

  /** (c·q)·w = c·(q·w). */
  lemma ScaledRowSlope(c: real, q: Vector, w: Vector)
    ensures Dot(Scale(c, q), w) == c * Dot(q, w)
  {
    DotComm(Scale(c, q), w);
    DotScaleRight(w, c, q);
    DotComm(w, q);
  }

  /** ½·(k·a − 1) = 0 exactly when a = l, for k = 1/l. */
  lemma QuotientZero(a: real, l: real, k: real)
    requires k * l == 1.0
    ensures 0.5 * (k * a - 1.0) == 0.0 <==> a == l
  {
    if k * a == 1.0 {
      calc {
        a;
        == (k * l) * a;
        == l * (k * a);
        == l;
      }
    }
  }

  /** (q + w)ᵀ(q + w) = qᵀq + 2·qᵀw + wᵀw. */
  lemma QuadraticSum(q: Vector, w: Vector)
    requires |q| == |w|
    ensures Dot(Add(q, w), Add(q, w)) == Dot(q, q) + 2.0 * Dot(q, w) + Dot(w, w)
  {
    DotAddLeft(q, w, Add(q, w));
    DotAddRight(q, q, w);
    DotAddRight(w, q, w);
    DotComm(w, q);
  }

  /** initialize: the initial state [Q, M·V, 0]. */
  function Pendulum3DInitialState(sys: Pendulum3D, positions: Vector, velocities: Vector): (state: Vector)
    requires |positions| == sys.nbrSpatialDimensions && |velocities| == sys.nbrSpatialDimensions
    ensures Pendulum3DDecompose(sys, state)
            == Ok(Parts(positions, Scale(sys.mass, velocities), Zeros(sys.nbrConstraints)))
  {
    var p := MatVec(Pendulum3DMassMatrix(sys), velocities);
    ScaleMatVec(sys.mass, Identity(sys.nbrSpatialDimensions), velocities);
    IdentityMatVec(velocities);
    assert p == Scale(sys.mass, velocities);
    SplitCompose(Parts(positions, p, Zeros(sys.nbrConstraints)));
    ComposeState(Parts(positions, p, Zeros(sys.nbrConstraints)))
  }

  // ---------------------------------------------------------------------
  // RigidBodyRotatingQuaternions

  datatype RigidBody = RigidBody(inertias: Vector, nbrDof: nat, nbrConstraints: nat)

  function RigidBodyDecompose(sys: RigidBody, state: Vector): (r: Result<Parts>)
    ensures r.Ok? <==> |state| == 2 * sys.nbrDof + sys.nbrConstraints
  {
    SplitState(state, sys.nbrDof, sys.nbrConstraints)
  }

  /** get_mass_matrix: 4·G(q)ᵀ·diag(inertias)·G(q) with the convective G of
      q[0:4]; AssertionError unless that slice has four entries. */
  function RigidBodyMassMatrix(sys: RigidBody, q: Vector): (r: Result<Matrix>)
    requires |sys.inertias| == 3
    ensures r.Ok? <==> |q| >= 4
    ensures r.Ok? ==> IsMatrix(r.value, 4, 4) && IsSymmetric(r.value)
  {
    var quat := if |q| >= 4 then q[..4] else q;
    match Operators.ConvectiveTransformationMatrix(quat)
    case Err(e) => Err(e)
    case Ok(g) =>
      var inertia := Diag(sys.inertias);
      Operators.CombineSymmetric(g, inertia);
      Ok(Operators.CombineGInertias(g, inertia))
  }

  /** The quaternion spans the kernel of the rigid body's mass matrix:
      M(q)·q = 0, as G(q)·q = 0. */
  lemma RigidBodyMassAnnihilatesQuaternion(sys: RigidBody, q: Vector)
    requires |sys.inertias| == 3 && |q| == 4
    ensures IsZero(MatVec(RigidBodyMassMatrix(sys, q).value, q))
  {
    assert q[..4] == q;
    var g := Operators.ConvectiveTransformationMatrix(q).value;
    var inertia := Diag(sys.inertias);
    Operators.TransformationAnnihilatesQuaternion(q, -1.0);
    var gq := MatVec(g, q);
    assert gq == Zeros(3);
    var ig := MatMul(inertia, g, 4);
    var gt := Transpose(g, 4);
    ScaleMatVec(4.0, MatMul(gt, ig, 4), q);
    MatMulVec(gt, ig, 4, q);
    MatMulVec(inertia, g, 4, q);
    MatVecZeros(inertia, 3);
    var igq := MatVec(inertia, gq);
    assert igq == Zeros(3);
    MatVecZeros(gt, 3);
  }

  /** The initial velocity of initialize: v₀ = ½·G(Q)ᵀ·V with the
      convective G of the initial quaternion Q and the angular velocity V.
      It is orthogonal to Q, as G(Q)·Q = 0. */
  function RigidBodyInitialVelocity(positions: Vector, velocities: Vector): (v0: Vector)
    requires |positions| == 4 && |velocities| == 3
    ensures |v0| == 4 && Dot(positions, v0) == 0.0
  {
    var g := Operators.ConvectiveTransformationMatrix(positions).value;
    var gt := Transpose(g, 4);
    var gtv := MatVec(gt, velocities);
    Operators.TransformationAnnihilatesQuaternion(positions, -1.0);
    BilinearTranspose(g, velocities, positions);
    assert MatVec(g, positions) == Zeros(3);
    DotZerosRight(velocities, 3);
    DotScaleRight(positions, 0.5, gtv);
    Scale(0.5, gtv)
  }

  /** initialize: the state [Q, M(Q)·v₀, 0] with v₀ the initial velocity;
      AssertionError unless Q is a quaternion, ValueError unless V has three
      entries. The initial momentum is orthogonal to the quaternion. */
  function RigidBodyInitialState(sys: RigidBody, positions: Vector, velocities: Vector): (r: Result<Vector>)
    requires |sys.inertias| == 3
    ensures r.Ok? <==> |positions| == 4 && |velocities| == 3
    ensures r.Ok? ==>
      && |r.value| == 8 + sys.nbrConstraints
      && r.value[..4] == positions
      && r.value[8..] == Zeros(sys.nbrConstraints)
      && r.value[4..8] == MatVec(RigidBodyMassMatrix(sys, positions).value,
                                 RigidBodyInitialVelocity(positions, velocities))
      && Dot(positions, r.value[4..8]) == 0.0
  {
    match Operators.ConvectiveTransformationMatrix(positions)
    case Err(e) => Err(e)
    case Ok(g) =>
      if |velocities| != 3 then Err(ValueError("matmul: dimension mismatch"))
      else
        var v0 := RigidBodyInitialVelocity(positions, velocities);
        var m := RigidBodyMassMatrix(sys, positions).value;
        var p := MatVec(m, v0);
        MomentumOrthogonal(sys, positions, v0);
        var state := ComposeState(Parts(positions, p, Zeros(sys.nbrConstraints)));
        assert state[..4] == positions && state[4..8] == p;
        Ok(state)
  }

  /** Qᵀ·M(Q)·v = 0: the mass matrix maps every velocity to a momentum
      orthogonal to the quaternion. */
  lemma MomentumOrthogonal(sys: RigidBody, q: Vector, v: Vector)
    requires |sys.inertias| == 3 && |q| == 4 && |v| == 4
    ensures Dot(q, MatVec(RigidBodyMassMatrix(sys, q).value, v)) == 0.0
  {
    RigidBodyMassAnnihilatesQuaternion(sys, q);
    KernelOrthogonal(RigidBodyMassMatrix(sys, q).value, q, v);
  }

  /** A symmetric matrix maps every vector orthogonally to its kernel. */
  lemma KernelOrthogonal(m: Matrix, q: Vector, v: Vector)
    requires |q| == |v| && IsMatrix(m, |q|, |q|) && IsSymmetric(m) && IsZero(MatVec(m, q))
    ensures Dot(q, MatVec(m, v)) == 0.0
  {
    SymmetricBilinear(m, q, v);
    assert MatVec(m, q) == Zeros(|q|);
    DotZerosRight(v, |q|);
  }

  /** kinetic_energy_gradient_from_velocity: 4·G(v)ᵀ·I·G(v)·q with the
      convective G of v[0:4]; AssertionError unless v has four leading
      entries, ValueError unless q has four entries. Applied to the
      quaternion itself it vanishes. */
  function RigidBodyKineticGradientFromVelocity(sys: RigidBody, q: Vector, v: Vector): (r: Result<Vector>)
    requires |sys.inertias| == 3
    ensures r.Ok? <==> |v| >= 4 && |q| == 4
    ensures r.Ok? ==> |r.value| == 4
    ensures r.Ok? && v[..4] == q ==> IsZero(r.value)
  {
    match RigidBodyMassMatrix(sys, v)
    case Err(e) => Err(e)
    case Ok(m) =>
      if |q| != 4 then Err(ValueError("matmul: dimension mismatch"))
      else
        if v[..4] == q then
          RigidBodyMassAnnihilatesQuaternion(sys, q);
          assert q[..4] == q;
          Ok(MatVec(m, q))
        else
          Ok(MatVec(m, q))
  }

  /** constraint: ½·(qᵀq − 1), the unit-quaternion condition. */
  function RigidBodyConstraint(q: Vector): real
  {
    0.5 * (Dot(q, q) - 1.0)
  }

  /** constraint_gradient: qᵀ. */
  function RigidBodyConstraintGradient(q: Vector): Vector
  {
    q
  }

  /** The constraint vanishes exactly on unit quaternions and its gradient
      is exact: moving q by w changes it by qᵀw + ½·wᵀw. */
  lemma RigidBodyConstraintGradientExact(q: Vector, w: Vector)
    requires |q| == |w|
    ensures RigidBodyConstraint(q) == 0.0 <==> NormSq(q) == 1.0
    ensures RigidBodyConstraint(Add(q, w))
            == RigidBodyConstraint(q) + Dot(RigidBodyConstraintGradient(q), w) + 0.5 * Dot(w, w)
  {
    QuadraticSum(q, w);
    DotComm(q, w);
  }
}
