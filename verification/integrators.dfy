/** The integrators of pydykit: the residuum of one implicit midpoint step
    for a port-Hamiltonian system (MidpointPH) and for a constrained
    multibody system in momentum form (Midpoint_DAE), and the residuum and
    tangent pair the Newton solver calls. Every quantity at state_n,
    state_n1 and the midpoint is read from a copy of the system carrying
    that state. */
module Integrators {
  import opened LinAlg
  import opened Outcomes
  import opened MultiBodyLayout
  import opened FunctionSolvers
  import PH = PortHamiltonian
  import Utils
  import Solvers

  /** The default epsilon of get_numerical_tangent, 1e-10. */
  const TangentEpsilon: real := 0.0000000001

  // ---------------------------------------------------------------------
  // MidpointPH.calc_residuum

  /** The port-Hamiltonian quantities are defined at state_n, state_n1 and
      their midpoint; numpy raises otherwise. */
  predicate PHFits(sys: PH.PortHamiltonianMBS, stateN: Vector, stateN1: Vector)
  {
    && |stateN| == |stateN1|
    && PH.Shaped(sys.mbs, stateN)
    && PH.Shaped(sys.mbs, stateN1)
    && PH.Shaped(sys.mbs, Mid(stateN, stateN1))
  }

  /** The wrapped state of the copy carrying `state`. */
  function At(sys: PH.PortHamiltonianMBS, state: Vector): (s: Vector)
    ensures s == state
  {
    PH.CopyWithState(sys, state).mbsState
  }

  /** E(n1)·n1 − E(n)·n. */
  function PHChange(sys: PH.PortHamiltonianMBS, stateN: Vector, stateN1: Vector): (d: Vector)
    requires PHFits(sys, stateN, stateN1)
    ensures |d| == |stateN|
  {
    Sub(MatVec(PH.DescriptorMatrix(sys.mbs, At(sys, stateN1)), stateN1),
        MatVec(PH.DescriptorMatrix(sys.mbs, At(sys, stateN)), stateN))
  }

  /** The co-state z at the midpoint. */
  function PHMidCostate(sys: PH.PortHamiltonianMBS, stateN: Vector, stateN1: Vector): (z: Vector)
    requires PHFits(sys, stateN, stateN1)
    ensures |z| == |stateN|
  {
    PH.Costates(sys.mbs, At(sys, Mid(stateN, stateN1)))
  }

  /** h·J(mid)·z(mid). */
  function PHFlow(sys: PH.PortHamiltonianMBS, h: real, stateN: Vector, stateN1: Vector): (f: Vector)
    requires PHFits(sys, stateN, stateN1)
    ensures |f| == |stateN|
  {
    var mid := At(sys, Mid(stateN, stateN1));
    Scale(h, MatVec(PH.StructureMatrix(sys.mbs, mid), PHMidCostate(sys, stateN, stateN1)))
  }

  /** calc_residuum: E(n1)·n1 − E(n)·n − h·J(mid)·z(mid); None where the
      shapes do not fit. */
  function MidpointPHResiduum(sys: PH.PortHamiltonianMBS, h: real, stateN: Vector, stateN1: Vector)
    : (r: Option<Vector>)
    ensures r.Some? <==> PHFits(sys, stateN, stateN1)
    ensures r.Some? ==> |r.value| == |stateN1|
  {
    if PHFits(sys, stateN, stateN1) then
      Some(Sub(PHChange(sys, stateN, stateN1), PHFlow(sys, h, stateN, stateN1)))
    else None
  }

  /** A root of the residuum is exactly a midpoint step:
      E(n1)·n1 − E(n)·n = h·J(mid)·z(mid). */
  lemma MidpointPHRoot(sys: PH.PortHamiltonianMBS, h: real, stateN: Vector, stateN1: Vector)
    requires PHFits(sys, stateN, stateN1)
    ensures IsZero(MidpointPHResiduum(sys, h, stateN, stateN1).value)
      <==> PHChange(sys, stateN, stateN1) == PHFlow(sys, h, stateN, stateN1)
  {
    var r := MidpointPHResiduum(sys, h, stateN, stateN1).value;
    var d := PHChange(sys, stateN, stateN1);
    var f := PHFlow(sys, h, stateN, stateN1);
    if IsZero(r) {
      forall i | 0 <= i < |d|
        ensures d[i] == f[i]
      {
        assert r[i] == d[i] - f[i];
      }
    }
  }

  /** At a root the step is power-balanced: the midpoint co-state does no
      work on the change, z(mid)·(E(n1)·n1 − E(n)·n) = 0, because J is
      skew-symmetric. */
  lemma MidpointPHPowerBalance(sys: PH.PortHamiltonianMBS, h: real, stateN: Vector, stateN1: Vector)
    requires PHFits(sys, stateN, stateN1)
    requires IsZero(MidpointPHResiduum(sys, h, stateN, stateN1).value)
    ensures Dot(PHMidCostate(sys, stateN, stateN1), PHChange(sys, stateN, stateN1)) == 0.0
  {
    var mid := Mid(stateN, stateN1);
    var z := PHMidCostate(sys, stateN, stateN1);
    var j := PH.StructureMatrix(sys.mbs, mid);
    MidpointPHRoot(sys, h, stateN, stateN1);
    PH.StructureSkew(sys.mbs, mid);
    DotScaleRight(z, h, MatVec(j, z));
  }

  /** At a root the algebraic rows hold on velocity level: E has zero
      multiplier rows and J has G there, so 0 = h·G(mid)·v_mid, and for
      h ≠ 0 the midpoint velocity is tangent to the constraints. */
  lemma MidpointPHHiddenConstraint(sys: PH.PortHamiltonianMBS, h: real, stateN: Vector, stateN1: Vector)
    requires PHFits(sys, stateN, stateN1) && h != 0.0
    requires IsZero(MidpointPHResiduum(sys, h, stateN, stateN1).value)
    ensures var mid := Mid(stateN, stateN1);
      forall i :: 0 <= i < sys.mbs.nbrConstraints ==>
        Dot(sys.mbs.constraintGradient(mid)[i], DecomposeState(mid, sys.mbs.nbrDof).momentum) == 0.0
  {
    MidpointPHRoot(sys, h, stateN, stateN1);
    var mid := Mid(stateN, stateN1);
    forall i | 0 <= i < sys.mbs.nbrConstraints
      ensures Dot(sys.mbs.constraintGradient(mid)[i], DecomposeState(mid, sys.mbs.nbrDof).momentum) == 0.0
    {
      HiddenConstraintRow(sys, h, stateN, stateN1, i);
    }
  }

  /** One multiplier row of a midpoint step: 0 = h·(J(mid)·z(mid))[2n + i]. */
  lemma HiddenConstraintRow(sys: PH.PortHamiltonianMBS, h: real, stateN: Vector, stateN1: Vector, i: nat)
    requires PHFits(sys, stateN, stateN1) && h != 0.0 && i < sys.mbs.nbrConstraints
    requires PHChange(sys, stateN, stateN1) == PHFlow(sys, h, stateN, stateN1)
    ensures var mid := Mid(stateN, stateN1);
      Dot(sys.mbs.constraintGradient(mid)[i], DecomposeState(mid, sys.mbs.nbrDof).momentum) == 0.0
  {
    var k := 2 * sys.mbs.nbrDof + i;
    var jz := MatVec(PH.StructureMatrix(sys.mbs, Mid(stateN, stateN1)), PHMidCostate(sys, stateN, stateN1));
    assert PHFlow(sys, h, stateN, stateN1) == Scale(h, jz);
    ChangeMultiplierRow(sys, stateN, stateN1, i);
    ScaledRowZero(h, PHChange(sys, stateN, stateN1), jz, k);
    FlowMultiplierRow(sys, stateN, stateN1, i);
  }

  /** A zero entry of h·x with h ≠ 0 is a zero entry of x. */
  lemma ScaledRowZero(h: real, change: Vector, x: Vector, k: nat)
    requires h != 0.0 && change == Scale(h, x) && k < |x| && change[k] == 0.0
    ensures x[k] == 0.0
  {
    assert h * x[k] == 0.0;
  }

  /** Row 2n + i of E(n1)·n1 − E(n)·n is zero. */
  lemma ChangeMultiplierRow(sys: PH.PortHamiltonianMBS, stateN: Vector, stateN1: Vector, i: nat)
    requires PHFits(sys, stateN, stateN1) && i < sys.mbs.nbrConstraints
    ensures PHChange(sys, stateN, stateN1)[2 * sys.mbs.nbrDof + i] == 0.0
  {
    DescriptorRowVanishes(sys.mbs, stateN, i);
    DescriptorRowVanishes(sys.mbs, stateN1, i);
  }

  /** Row 2n + i of J(mid)·z(mid) is G(mid)[i]·v_mid. */
  lemma FlowMultiplierRow(sys: PH.PortHamiltonianMBS, stateN: Vector, stateN1: Vector, i: nat)
    requires PHFits(sys, stateN, stateN1) && i < sys.mbs.nbrConstraints
    ensures var mid := Mid(stateN, stateN1);
      MatVec(PH.StructureMatrix(sys.mbs, mid), PHMidCostate(sys, stateN, stateN1))[2 * sys.mbs.nbrDof + i]
      == Dot(sys.mbs.constraintGradient(mid)[i], DecomposeState(mid, sys.mbs.nbrDof).momentum)
  {
    var n := sys.mbs.nbrDof;
    var m := sys.mbs.nbrConstraints;
    var mid := Mid(stateN, stateN1);
    var g := sys.mbs.constraintGradient(mid);
    var parts := DecomposeState(mid, n);
    var z := PHMidCostate(sys, stateN, stateN1);
    var f := PH.PotentialForces(sys.mbs, mid);
    assert z == f + parts.momentum + parts.multiplier;
    var k := 2 * n + i;
    var j := PH.StructureMatrix(sys.mbs, mid);
    var grid := PH.StructureGrid(n, m, g);
    assert j == Block3(n, n, m, grid);
    Block3Row(n, n, m, grid, k);
    assert BlockIndex(n, n, m, k) == (2, i);
    assert j[k] == ZeroMatrix(m, n)[i] + g[i] + ZeroMatrix(m, m)[i];
    StructureMultiplierRow(n, m, g, f, parts.momentum, parts.multiplier, i);
  }

  /** Row 2n + i of E(x)·x is zero: the multiplier rows of E vanish. */
  lemma DescriptorRowVanishes(mbs: MultiBody, state: Vector, i: nat)
    requires PH.Shaped(mbs, state) && i < mbs.nbrConstraints
    ensures MatVec(PH.DescriptorMatrix(mbs, state), state)[2 * mbs.nbrDof + i] == 0.0
  {
    var n := mbs.nbrDof;
    var m := mbs.nbrConstraints;
    var parts := DecomposeState(state, n);
    Block3Row(n, n, m, PH.DescriptorGrid(n, m, mbs.massMatrix(state)), 2 * n + i);
    PH.DescriptorMultiplierRow(n, m, mbs.massMatrix(state), parts.position, parts.momentum, parts.multiplier, i);
  }

  /** Row i of J's multiplier block row, [0, G, 0], applied to [f, v, l]
      is G[i]·v. */
  lemma StructureMultiplierRow(n: nat, m: nat, g: Matrix, f: Vector, v: Vector, l: Vector, i: nat)
    requires IsMatrix(g, m, n) && |f| == n && |v| == n && |l| == m && i < m
    ensures Dot(ZeroMatrix(m, n)[i] + g[i] + ZeroMatrix(m, m)[i], f + v + l) == Dot(g[i], v)
  {
    assert ZeroMatrix(m, n)[i] == Zeros(n) && ZeroMatrix(m, m)[i] == Zeros(m);
    DotConcat(Zeros(n) + g[i], Zeros(m), f + v, l);
    DotConcat(Zeros(n), g[i], f, v);
    PH.DotZerosLeft(n, f);
    PH.DotZerosLeft(m, l);
  }

  /** IntegratorCommon: get_residuum calls calc_residuum at (state_n,
      state_n1), and get_tangent is, as intended, the central-difference
      tangent of that residuum in state_n1 with state_n held fixed. */
  function Common(calcResiduum: (Vector, Vector, real) -> Option<Vector>): (integrator: Solvers.Integrator)
    ensures integrator.residuum == calcResiduum
  {
    Solvers.Integrator(
      calcResiduum,
      (stateN, stateN1, h) =>
        Utils.CentralDifferences(x => calcResiduum(stateN, x, h), stateN1, TangentEpsilon))
  }

  /** The tangent Newton uses is the numerical tangent of the very residual
      it solves, perturbing only the trial state. */
  lemma TangentOfResiduum(calcResiduum: (Vector, Vector, real) -> Option<Vector>,
                          stateN: Vector, stateN1: Vector, h: real)
    ensures var integrator := Common(calcResiduum);
      integrator.tangent(stateN, stateN1, h)
      == Utils.CentralDifferences(Solvers.ResidualAt(integrator, stateN, h), stateN1, TangentEpsilon)
  {
    var f := Solvers.ResidualAt(Common(calcResiduum), stateN, h);
    var g := x => calcResiduum(stateN, x, h);
    CentralDifferencesAgree(g, f, stateN1, TangentEpsilon);
  }

  /** MidpointPH as the solver sees it. */
  function MidpointPHIntegrator(sys: PH.PortHamiltonianMBS): (integrator: Solvers.Integrator)
    ensures forall stateN, stateN1, h ::
      integrator.residuum(stateN, stateN1, h) == MidpointPHResiduum(sys, h, stateN, stateN1)
  {
    Common((stateN, stateN1, h) => MidpointPHResiduum(sys, h, stateN, stateN1))
  }

  /** The central-difference tangent reads the residual only through its
      values: residuals that agree everywhere give the same tangent. */
  lemma CentralDifferencesAgree(f: ResidualFn, g: ResidualFn, x: Vector, epsilon: real)
    requires epsilon != 0.0
    requires forall y :: f(y) == g(y)
    ensures Utils.CentralDifferences(f, x, epsilon) == Utils.CentralDifferences(g, x, epsilon)
  {
    forall j | 0 <= j < |x|
      ensures Utils.CentralColumn(f, x, epsilon, j) == Utils.CentralColumn(g, x, epsilon, j)
    {
    }
    var a := Utils.CentralDifferences(f, x, epsilon);
    var b := Utils.CentralDifferences(g, x, epsilon);
    if a.Some? {
      forall i | 0 <= i < |x|
        ensures a.value[i] == b.value[i]
      {
        assert forall j :: 0 <= j < |x| ==> a.value[i][j] == b.value[i][j];
      }
      assert a.value == b.value;
    }
  }

  // ---------------------------------------------------------------------
  // Midpoint_DAE.calc_residuum

  /** What the residuum reads has the shapes its formulas combine: states
      of length 2n + m, gradients of length n at the midpoint, an n-by-n
      (inverse) mass matrix and an m-by-n constraint gradient there. */
  predicate DAEFits(mbs: MultiBody, stateN: Vector, stateN1: Vector)
  {
    && |stateN| == 2 * mbs.nbrDof + mbs.nbrConstraints
    && |stateN1| == |stateN|
    && MidShaped(mbs, Mid(stateN, stateN1))
  }

  predicate MidShaped(mbs: MultiBody, mid: Vector)
  {
    var n := mbs.nbrDof;
    && |mbs.internalPotentialGradient(mid)| == n
    && |mbs.externalPotentialGradient(mid)| == n
    && |mbs.kineticEnergyGradientFromMomentum(mid)| == n
    && IsMatrix(mbs.constraintGradient(mid), mbs.nbrConstraints, n)
    && match mbs.inverseMassMatrix
       case Some(inverse) => IsMatrix(inverse(mid), n, n)
       case None => IsMatrix(mbs.massMatrix(mid), n, n)
  }

  /** M⁻¹(mid)·p_mid: with the system's inverse_mass_matrix when it has one,
      else by inverting mass_matrix (None when that is singular). */
  function MidVelocity(mbs: MultiBody, solve: LinearSolve, stateN: Vector, stateN1: Vector)
    : (v: Option<Vector>)
    requires DAEFits(mbs, stateN, stateN1)
    ensures mbs.inverseMassMatrix.Some? ==> v.Some?
    ensures v.Some? ==> |v.value| == mbs.nbrDof
  {
    var mid := Mid(stateN, stateN1);
    var p := DecomposeState(mid, mbs.nbrDof).momentum;
    match mbs.inverseMassMatrix
    case Some(inverse) => Some(MatVec(inverse(mid), p))
    case None =>
      match solve(mbs.massMatrix(mid), p)
      case None => None
      case Some(v) => if |v| == mbs.nbrDof then Some(v) else None
  }

  /** The momentum block's forces at the midpoint:
      ∇V_int + ∇V_ext + ∇_q T + Gᵀ·λ_mid. */
  function MidForces(mbs: MultiBody, stateN: Vector, stateN1: Vector): (f: Vector)
    requires DAEFits(mbs, stateN, stateN1)
    ensures |f| == mbs.nbrDof
  {
    var n := mbs.nbrDof;
    var mid := Mid(stateN, stateN1);
    var lambd := DecomposeState(mid, n).multiplier;
    var g := mbs.constraintGradient(mid);
    Add(Add(Add(mbs.internalPotentialGradient(mid), mbs.externalPotentialGradient(mid)),
            mbs.kineticEnergyGradientFromMomentum(mid)),
        MatVec(Transpose(g, n), lambd))
  }

  /** calc_residuum: [q_n1 − q_n − h·M⁻¹(mid)·p_mid,
      p_n1 − p_n + h·(∇V_int + ∇V_ext)(mid) + h·∇_qT(mid) + h·G(mid)ᵀ·λ_mid,
      g(n1)]; None where numpy raises. */
  function MidpointDAEResiduum(mbs: MultiBody, solve: LinearSolve, h: real, stateN: Vector, stateN1: Vector)
    : (r: Option<Vector>)
    ensures r.Some? <==> DAEFits(mbs, stateN, stateN1) && MidVelocity(mbs, solve, stateN, stateN1).Some?
    ensures r.Some? ==> |r.value| == 2 * mbs.nbrDof + |mbs.constraint(stateN1)|
  {
    if !DAEFits(mbs, stateN, stateN1) then None
    else
      match MidVelocity(mbs, solve, stateN, stateN1)
      case None => None
      case Some(v) =>
        var n := mbs.nbrDof;
        var partsN := DecomposeState(stateN, n);
        var partsN1 := DecomposeState(stateN1, n);
        var residuumQ := Sub(Sub(partsN1.position, partsN.position), Scale(h, v));
        var residuumP := Add(Sub(partsN1.momentum, partsN.momentum), Scale(h, MidForces(mbs, stateN, stateN1)));
        Some(residuumQ + residuumP + mbs.constraint(stateN1))
  }

  /** A root of the residuum is exactly a step of the discrete equations of
      motion: positions advance by h times the midpoint velocity, momenta
      by −h times the midpoint forces, and the constraint holds at the new
      state (not at the midpoint). */
  lemma MidpointDAERoot(mbs: MultiBody, solve: LinearSolve, h: real, stateN: Vector, stateN1: Vector)
    requires MidpointDAEResiduum(mbs, solve, h, stateN, stateN1).Some?
    ensures var n := mbs.nbrDof;
      var partsN := DecomposeState(stateN, n);
      var partsN1 := DecomposeState(stateN1, n);
      var v := MidVelocity(mbs, solve, stateN, stateN1).value;
      IsZero(MidpointDAEResiduum(mbs, solve, h, stateN, stateN1).value)
      <==>
        && Sub(partsN1.position, partsN.position) == Scale(h, v)
        && Sub(partsN1.momentum, partsN.momentum) == Neg(Scale(h, MidForces(mbs, stateN, stateN1)))
        && IsZero(mbs.constraint(stateN1))
  {
    var n := mbs.nbrDof;
    var partsN := DecomposeState(stateN, n);
    var partsN1 := DecomposeState(stateN1, n);
    var v := MidVelocity(mbs, solve, stateN, stateN1).value;
    var dq := Sub(partsN1.position, partsN.position);
    var dp := Sub(partsN1.momentum, partsN.momentum);
    var hv := Scale(h, v);
    var hf := Scale(h, MidForces(mbs, stateN, stateN1));
    var rq := Sub(dq, hv);
    var rp := Add(dp, hf);
    var g := mbs.constraint(stateN1);
    var r := MidpointDAEResiduum(mbs, solve, h, stateN, stateN1).value;
    assert r == rq + rp + g;
    assert r[..n] == rq && r[n..2 * n] == rp && r[2 * n..] == g;
    BlocksZero(rq, rp, g);
    SubZero(dq, hv);
    AddZero(dp, hf);
  }

  /** A concatenation of three blocks is zero exactly when each block is. */
  lemma BlocksZero(a: Vector, b: Vector, c: Vector)
    ensures IsZero(a + b + c) <==> IsZero(a) && IsZero(b) && IsZero(c)
  {
    var s := a + b + c;
    if IsZero(s) {
      forall i | 0 <= i < |a|
        ensures a[i] == 0.0
      {
        assert s[i] == a[i];
      }
      forall i | 0 <= i < |b|
        ensures b[i] == 0.0
      {
        assert s[|a| + i] == b[i];
      }
      forall i | 0 <= i < |c|
        ensures c[i] == 0.0
      {
        assert s[|a| + |b| + i] == c[i];
      }
    }
  }

  /** a − b is zero exactly when a = b. */
  lemma SubZero(a: Vector, b: Vector)
    requires |a| == |b|
    ensures IsZero(Sub(a, b)) <==> a == b
  {
    if IsZero(Sub(a, b)) {
      forall i | 0 <= i < |a|
        ensures a[i] == b[i]
      {
        assert Sub(a, b)[i] == a[i] - b[i];
      }
    }
  }

  /** a + b is zero exactly when a = −b. */
  lemma AddZero(a: Vector, b: Vector)
    requires |a| == |b|
    ensures IsZero(Add(a, b)) <==> a == Neg(b)
  {
    if IsZero(Add(a, b)) {
      forall i | 0 <= i < |a|
        ensures a[i] == Neg(b)[i]
      {
        assert Add(a, b)[i] == a[i] + b[i];
      }
    }
  }

  /** Both ways of computing the midpoint velocity solve the mass equation
      M(mid)·v = p_mid: the inverse_mass_matrix path when that callback is a
      right inverse of mass_matrix, and the fallback whenever the linear
      solve keeps its contract. */
  lemma MidVelocitySolvesMass(mbs: MultiBody, solve: LinearSolve, stateN: Vector, stateN1: Vector)
    requires DAEFits(mbs, stateN, stateN1) && Solves(solve)
    requires MidVelocity(mbs, solve, stateN, stateN1).Some?
    requires mbs.inverseMassMatrix.Some? ==>
      var mid := Mid(stateN, stateN1);
      IsMatrix(mbs.massMatrix(mid), mbs.nbrDof, mbs.nbrDof)
      && MatMul(mbs.massMatrix(mid), mbs.inverseMassMatrix.value(mid), mbs.nbrDof) == Identity(mbs.nbrDof)
    ensures var mid := Mid(stateN, stateN1);
      MatVec(mbs.massMatrix(mid), MidVelocity(mbs, solve, stateN, stateN1).value)
      == DecomposeState(mid, mbs.nbrDof).momentum
  {
    var n := mbs.nbrDof;
    var mid := Mid(stateN, stateN1);
    var p := DecomposeState(mid, n).momentum;
    if mbs.inverseMassMatrix.Some? {
      var inverse := mbs.inverseMassMatrix.value(mid);
      MatMulVec(mbs.massMatrix(mid), inverse, n, p);
      IdentityMatVec(p);
    }
  }

  /** Midpoint_DAE as the solver sees it. */
  function MidpointDAEIntegrator(mbs: MultiBody, solve: LinearSolve): (integrator: Solvers.Integrator)
    ensures forall stateN, stateN1, h ::
      integrator.residuum(stateN, stateN1, h) == MidpointDAEResiduum(mbs, solve, h, stateN, stateN1)
  {
    Common((stateN, stateN1, h) => MidpointDAEResiduum(mbs, solve, h, stateN, stateN1))
  }
}
