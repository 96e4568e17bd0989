/** The integrators of pymetis: each assembles the residuum and tangent of
    one time step of a port-Hamiltonian system E(x)·ẋ = J·z(x) from the
    two working states state_n and state_n1 and the stepper's fixed step
    size. They differ only in where z is evaluated and in the tangent. */
module MetisIntegrators {
  import opened LinAlg
  import opened Outcomes
  import MetisSolvers

  /** The callbacks a pymetis port-Hamiltonian system provides, for states
      of length `dim`: the descriptor matrix E(x), the costate z(x), its
      Jacobian, and the constant structure matrix J. */
  datatype PortHamiltonian = PortHamiltonian(
    dim: nat,
    eMatrix: Vector -> Matrix,
    zVector: Vector -> Vector,
    jacobian: Vector -> Matrix,
    jMatrix: Matrix)

  datatype Scheme = Midpoint | EulerImplicit | EulerExplicit

  /** Where a scheme evaluates z: the midpoint ½(state_n + state_n1), the
      new state, or the old state. */
  function ZPoint(scheme: Scheme, stateN: Vector, stateN1: Vector): (x: Vector)
    requires |stateN| == |stateN1|
    ensures |x| == |stateN|
  {
    match scheme
    case Midpoint => Mid(stateN, stateN1)
    case EulerImplicit => stateN1
    case EulerExplicit => stateN
  }

  /** Every callback value the step reads has the shape the formulas need;
      numpy raises on a mismatch. */
  predicate Fits(scheme: Scheme, sys: PortHamiltonian, stateN: Vector, stateN1: Vector)
  {
    && |stateN| == sys.dim && |stateN1| == sys.dim
    && IsMatrix(sys.jMatrix, sys.dim, sys.dim)
    && IsMatrix(sys.eMatrix(stateN), sys.dim, sys.dim)
    && IsMatrix(sys.eMatrix(stateN1), sys.dim, sys.dim)
    && |sys.zVector(ZPoint(scheme, stateN, stateN1))| == sys.dim
    && (scheme != EulerExplicit ==> IsMatrix(sys.jacobian(stateN1), sys.dim, sys.dim))
  }

  /** E(n1)·n1 − E(n)·n: the change of the descriptor-weighted state. */
  function Change(sys: PortHamiltonian, stateN: Vector, stateN1: Vector): (d: Vector)
    requires IsMatrix(sys.eMatrix(stateN), sys.dim, sys.dim) && IsMatrix(sys.eMatrix(stateN1), sys.dim, sys.dim)
    ensures |d| == sys.dim
  {
    Sub(MatVec(sys.eMatrix(stateN1), stateN1), MatVec(sys.eMatrix(stateN), stateN))
  }

  /** h·J·z at the scheme's point: the flow over one step. */
  function Flow(scheme: Scheme, sys: PortHamiltonian, h: real, stateN: Vector, stateN1: Vector): (f: Vector)
    requires Fits(scheme, sys, stateN, stateN1)
    ensures |f| == sys.dim
  {
    Scale(h, MatVec(sys.jMatrix, sys.zVector(ZPoint(scheme, stateN, stateN1))))
  }

  /** The residuum of every scheme: E(n1)·n1 − E(n)·n − h·J·z(point). */
  function Residuum(scheme: Scheme, sys: PortHamiltonian, h: real, stateN: Vector, stateN1: Vector): (r: Vector)
    requires Fits(scheme, sys, stateN, stateN1)
    ensures |r| == sys.dim
  {
    Sub(Change(sys, stateN, stateN1), Flow(scheme, sys, h, stateN, stateN1))
  }

  /** The tangent: E(n1) − h·J·(½·∇z(n1)) for Midpoint and EulerImplicit,
      E(n1) alone for EulerExplicit. */
  function Tangent(scheme: Scheme, sys: PortHamiltonian, h: real, stateN: Vector, stateN1: Vector): (t: Matrix)
    requires Fits(scheme, sys, stateN, stateN1)
    ensures IsMatrix(t, sys.dim, sys.dim)
  {
    var n := sys.dim;
    if scheme == EulerExplicit then sys.eMatrix(stateN1)
    else
      var jac := ScaleMatrix(0.5, sys.jacobian(stateN1));
      assert IsMatrix(jac, n, n);
      var flow := ScaleMatrix(h, MatMul(sys.jMatrix, jac, n));
      assert IsMatrix(flow, n, n);
      SubMatrix(sys.eMatrix(stateN1), flow, n, n)
  }

  /** calc_residuum_tangent: the pair, or None where numpy would raise. */
  function CalcResiduumTangent(scheme: Scheme, sys: PortHamiltonian, h: real,
                               stateN: Vector, stateN1: Vector): (out: Option<(Vector, Matrix)>)
    ensures out.Some? <==> Fits(scheme, sys, stateN, stateN1)
    ensures out.Some? ==> |out.value.0| == sys.dim && IsMatrix(out.value.1, sys.dim, sys.dim)
  {
    if Fits(scheme, sys, stateN, stateN1) then
      Some((Residuum(scheme, sys, h, stateN, stateN1), Tangent(scheme, sys, h, stateN, stateN1)))
    else None
  }

  /** The integrator as the solver sees it, with the step size bound. */
  function Assemble(scheme: Scheme, sys: PortHamiltonian, h: real): MetisSolvers.ResiduumTangent
  {
    (stateN, stateN1) => CalcResiduumTangent(scheme, sys, h, stateN, stateN1)
  }

  // ---------------------------------------------------------------------
  // What the residuum and tangent mean.

  /** A root of the residuum is exactly a step of the scheme:
      E(n1)·n1 = E(n)·n + h·J·z(point). */
  lemma RootIsSchemeStep(scheme: Scheme, sys: PortHamiltonian, h: real, stateN: Vector, stateN1: Vector)
    requires Fits(scheme, sys, stateN, stateN1)
    ensures IsZero(Residuum(scheme, sys, h, stateN, stateN1))
      <==> Change(sys, stateN, stateN1) == Flow(scheme, sys, h, stateN, stateN1)
  {
    var r := Residuum(scheme, sys, h, stateN, stateN1);
    var d := Change(sys, stateN, stateN1);
    var f := Flow(scheme, sys, h, stateN, stateN1);
    if IsZero(r) {
      forall i | 0 <= i < sys.dim
        ensures d[i] == f[i]
      {
        assert r[i] == d[i] - f[i];
      }
    }
  }

  /** The midpoint step conserves the descriptor-weighted power: at a root,
      z(mid)·(E(n1)·n1 − E(n)·n) = h·z·J·z = 0 for a skew J. */
  lemma MidpointPowerBalance(sys: PortHamiltonian, h: real, stateN: Vector, stateN1: Vector)
    requires Fits(Midpoint, sys, stateN, stateN1) && IsSkew(sys.jMatrix)
    requires IsZero(Residuum(Midpoint, sys, h, stateN, stateN1))
    ensures Dot(sys.zVector(Mid(stateN, stateN1)), Change(sys, stateN, stateN1)) == 0.0
  {
    var z := sys.zVector(Mid(stateN, stateN1));
    RootIsSchemeStep(Midpoint, sys, h, stateN, stateN1);
    DotScaleRight(z, h, MatVec(sys.jMatrix, z));
    SkewQuadraticFormZero(sys.jMatrix, z);
  }

  /** The same holds for the two Euler schemes at their own point. */
  lemma EulerPowerBalance(scheme: Scheme, sys: PortHamiltonian, h: real, stateN: Vector, stateN1: Vector)
    requires scheme != Midpoint
    requires Fits(scheme, sys, stateN, stateN1) && IsSkew(sys.jMatrix)
    requires IsZero(Residuum(scheme, sys, h, stateN, stateN1))
    ensures Dot(sys.zVector(ZPoint(scheme, stateN, stateN1)), Change(sys, stateN, stateN1)) == 0.0
  {
    var z := sys.zVector(ZPoint(scheme, stateN, stateN1));
    RootIsSchemeStep(scheme, sys, h, stateN, stateN1);
    DotScaleRight(z, h, MatVec(sys.jMatrix, z));
    SkewQuadraticFormZero(sys.jMatrix, z);
  }

  /** With the identity as descriptor matrix, explicit Euler's root is the
      explicit update n1 = n + h·J·z(n). */
  lemma ExplicitUpdateIsRoot(sys: PortHamiltonian, h: real, stateN: Vector)
    requires |stateN| == sys.dim && IsMatrix(sys.jMatrix, sys.dim, sys.dim)
    requires |sys.zVector(stateN)| == sys.dim
    requires forall x {:trigger sys.eMatrix(x)} :: |x| == sys.dim ==> sys.eMatrix(x) == Identity(sys.dim)
    ensures var next := Add(stateN, Scale(h, MatVec(sys.jMatrix, sys.zVector(stateN))));
      && Fits(EulerExplicit, sys, stateN, next)
      && IsZero(Residuum(EulerExplicit, sys, h, stateN, next))
  {
    var next := Add(stateN, Scale(h, MatVec(sys.jMatrix, sys.zVector(stateN))));
    assert sys.eMatrix(next) == Identity(sys.dim) && sys.eMatrix(stateN) == Identity(sys.dim);
    IdentityMatVec(next);
    IdentityMatVec(stateN);
    var r := Residuum(EulerExplicit, sys, h, stateN, next);
    forall i | 0 <= i < sys.dim
      ensures r[i] == 0.0
    {
    }
  }

  /** Midpoint and EulerImplicit share one tangent, built from the
      Jacobian at n1 with the factor ½; EulerExplicit's is E(n1). */
  lemma TangentsCompared(sys: PortHamiltonian, h: real, stateN: Vector, stateN1: Vector)
    requires Fits(Midpoint, sys, stateN, stateN1) && Fits(EulerImplicit, sys, stateN, stateN1)
    requires Fits(EulerExplicit, sys, stateN, stateN1)
    ensures Tangent(Midpoint, sys, h, stateN, stateN1) == Tangent(EulerImplicit, sys, h, stateN, stateN1)
    ensures Tangent(EulerExplicit, sys, h, stateN, stateN1) == sys.eMatrix(stateN1)
    ensures forall i, j :: 0 <= i < sys.dim && 0 <= j < sys.dim ==>
      Tangent(Midpoint, sys, h, stateN, stateN1)[i][j]
        == sys.eMatrix(stateN1)[i][j] - h * Dot(sys.jMatrix[i], Col(ScaleMatrix(0.5, sys.jacobian(stateN1)), j))
  {
  }

  /** The residuum reads z only at the scheme's point: systems that agree
      on E, J and on z there give the same residuum. */
  lemma ResiduumReadsZAtPoint(scheme: Scheme, sys: PortHamiltonian, other: PortHamiltonian, h: real,
                              stateN: Vector, stateN1: Vector)
    requires Fits(scheme, sys, stateN, stateN1)
    requires other.dim == sys.dim && other.jMatrix == sys.jMatrix && other.eMatrix == sys.eMatrix
    requires other.zVector(ZPoint(scheme, stateN, stateN1)) == sys.zVector(ZPoint(scheme, stateN, stateN1))
    requires scheme != EulerExplicit ==> other.jacobian(stateN1) == sys.jacobian(stateN1)
    ensures Fits(scheme, other, stateN, stateN1)
    ensures Residuum(scheme, other, h, stateN, stateN1) == Residuum(scheme, sys, h, stateN, stateN1)
  {
  }
}
