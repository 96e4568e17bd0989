/** Port-Hamiltonian systems E(x)·ẋ = J(x)·z(x), Eᵀ(x)·z(x) = ∇H(x): a
    multibody system wrapped as one (PortHamiltonianMBS) and the planar
    pendulum (Pendulum2D), in the two generations of the code that live side
    by side (systems_port_hamiltonian.py and systems/port_hamiltonian_systems.py).
    The multibody physics is the callback record of MultiBodyLayout. */
module PortHamiltonian {
  import opened LinAlg
  import opened Outcomes
  import opened Utils
  import opened MultiBodyLayout

  /** Both generations report the parametrization ["state"]. */
  const Parametrization: seq<string> := ["state"]

  // ---------------------------------------------------------------------
  // PortHamiltonianMBS: the quantities at a multibody state [q, v, λ].

  /** The shapes the multibody callbacks promise at a state [q, v, λ] with
      n = nbr_dof positions and velocities and m = nbr_constraints
      multipliers. */
  predicate Shaped(mbs: MultiBody, state: Vector)
  {
    && |state| == 2 * mbs.nbrDof + mbs.nbrConstraints
    && |mbs.externalPotentialGradient(state)| == mbs.nbrDof
    && |mbs.internalPotentialGradient(state)| == mbs.nbrDof
    && IsMatrix(mbs.massMatrix(state), mbs.nbrDof, mbs.nbrDof)
    && IsMatrix(mbs.constraintGradient(state), mbs.nbrConstraints, mbs.nbrDof)
  }

  /** external_potential_gradient() + internal_potential_gradient(). */
  function PotentialForces(mbs: MultiBody, state: Vector): (f: Vector)
    requires Shaped(mbs, state)
    ensures |f| == mbs.nbrDof
  {
    Add(mbs.externalPotentialGradient(state), mbs.internalPotentialGradient(state))
  }

  /** costates: [∇V_ext + ∇V_int, v, λ]; beyond the position block the
      co-state is the state itself. */
  function Costates(mbs: MultiBody, state: Vector): (z: Vector)
    requires Shaped(mbs, state)
    ensures |z| == |state|
    ensures z[..mbs.nbrDof] == PotentialForces(mbs, state)
    ensures z[mbs.nbrDof..] == state[mbs.nbrDof..]
  {
    var parts := DecomposeState(state, mbs.nbrDof);
    assert state[mbs.nbrDof..] == parts.momentum + parts.multiplier;
    PotentialForces(mbs, state) + parts.momentum + parts.multiplier
  }

  /** hamiltonian_gradient of systems_port_hamiltonian.py:
      [∇V_ext + ∇V_int, M·v, 0]. */
  function LegacyHamiltonianGradient(mbs: MultiBody, state: Vector): (g: Vector)
    requires Shaped(mbs, state)
    ensures |g| == |state|
  {
    var parts := DecomposeState(state, mbs.nbrDof);
    PotentialForces(mbs, state) + MatVec(mbs.massMatrix(state), parts.momentum) + Zeros(|parts.multiplier|)
  }

  /** hamiltonian_differential_gradient: [∇V_ext + ∇V_int, M·v]. */
  function HamiltonianDifferentialGradient(mbs: MultiBody, state: Vector): (g: Vector)
    requires Shaped(mbs, state)
    ensures |g| == 2 * mbs.nbrDof
  {
    var parts := DecomposeState(state, mbs.nbrDof);
    PotentialForces(mbs, state) + MatVec(mbs.massMatrix(state), parts.momentum)
  }

  /** hamiltonian_gradient of systems/port_hamiltonian_systems.py: the
      potential forces only. */
  function HamiltonianGradient(mbs: MultiBody, state: Vector): (g: Vector)
    requires Shaped(mbs, state)
    ensures |g| == mbs.nbrDof
  {
    PotentialForces(mbs, state)
  }

  /** The three gradients are prefixes of one another: the legacy gradient
      is the differential one padded with m zeros, and the newer gradient is
      its position block. */
  lemma GradientGenerations(mbs: MultiBody, state: Vector)
    requires Shaped(mbs, state)
    ensures LegacyHamiltonianGradient(mbs, state)
            == HamiltonianDifferentialGradient(mbs, state) + Zeros(mbs.nbrConstraints)
    ensures HamiltonianGradient(mbs, state) == LegacyHamiltonianGradient(mbs, state)[..mbs.nbrDof]
    ensures LegacyHamiltonianGradient(mbs, state)[mbs.nbrDof..2 * mbs.nbrDof]
            == MatVec(mbs.massMatrix(state), DecomposeState(state, mbs.nbrDof).momentum)
    ensures IsZero(LegacyHamiltonianGradient(mbs, state)[2 * mbs.nbrDof..])
  {
    var n := mbs.nbrDof;
    var f := PotentialForces(mbs, state);
    var mv := MatVec(mbs.massMatrix(state), DecomposeState(state, n).momentum);
    var g := LegacyHamiltonianGradient(mbs, state);
    assert g == f + mv + Zeros(mbs.nbrConstraints);
    assert g[..n] == f;
    assert g[n..2 * n] == mv;
  }

  /** ½·vᵀ·M·v. */
  function KineticPart(m: Matrix, v: Vector): real
  {
    0.5 * Dot(v, MatVec(m, v))
  }

  /** hamiltonian of systems_port_hamiltonian.py: V_ext + V_int + ½·vᵀMv. */
  function Hamiltonian(mbs: MultiBody, state: Vector): (h: real)
    ensures h - KineticPart(mbs.massMatrix(state), DecomposeState(state, mbs.nbrDof).momentum)
            == mbs.externalPotential(state) + mbs.internalPotential(state)
  {
    var v := DecomposeState(state, mbs.nbrDof).momentum;
    mbs.externalPotential(state) + mbs.internalPotential(state) + KineticPart(mbs.massMatrix(state), v)
  }

  /** With a diagonal mass matrix of non-negative entries the Hamiltonian
      is bounded below by the potential energy; with positive entries it
      meets that bound exactly at zero velocity. */
  lemma HamiltonianAtLeastPotential(mbs: MultiBody, state: Vector, weights: Vector)
    requires Shaped(mbs, state) && |weights| == mbs.nbrDof
    requires mbs.massMatrix(state) == Diag(weights)
    requires forall i :: 0 <= i < |weights| ==> weights[i] >= 0.0
    ensures Hamiltonian(mbs, state) >= mbs.externalPotential(state) + mbs.internalPotential(state)
    ensures (forall i :: 0 <= i < |weights| ==> weights[i] > 0.0) ==>
      (Hamiltonian(mbs, state) == mbs.externalPotential(state) + mbs.internalPotential(state)
       <==> IsZero(DecomposeState(state, mbs.nbrDof).momentum))
  {
    var v := DecomposeState(state, mbs.nbrDof).momentum;
    DiagMatVec(weights, v);
    WeightedSquares(weights, v);
  }

  /** The velocity block M·v of the gradient is the gradient of the
      Hamiltonian's kinetic part: for a symmetric mass matrix, moving the
      velocity by w changes ½vᵀMv by wᵀ(M·v) + ½wᵀMw. */
  lemma KineticGradientIsVelocityBlock(mbs: MultiBody, state: Vector, w: Vector)
    requires Shaped(mbs, state) && |w| == mbs.nbrDof && IsSymmetric(mbs.massMatrix(state))
    ensures var m := mbs.massMatrix(state);
      var v := DecomposeState(state, mbs.nbrDof).momentum;
      KineticPart(m, Add(v, w))
      == KineticPart(m, v) + Dot(w, LegacyHamiltonianGradient(mbs, state)[mbs.nbrDof..2 * mbs.nbrDof]) + KineticPart(m, w)
  {
    GradientGenerations(mbs, state);
    QuadraticIncrement(mbs.massMatrix(state), DecomposeState(state, mbs.nbrDof).momentum, w);
  }

  /** get_differential_state: [q, v]. */
  function DifferentialState(mbs: MultiBody, state: Vector): (x: Vector)
  {
    var parts := DecomposeState(state, mbs.nbrDof);
    parts.position + parts.momentum
  }

  /** get_algebraic_costate: λ. */
  function AlgebraicCostate(mbs: MultiBody, state: Vector): (l: Vector)
  {
    DecomposeState(state, mbs.nbrDof).multiplier
  }

  /** The differential state followed by the algebraic co-state is the
      whole state, and on a shaped state they have 2n and m entries. */
  lemma DifferentialAlgebraicSplit(mbs: MultiBody, state: Vector)
    ensures DifferentialState(mbs, state) + AlgebraicCostate(mbs, state) == state
    ensures Shaped(mbs, state) ==>
      |DifferentialState(mbs, state)| == 2 * mbs.nbrDof && |AlgebraicCostate(mbs, state)| == mbs.nbrConstraints
  {
    var parts := DecomposeState(state, mbs.nbrDof);
    assert parts.position + parts.momentum + parts.multiplier == state;
  }

  // ---------------------------------------------------------------------
  // Structure and descriptor matrices

  /** [[0, I, 0], [−I, 0, −Gᵀ], [0, G, 0]] for an m-by-n constraint
      gradient G. */
  function StructureGrid(n: nat, m: nat, g: Matrix): (b: seq<seq<Matrix>>)
    requires IsMatrix(g, m, n)
    ensures BlockGrid(n, n, m, b)
  {
    [[ZeroMatrix(n, n), Identity(n), ZeroMatrix(n, m)],
     [NegMatrix(Identity(n)), ZeroMatrix(n, n), NegMatrix(Transpose(g, n))],
     [ZeroMatrix(m, n), g, ZeroMatrix(m, m)]]
  }

  /** structure_matrix: the block matrix J(x) of size 2n + m. */
  function StructureMatrix(mbs: MultiBody, state: Vector): (j: Matrix)
    requires Shaped(mbs, state)
    ensures IsMatrix(j, |state|, |state|)
  {
    Block3(mbs.nbrDof, mbs.nbrDof, mbs.nbrConstraints,
           StructureGrid(mbs.nbrDof, mbs.nbrConstraints, mbs.constraintGradient(state)))
  }

  /** Block (k, l) of the structure grid is minus the transpose of block
      (l, k). */
  lemma StructureGridSkew(n: nat, m: nat, g: Matrix)
    requires IsMatrix(g, m, n)
    ensures var b := StructureGrid(n, m, g);
      forall k, l, i, j ::
        0 <= k < 3 && 0 <= l < 3 && 0 <= i < [n, n, m][k] && 0 <= j < [n, n, m][l] ==>
          && IsMatrix(b[k][l], [n, n, m][k], [n, n, m][l])
          && IsMatrix(b[l][k], [n, n, m][l], [n, n, m][k])
          && b[k][l][i][j] == -b[l][k][j][i]
  {
    var b := StructureGrid(n, m, g);
    var sizes := [n, n, m];
    forall k, l, i, j | 0 <= k < 3 && 0 <= l < 3 && 0 <= i < sizes[k] && 0 <= j < sizes[l]
      ensures b[k][l][i][j] == -b[l][k][j][i]
    {
      if k == 0 && l == 1 {
        assert b[l][k][j] == Neg(Identity(n)[j]);
      } else if k == 1 && l == 0 {
        assert b[k][l][i] == Neg(Identity(n)[i]);
      } else if k == 1 && l == 2 {
        assert b[k][l][i] == Neg(Transpose(g, n)[i]);
      } else if k == 2 && l == 1 {
        assert b[l][k][j] == Neg(Transpose(g, n)[j]);
      }
    }
  }

  /** J is skew-symmetric, so it does no work: zᵀJz = 0 for every z. */
  lemma StructureSkew(mbs: MultiBody, state: Vector)
    requires Shaped(mbs, state)
    ensures IsSkew(StructureMatrix(mbs, state))
    ensures forall z :: |z| == |state| ==> Dot(z, MatVec(StructureMatrix(mbs, state), z)) == 0.0
  {
    var n := mbs.nbrDof;
    var m := mbs.nbrConstraints;
    StructureGridSkew(n, m, mbs.constraintGradient(state));
    Block3Skew(n, n, m, StructureGrid(n, m, mbs.constraintGradient(state)));
    forall z | |z| == |state|
      ensures Dot(z, MatVec(StructureMatrix(mbs, state), z)) == 0.0
    {
      SkewQuadraticFormZero(StructureMatrix(mbs, state), z);
    }
  }

  /** block_diag(I_n, M, 0_m). */
  function DescriptorGrid(n: nat, m: nat, mass: Matrix): (b: seq<seq<Matrix>>)
    requires IsMatrix(mass, n, n)
    ensures BlockGrid(n, n, m, b)
  {
    [[Identity(n), ZeroMatrix(n, n), ZeroMatrix(n, m)],
     [ZeroMatrix(n, n), mass, ZeroMatrix(n, m)],
     [ZeroMatrix(m, n), ZeroMatrix(m, n), ZeroMatrix(m, m)]]
  }

  /** descriptor_matrix: block_diag(I_n, M, 0_m). */
  function DescriptorMatrix(mbs: MultiBody, state: Vector): (e: Matrix)
    requires Shaped(mbs, state)
    ensures IsMatrix(e, |state|, |state|)
  {
    Block3(mbs.nbrDof, mbs.nbrDof, mbs.nbrConstraints,
           DescriptorGrid(mbs.nbrDof, mbs.nbrConstraints, mbs.massMatrix(state)))
  }

  /** nonsingular_descriptor_matrix: block_diag(I_n, M). */
  function NonsingularDescriptorMatrix(mbs: MultiBody, state: Vector): (e: Matrix)
    requires Shaped(mbs, state)
    ensures IsMatrix(e, 2 * mbs.nbrDof, 2 * mbs.nbrDof)
  {
    Block3(mbs.nbrDof, mbs.nbrDof, 0, DescriptorGrid(mbs.nbrDof, 0, mbs.massMatrix(state)))
  }

  /** The descriptor matrix is singular in its last m rows and columns,
      which are zero, and its leading 2n-by-2n corner is the nonsingular
      descriptor matrix. */
  lemma DescriptorBlocks(mbs: MultiBody, state: Vector)
    requires Shaped(mbs, state)
    ensures var e := DescriptorMatrix(mbs, state);
      forall i, j :: 0 <= i < |state| && 0 <= j < |state| && (i >= 2 * mbs.nbrDof || j >= 2 * mbs.nbrDof)
        ==> e[i][j] == 0.0
    ensures var e := DescriptorMatrix(mbs, state);
      var ns := NonsingularDescriptorMatrix(mbs, state);
      forall i, j :: 0 <= i < 2 * mbs.nbrDof && 0 <= j < 2 * mbs.nbrDof ==> e[i][j] == ns[i][j]
  {
    var n := mbs.nbrDof;
    var m := mbs.nbrConstraints;
    var mass := mbs.massMatrix(state);
    var e := DescriptorMatrix(mbs, state);
    var ns := NonsingularDescriptorMatrix(mbs, state);
    forall i, j | 0 <= i < |state| && 0 <= j < |state| && (i >= 2 * n || j >= 2 * n)
      ensures e[i][j] == 0.0
    {
      Block3Entry(n, n, m, DescriptorGrid(n, m, mass), i, j);
    }
    forall i, j | 0 <= i < 2 * n && 0 <= j < 2 * n
      ensures e[i][j] == ns[i][j]
    {
      Block3Entry(n, n, m, DescriptorGrid(n, m, mass), i, j);
      Block3Entry(n, n, 0, DescriptorGrid(n, 0, mass), i, j);
    }
  }

  /** A zero row pairs to zero with anything. */
  lemma DotZerosLeft(n: nat, x: Vector)
    ensures Dot(Zeros(n), x) == 0.0
  {
    DotComm(Zeros(n), x);
    DotZerosRight(x, n);
  }

  /** Eᵀ·z = ∇H, the defining relation of the port-Hamiltonian form: for a
      symmetric mass matrix the descriptor matrix is symmetric and maps the
      co-state to the legacy Hamiltonian gradient. */
  lemma DescriptorMapsCostatesToGradient(mbs: MultiBody, state: Vector)
    requires Shaped(mbs, state) && IsSymmetric(mbs.massMatrix(state))
    ensures IsSymmetric(DescriptorMatrix(mbs, state))
    ensures MatVec(DescriptorMatrix(mbs, state), Costates(mbs, state)) == LegacyHamiltonianGradient(mbs, state)
  {
    var n := mbs.nbrDof;
    var m := mbs.nbrConstraints;
    var mass := mbs.massMatrix(state);
    var b := DescriptorGrid(n, m, mass);
    DescriptorGridSymmetric(n, m, mass);
    Block3Symmetric(n, n, m, b);
    var e := DescriptorMatrix(mbs, state);
    var parts := DecomposeState(state, n);
    var f := PotentialForces(mbs, state);
    var z := Costates(mbs, state);
    var g := LegacyHamiltonianGradient(mbs, state);
    var mv := MatVec(mass, parts.momentum);
    assert z == f + parts.momentum + parts.multiplier;
    assert g == f + mv + Zeros(m);
    forall i | 0 <= i < |state|
      ensures MatVec(e, z)[i] == g[i]
    {
      Block3Row(n, n, m, b, i);
      if i < n {
        DescriptorPositionRow(n, m, mass, f, parts.momentum, parts.multiplier, i);
      } else if i < 2 * n {
        DescriptorVelocityRow(n, m, mass, f, parts.momentum, parts.multiplier, i - n);
      } else {
        DescriptorMultiplierRow(n, m, mass, f, parts.momentum, parts.multiplier, i - 2 * n);
      }
    }
  }

  lemma DescriptorGridSymmetric(n: nat, m: nat, mass: Matrix)
    requires IsMatrix(mass, n, n) && IsSymmetric(mass)
    ensures var b := DescriptorGrid(n, m, mass);
      forall k, l, i, j ::
        0 <= k < 3 && 0 <= l < 3 && 0 <= i < [n, n, m][k] && 0 <= j < [n, n, m][l] ==>
          && IsMatrix(b[k][l], [n, n, m][k], [n, n, m][l])
          && IsMatrix(b[l][k], [n, n, m][l], [n, n, m][k])
          && b[k][l][i][j] == b[l][k][j][i]
  {
  }

  lemma DescriptorPositionRow(n: nat, m: nat, mass: Matrix, f: Vector, v: Vector, l: Vector, i: nat)
    requires IsMatrix(mass, n, n) && |f| == n && |v| == n && |l| == m && i < n
    ensures Dot(Identity(n)[i] + ZeroMatrix(n, n)[i] + ZeroMatrix(n, m)[i], f + v + l) == f[i]
  {
    assert Identity(n)[i] == seq(n, j requires 0 <= j < n => if i == j then 1.0 else 0.0);
    assert ZeroMatrix(n, n)[i] == Zeros(n) && ZeroMatrix(n, m)[i] == Zeros(m);
    DotConcat(Identity(n)[i] + Zeros(n), Zeros(m), f + v, l);
    DotConcat(Identity(n)[i], Zeros(n), f, v);
    DotUnitRow(f, i, n);
    DotZerosLeft(n, v);
    DotZerosLeft(m, l);
  }

  lemma DescriptorVelocityRow(n: nat, m: nat, mass: Matrix, f: Vector, v: Vector, l: Vector, i: nat)
    requires IsMatrix(mass, n, n) && |f| == n && |v| == n && |l| == m && i < n
    ensures Dot(ZeroMatrix(n, n)[i] + mass[i] + ZeroMatrix(n, m)[i], f + v + l) == MatVec(mass, v)[i]
  {
    assert ZeroMatrix(n, n)[i] == Zeros(n) && ZeroMatrix(n, m)[i] == Zeros(m);
    DotConcat(Zeros(n) + mass[i], Zeros(m), f + v, l);
    DotConcat(Zeros(n), mass[i], f, v);
    DotZerosLeft(n, f);
    DotZerosLeft(m, l);
  }

  lemma DescriptorMultiplierRow(n: nat, m: nat, mass: Matrix, f: Vector, v: Vector, l: Vector, i: nat)
    requires IsMatrix(mass, n, n) && |f| == n && |v| == n && |l| == m && i < m
    ensures Dot(ZeroMatrix(m, n)[i] + ZeroMatrix(m, n)[i] + ZeroMatrix(m, m)[i], f + v + l) == 0.0
  {
    assert ZeroMatrix(m, n)[i] == Zeros(n) && ZeroMatrix(m, m)[i] == Zeros(m);
    DotConcat(Zeros(n) + Zeros(n), Zeros(m), f + v, l);
    DotConcat(Zeros(n), Zeros(n), f, v);
    DotZerosLeft(n, f);
    DotZerosLeft(n, v);
    DotZerosLeft(m, l);
  }

  // ---------------------------------------------------------------------
  // The wrapper object: its own state and the wrapped multibody state.

  /** A PortHamiltonianMBS: the wrapped multibody system with its state, and
      the wrapper's own state; every quantity above is evaluated at the
      wrapped system's state. */
  datatype PortHamiltonianMBS = PortHamiltonianMBS(
    mbs: MultiBody,
    mbsState: Vector,
    initialState: Blocks,
    dimState: nat,
    stateNames: seq<string>,
    state: Vector,
    parametrization: seq<string>)

  /** The wrapper state and the wrapped state agree. */
  predicate InSync(sys: PortHamiltonianMBS)
  {
    sys.mbsState == sys.state
  }

  /** PortHamiltonianMBS(manager): initialize_state with the wrapped
      system's initial state blocks, whose own state is their
      concatenation too. */
  function NewPortHamiltonianMBS(mbs: MultiBody, initialState: Blocks): (sys: PortHamiltonianMBS)
    ensures InSync(sys) && sys.parametrization == ["state"]
    ensures sys.dimState == |sys.state| && sys.stateNames == Keys(initialState)
  {
    FlattenLength(initialState);
    PortHamiltonianMBS(mbs, Flatten(initialState), initialState, NbrElements(initialState),
                       Keys(initialState), Flatten(initialState), Parametrization)
  }

  /** copy(state): a deep copy whose own and wrapped states are both the new
      state, everything else as in the original. */
  function CopyWithState(sys: PortHamiltonianMBS, state: Vector): (c: PortHamiltonianMBS)
    ensures InSync(c) && c.state == state
    ensures c.(state := sys.state, mbsState := sys.mbsState) == sys
  {
    sys.(state := state, mbsState := state)
  }

  // ---------------------------------------------------------------------
  // Pendulum2D of systems/port_hamiltonian_systems.py

  /** m·g·l times the sine (co-state) or cosine (gradient) of the angle. */
  function Torque(mass: real, gravity: real, length: real, trig: real): real
  {
    mass * gravity * length * trig
  }

  /** m·l², the pendulum's moment of inertia. */
  function Inertia(mass: real, length: real): real
  {
    mass * length * length
  }

  /** dict(zip(keys, values)): pairs up to the shorter list, a repeated key
      keeping its last value. */
  function ZipDict(keys: seq<string>, values: seq<real>): (d: map<string, real>)
    ensures forall k :: k in d <==> exists i :: 0 <= i < |keys| && i < |values| && keys[i] == k
    decreases |keys|
  {
    if |keys| == 0 || |values| == 0 then map[]
    else
      var rest := ZipDict(keys[1..], values[1..]);
      assert forall i :: 1 <= i < |keys| && i < |values| ==> keys[i] == keys[1..][i - 1];
      map[keys[0] := values[0]] + rest
  }

  /** The planar pendulum in angle and angular velocity. */
  class Pendulum2D {
    var initialState: Blocks
    var dimState: nat
    var stateNames: seq<string>
    var stateColumns: seq<string>
    var state: Vector
    var mass: real
    var gravity: real
    var length: real

    /** __init__: initialize_state, then the physical constants fixed to
        1.0, 9.81 and 1.0 whatever the arguments say. */
    constructor (initialState: Blocks, mass: real, gravity: real, length: real)
      ensures this.initialState == initialState && dimState == NbrElements(initialState)
      ensures stateNames == Keys(initialState) && stateColumns == stateNames
      ensures state == Flatten(initialState) && |state| == dimState
      ensures this.mass == 1.0 && this.gravity == 9.81 && this.length == 1.0
    {
      this.initialState := initialState;
      dimState := NbrElements(initialState);
      stateNames := Keys(initialState);
      stateColumns := Keys(initialState);
      state := Flatten(initialState);
      FlattenLength(initialState);
      this.mass := 1.0;
      this.gravity := 9.81;
      this.length := 1.0;
    }

    /** build_state_vector: the blocks concatenated. */
    method BuildStateVector()
      modifies this
      ensures state == Flatten(initialState)
      ensures initialState == old(initialState) && dimState == old(dimState) && stateNames == old(stateNames)
      ensures stateColumns == old(stateColumns)
      ensures mass == old(mass) && gravity == old(gravity) && length == old(length)
    {
      state := Flatten(initialState);
    }

    /** decompose_state: AssertionError unless the state has two entries;
        else the state names zipped with those entries. */
    function DecomposeState(): (r: Result<map<string, real>>)
      reads this
      ensures r.Ok? <==> |state| == 2
      ensures r.Err? ==> r.error.AssertionError?
      ensures r.Ok? && |stateNames| == 2 && stateNames[0] != stateNames[1]
              ==> r.value == map[stateNames[0] := state[0], stateNames[1] := state[1]]
    {
      if |state| != 2 then Err(AssertionError("state must have two entries"))
      else
        var d := ZipDict(stateNames, [state[0], state[1]]);
        if |stateNames| == 2 && stateNames[0] != stateNames[1] then
          assert ZipDict(stateNames[1..], [state[1]]) == map[stateNames[1] := state[1]] by {
            assert stateNames[1..][1..] == [];
          }
          Ok(d)
        else Ok(d)
    }

    /** costates: [m·g·l·sin(q), v] with q and v looked up by the names
        "position" and "velocity"; KeyError when a name is missing. */
    function Costates(sin: real -> real): (r: Result<Vector>)
      reads this
      ensures r.Ok? ==> |r.value| == 2
    {
      match DecomposeState()
      case Err(e) => Err(e)
      case Ok(d) =>
        if "position" !in d then Err(KeyError("position"))
        else if "velocity" !in d then Err(KeyError("velocity"))
        else Ok([Torque(mass, gravity, length, sin(d["position"])), d["velocity"]])
    }

    /** hamiltonian_gradient: diag(m·g·l·cos(q), 1). */
    function HamiltonianGradient(cos: real -> real): (r: Result<Matrix>)
      reads this
      ensures r.Ok? ==> IsMatrix(r.value, 2, 2) && r.value[0][1] == 0.0 && r.value[1] == [0.0, 1.0]
    {
      match DecomposeState()
      case Err(e) => Err(e)
      case Ok(d) =>
        if "position" !in d then Err(KeyError("position"))
        else Ok(Diag([Torque(mass, gravity, length, cos(d["position"])), 1.0]))
    }

    /** descriptor_matrix: diag(1, m·l²). */
    function DescriptorMatrix(): (e: Matrix)
      reads this
      ensures IsMatrix(e, 2, 2) && e[0] == [1.0, 0.0] && e[1] == [0.0, Inertia(mass, length)]
    {
      Diag([1.0, Inertia(mass, length)])
    }
  }

  /** With state names position and velocity the pendulum's co-state is
      [m·g·l·sin(q), v] of its two state entries. */
  lemma PendulumCostates(p: Pendulum2D, sin: real -> real)
    requires p.stateNames == ["position", "velocity"] && |p.state| == 2
    ensures p.Costates(sin) == Ok([Torque(p.mass, p.gravity, p.length, sin(p.state[0])), p.state[1]])
  {
    assert p.stateNames[0] == "position" && p.stateNames[1] == "velocity";
    var d := p.DecomposeState().value;
    assert d == map["position" := p.state[0], "velocity" := p.state[1]];
    assert "position" in d && d["position"] == p.state[0];
    assert "velocity" in d && d["velocity"] == p.state[1];
    assert p.DecomposeState() == Ok(d);
    assert p.Costates(sin).Ok?;
    var expected := [Torque(p.mass, p.gravity, p.length, sin(p.state[0])), p.state[1]];
    assert p.Costates(sin).value[0] == Torque(p.mass, p.gravity, p.length, sin(d["position"]));
    assert sin(d["position"]) == sin(p.state[0]);
    assert p.Costates(sin).value[0] == expected[0];
    assert p.Costates(sin).value == expected;
  }

  /** structure_matrix: [[0, 1], [−1, 0]], skew-symmetric, the same in both
      generations. */
  function PendulumStructureMatrix(): (j: Matrix)
    ensures IsSkew(j) && |j| == 2
  {
    [[0.0, 1.0], [-1.0, 0.0]]
  }

  // ---------------------------------------------------------------------
  // Pendulum2D of systems_port_hamiltonian.py: the constants are the
  // constructor's arguments and the state names are fixed.

  datatype LegacyPendulum2D = LegacyPendulum2D(mass: real, gravity: real, length: real, state: Vector)

  /** get_state_columns. */
  const LegacyPendulumColumns: seq<string> := ["angle", "angular_velocity"]

  /** decompose_state: (angle, angular velocity), AssertionError unless
      the state has two entries. */
  function LegacyDecomposeState(p: LegacyPendulum2D): (r: Result<(real, real)>)
    ensures r.Ok? <==> |p.state| == 2
    ensures r.Ok? ==> r.value == (p.state[0], p.state[1])
  {
    if |p.state| != 2 then Err(AssertionError("state must have two entries"))
    else Ok((p.state[0], p.state[1]))
  }

  function LegacyCostates(p: LegacyPendulum2D, sin: real -> real): (r: Result<Vector>)
    ensures r.Ok? <==> |p.state| == 2
  {
    match LegacyDecomposeState(p)
    case Err(e) => Err(e)
    case Ok((q, v)) => Ok([Torque(p.mass, p.gravity, p.length, sin(q)), v])
  }

  function LegacyDescriptorMatrix(p: LegacyPendulum2D): (e: Matrix)
    ensures IsMatrix(e, 2, 2) && e[1][1] == Inertia(p.mass, p.length) && e[0][1] == 0.0 && e[1][0] == 0.0
  {
    Diag([1.0, Inertia(p.mass, p.length)])
  }

  /** The two generations agree on the co-state and the descriptor matrix
      when the legacy constants are the ones the newer class fixes and the
      newer state is named position, velocity. */
  lemma PendulumGenerationsAgree(p: Pendulum2D, sin: real -> real)
    requires p.stateNames == ["position", "velocity"] && |p.state| == 2
    ensures var legacy := LegacyPendulum2D(p.mass, p.gravity, p.length, p.state);
      && LegacyCostates(legacy, sin) == p.Costates(sin)
      && LegacyDescriptorMatrix(legacy) == p.DescriptorMatrix()
  {
    PendulumCostates(p, sin);
    var legacy := LegacyPendulum2D(p.mass, p.gravity, p.length, p.state);
    assert LegacyDecomposeState(legacy) == Ok((p.state[0], p.state[1]));
    assert LegacyCostates(legacy, sin) == Ok([Torque(p.mass, p.gravity, p.length, sin(p.state[0])), p.state[1]]);
  }
}
