/** The state layout and the physics of the multibody systems: a state is
    positions q (nbr_dof entries), momenta p (nbr_dof entries) and Lagrange
    multipliers λ (the rest); the physics are callbacks of the state. The
    particle system's diagonal masses, its length constraint and the damper
    viscosity are concrete. */
module MultiBodyLayout {
  import opened LinAlg
  import opened Outcomes
  import Utils

  // ---------------------------------------------------------------------
  // decompose_state / compose_state

  /** The three named blocks of a state. */
  datatype Parts = Parts(position: Vector, momentum: Vector, multiplier: Vector)

  /** A numpy slice bound: past the end it clamps to the length. */
  function Clamp(i: nat, n: nat): (c: nat)
    ensures c <= n && (i <= n ==> c == i)
  {
    if i < n then i else n
  }

  /** decompose_state: state[0:n], state[n:2n], state[2n:], with numpy's
      clamping when the state is shorter. */
  function DecomposeState(state: Vector, nbrDof: nat): (parts: Parts)
    ensures parts.position + parts.momentum + parts.multiplier == state
    ensures |state| >= 2 * nbrDof ==>
      |parts.position| == nbrDof && |parts.momentum| == nbrDof && |parts.multiplier| == |state| - 2 * nbrDof
  {
    var a := Clamp(nbrDof, |state|);
    var b := Clamp(2 * nbrDof, |state|);
    assert state == state[..a] + state[a..b] + state[b..];
    Parts(state[..a], state[a..b], state[b..])
  }

  /** compose_state: np.concatenate([q, p, λ]). */
  function ComposeState(parts: Parts): (state: Vector)
    ensures |state| == |parts.position| + |parts.momentum| + |parts.multiplier|
  {
    parts.position + parts.momentum + parts.multiplier
  }

  /** Composing and decomposing are inverse to each other: every state is the
      composition of its parts, and parts of the right lengths come back
      from their composition. */
  lemma ComposeDecompose(state: Vector, parts: Parts, nbrDof: nat)
    ensures ComposeState(DecomposeState(state, nbrDof)) == state
    ensures |parts.position| == nbrDof && |parts.momentum| == nbrDof ==>
      DecomposeState(ComposeState(parts), nbrDof) == parts
  {
    if |parts.position| == nbrDof && |parts.momentum| == nbrDof {
      var s := ComposeState(parts);
      assert s[..nbrDof] == parts.position;
      assert s[nbrDof..2 * nbrDof] == parts.momentum;
      assert s[2 * nbrDof..] == parts.multiplier;
    }
  }

  // ---------------------------------------------------------------------
  // get_state_columns

  /** A column name f"{name}{number}": the name and the number printed
      after it. */
  datatype Column = Column(name: string, number: int)

  /** The numbered names of one block: name followed by number(k), k < count. */
  function Numbered(name: string, count: nat, number: int -> int): (c: seq<Column>)
    ensures |c| == count && forall k :: 0 <= k < count ==> c[k] == Column(name, number(k))
  {
    seq(count, k requires 0 <= k < count => Column(name, number(k)))
  }

  /** get_state_columns: the position names, the momentum names, then one
      "lambda" name per constraint; `number` maps the Python index to the
      printed number (the identity in systems_multi_body.py, the shift to
      1-based numbering in systems/multi_body_systems.py). */
  function StateColumns(first: string, second: string, nbrDof: nat, nbrConstraints: nat,
                        number: int -> int): (columns: seq<Column>)
  {
    Numbered(first, nbrDof, number) + Numbered(second, nbrDof, number) + Numbered("lambda", nbrConstraints, number)
  }

  /** There is one column per state entry, and column i names the block and
      the offset in it where DecomposeState puts entry i. */
  lemma ColumnsFollowLayout(first: string, second: string, nbrDof: nat, nbrConstraints: nat,
                            number: int -> int, state: Vector)
    requires |state| == 2 * nbrDof + nbrConstraints
    ensures var columns := StateColumns(first, second, nbrDof, nbrConstraints, number);
      var parts := DecomposeState(state, nbrDof);
      && |columns| == |state|
      && (forall k :: 0 <= k < nbrDof ==>
            columns[k] == Column(first, number(k)) && state[k] == parts.position[k])
      && (forall k :: 0 <= k < nbrDof ==>
            columns[nbrDof + k] == Column(second, number(k)) && state[nbrDof + k] == parts.momentum[k])
      && (forall k :: 0 <= k < nbrConstraints ==>
            columns[2 * nbrDof + k] == Column("lambda", number(k)) && state[2 * nbrDof + k] == parts.multiplier[k])
  {
    var parts := DecomposeState(state, nbrDof);
    var columns := StateColumns(first, second, nbrDof, nbrConstraints, number);
    var a, b, c := Numbered(first, nbrDof, number), Numbered(second, nbrDof, number),
                   Numbered("lambda", nbrConstraints, number);
    assert columns == a + b + c;
    assert state[..nbrDof] == parts.position && state[nbrDof..2 * nbrDof] == parts.momentum
        && state[2 * nbrDof..] == parts.multiplier;
    forall k | 0 <= k < nbrDof
      ensures columns[k] == Column(first, number(k)) && state[k] == parts.position[k]
    {
      assert columns[k] == a[k];
      assert state[k] == state[..nbrDof][k];
    }
    forall k | 0 <= k < nbrDof
      ensures columns[nbrDof + k] == Column(second, number(k)) && state[nbrDof + k] == parts.momentum[k]
    {
      assert columns[nbrDof + k] == b[k];
      assert state[nbrDof + k] == state[nbrDof..2 * nbrDof][k];
    }
    forall k | 0 <= k < nbrConstraints
      ensures columns[2 * nbrDof + k] == Column("lambda", number(k)) && state[2 * nbrDof + k] == parts.multiplier[k]
    {
      assert columns[2 * nbrDof + k] == c[k];
      assert state[2 * nbrDof + k] == state[2 * nbrDof..][k];
    }
  }

  /** With the literature shift the numbers of each block run 1, 2, …. */
  lemma LiteratureNumbering(first: string, second: string, nbrDof: nat, nbrConstraints: nat, k: nat)
    requires k < nbrDof
    ensures var columns := StateColumns(first, second, nbrDof, nbrConstraints, Utils.ShiftIndexPythonToLiterature);
      columns[k].number == k + 1 && columns[nbrDof + k].number == k + 1
  {
  }

  // ---------------------------------------------------------------------
  // The physics of a multibody system, each callback evaluated on a system
  // copy that carries the given state.

  datatype MultiBody = MultiBody(
    nbrDof: nat,
    nbrConstraints: nat,
    massMatrix: Vector -> Matrix,
    /** None when the class has no inverse_mass_matrix. */
    inverseMassMatrix: Option<Vector -> Matrix>,
    externalPotential: Vector -> real,
    internalPotential: Vector -> real,
    externalPotentialGradient: Vector -> Vector,
    internalPotentialGradient: Vector -> Vector,
    kineticEnergyGradientFromMomentum: Vector -> Vector,
    constraint: Vector -> Vector,
    constraintGradient: Vector -> Matrix)

  /** kinetic_energy: ½·pᵀ·M⁻¹·p; None where it would raise (no inverse
      mass, or one of the wrong shape). */
  function KineticEnergy(sys: MultiBody, state: Vector): (e: Option<real>)
    ensures e.Some? ==> sys.inverseMassMatrix.Some?
  {
    var p := DecomposeState(state, sys.nbrDof).momentum;
    match sys.inverseMassMatrix
    case None => None
    case Some(inverse) =>
      if IsMatrix(inverse(state), |p|, |p|) then Some(0.5 * Dot(p, MatVec(inverse(state), p)))
      else None
  }

  /** potential_energy: external plus internal potential. */
  function PotentialEnergy(sys: MultiBody, state: Vector): real
  {
    sys.externalPotential(state) + sys.internalPotential(state)
  }

  /** total_energy: kinetic plus potential energy. */
  function TotalEnergy(sys: MultiBody, state: Vector): (e: Option<real>)
    ensures e.Some? <==> KineticEnergy(sys, state).Some?
  {
    match KineticEnergy(sys, state)
    case None => None
    case Some(k) => Some(k + PotentialEnergy(sys, state))
  }

  /** With a diagonal inverse mass of positive entries the kinetic energy is
      non-negative and vanishes exactly at zero momentum, so the total
      energy is bounded below by the potential energy. */
  lemma KineticEnergyPositive(sys: MultiBody, state: Vector, weights: Vector)
    requires |state| >= 2 * sys.nbrDof && |weights| == sys.nbrDof
    requires sys.inverseMassMatrix.Some? && sys.inverseMassMatrix.value(state) == Diag(weights)
    requires forall i :: 0 <= i < |weights| ==> weights[i] > 0.0
    ensures KineticEnergy(sys, state).Some? && KineticEnergy(sys, state).value >= 0.0
    ensures KineticEnergy(sys, state).value == 0.0 <==> IsZero(DecomposeState(state, sys.nbrDof).momentum)
    ensures TotalEnergy(sys, state).value >= PotentialEnergy(sys, state)
  {
    var p := DecomposeState(state, sys.nbrDof).momentum;
    DiagMatVec(weights, p);
    WeightedSquares(weights, p);
  }

  // ---------------------------------------------------------------------
  // The particle system's masses.

  /** np.repeat(mass, d): every mass d times in a row. */
  function Repeat(mass: Vector, d: nat): (r: Vector)
    ensures |r| == |mass| * d
    ensures forall i :: 0 <= i < |r| ==> r[i] in mass
  {
    if |mass| == 0 then []
    else
      var rest := Repeat(mass[1..], d);
      assert |mass| * d == d + (|mass| - 1) * d;
      seq(d, _ => mass[0]) + rest
  }

  /** Entry j of particle k's block is that particle's mass. */
  lemma {:induction false} RepeatBlock(mass: Vector, d: nat, k: nat, j: nat)
    requires k < |mass| && j < d
    ensures k * d + j < |Repeat(mass, d)| && Repeat(mass, d)[k * d + j] == mass[k]
  {
    assert |mass| * d == d + (|mass| - 1) * d;
    if k > 0 {
      RepeatBlock(mass[1..], d, k - 1, j);
      assert (k - 1) * d + j + d == k * d + j;
    }
  }

  /** mass_matrix of the particle system: diag(repeat(mass, d)). */
  function ParticleMassMatrix(mass: Vector, d: nat): (m: Matrix)
    ensures IsMatrix(m, |mass| * d, |mass| * d)
  {
    Diag(Repeat(mass, d))
  }

  function Reciprocals(v: Vector): (r: Vector)
    requires forall i :: 0 <= i < |v| ==> v[i] != 0.0
    ensures |r| == |v| && forall i :: 0 <= i < |v| ==> r[i] * v[i] == 1.0
  {
    seq(|v|, i requires 0 <= i < |v| => 1.0 / v[i])
  }

  /** inverse_mass_matrix of the particle system: the diagonal of
      reciprocals of the repeated masses. */
  function ParticleInverseMassMatrix(mass: Vector, d: nat): (m: Matrix)
    requires forall i :: 0 <= i < |mass| ==> mass[i] != 0.0
    ensures IsMatrix(m, |mass| * d, |mass| * d)
  {
    Diag(Reciprocals(Repeat(mass, d)))
  }

  /** The two matrices are inverse to each other: M·(M⁻¹·x) = x and
      M⁻¹·(M·x) = x. */
  lemma ParticleMassInverse(mass: Vector, d: nat, x: Vector)
    requires forall i :: 0 <= i < |mass| ==> mass[i] != 0.0
    requires |x| == |mass| * d
    ensures MatVec(ParticleMassMatrix(mass, d), MatVec(ParticleInverseMassMatrix(mass, d), x)) == x
    ensures MatVec(ParticleInverseMassMatrix(mass, d), MatVec(ParticleMassMatrix(mass, d), x)) == x
  {
    var r := Repeat(mass, d);
    var w := Reciprocals(r);
    DiagonalsInverse(r, w, x);
    DiagonalsInverse(w, r, x);
  }

  /** Two diagonal matrices whose diagonals multiply to one undo each other. */
  lemma DiagonalsInverse(a: Vector, b: Vector, x: Vector)
    requires |a| == |b| == |x| && forall i :: 0 <= i < |a| ==> b[i] * a[i] == 1.0
    ensures MatVec(Diag(a), MatVec(Diag(b), x)) == x
  {
    DiagMatVec(b, x);
    DiagMatVec(a, Times(b, x));
    forall i | 0 <= i < |x|
      ensures Times(a, Times(b, x))[i] == x[i]
    {
      calc {
        Times(a, Times(b, x))[i];
        a[i] * (b[i] * x[i]);
        (b[i] * a[i]) * x[i];
        x[i];
      }
    }
  }

  /** The diagonal entry for dimension j of particle k is that particle's
      mass, and its reciprocal in the inverse. */
  lemma ParticleMassDiagonal(mass: Vector, d: nat, k: nat, j: nat)
    requires forall i :: 0 <= i < |mass| ==> mass[i] != 0.0
    requires k < |mass| && j < d
    ensures k * d + j < |mass| * d
    ensures ParticleMassMatrix(mass, d)[k * d + j][k * d + j] == mass[k]
    ensures ParticleInverseMassMatrix(mass, d)[k * d + j][k * d + j] * mass[k] == 1.0
  {
    RepeatBlock(mass, d, k, j);
  }

  /** The particle system's initial state blocks: positions, momenta and one
      zero multiplier per constraint. */
  function ParticleInitialState(positions: Vector, momenta: Vector, nbrConstraints: nat): (blocks: Utils.Blocks)
    ensures Utils.Keys(blocks) == ["position", "momentum", "multiplier"]
  {
    [("position", positions), ("momentum", momenta), ("multiplier", Zeros(nbrConstraints))]
  }

  /** Built into a state vector, the initial multipliers are all zero and the
      positions and momenta come back unchanged. */
  lemma ParticleInitialMultipliers(positions: Vector, momenta: Vector, nbrConstraints: nat)
    requires |positions| == |momenta|
    ensures var state := Utils.Flatten(ParticleInitialState(positions, momenta, nbrConstraints));
      && |state| == 2 * |positions| + nbrConstraints
      && DecomposeState(state, |positions|) == Parts(positions, momenta, Zeros(nbrConstraints))
  {
    var blocks := ParticleInitialState(positions, momenta, nbrConstraints);
    assert blocks[1..][1..][1..] == [];
    assert Utils.Flatten(blocks[1..][1..]) == Zeros(nbrConstraints) + Utils.Flatten(blocks[1..][1..][1..]);
    assert Utils.Flatten(blocks[1..]) == momenta + Utils.Flatten(blocks[1..][1..]);
    assert Utils.Flatten(blocks) == positions + Utils.Flatten(blocks[1..]);
    ComposeDecompose(Utils.Flatten(blocks), Parts(positions, momenta, Zeros(nbrConstraints)), |positions|);
    assert ComposeState(Parts(positions, momenta, Zeros(nbrConstraints))) == Utils.Flatten(blocks);
  }

  // ---------------------------------------------------------------------
  // _constraint and dynamic_viscosity

  /** _constraint: ½·(vᵀv − ℓ²) with v = end − start. */
  function LengthConstraint(length: real, start: Vector, end: Vector): real
    requires |start| == |end|
  {
    var v := Sub(end, start);
    0.5 * (Dot(v, v) - length * length)
  }

  /** The constraint vanishes exactly when the squared distance of the two
      points is ℓ². */
  lemma LengthConstraintZero(length: real, start: Vector, end: Vector)
    requires |start| == |end|
    ensures LengthConstraint(length, start, end) == 0.0 <==> NormSq(Sub(end, start)) == length * length
  {
  }

  /** A damper's viscosity parameters. */
  datatype Damper = Damper(groundViscosity: real, stateDependent: bool, alpha: real)

  /** dynamic_viscosity: the ground viscosity, raised by
      ground_viscosity·alpha·d² when the damper is state dependent. */
  function DynamicViscosity(damper: Damper, relativeDisplacement: real): (v: real)
    ensures !damper.stateDependent ==> v == damper.groundViscosity
    ensures damper.stateDependent ==>
      v == damper.groundViscosity * (1.0 + damper.alpha * relativeDisplacement * relativeDisplacement)
  {
    var viscosity := damper.groundViscosity;
    if damper.stateDependent then
      viscosity + damper.groundViscosity * damper.alpha * relativeDisplacement * relativeDisplacement
    else viscosity
  }

  /** With non-negative parameters the viscosity never drops below the ground
      viscosity, and it equals it at zero displacement. */
  lemma ViscosityAtLeastGround(damper: Damper, relativeDisplacement: real)
    requires damper.groundViscosity >= 0.0 && damper.alpha >= 0.0
    ensures DynamicViscosity(damper, relativeDisplacement) >= damper.groundViscosity
    ensures DynamicViscosity(damper, 0.0) == damper.groundViscosity
  {
    var d2 := relativeDisplacement * relativeDisplacement;
    assert d2 >= 0.0;
    assert damper.alpha * d2 >= 0.0;
    assert damper.groundViscosity * (damper.alpha * d2) >= 0.0;
    assert damper.groundViscosity * damper.alpha * relativeDisplacement * relativeDisplacement
      == damper.groundViscosity * (damper.alpha * d2);
  }
}
