/** The multibody system object of systems/multi_body_systems.py and its
    particle system. The object builds its state vector from named blocks,
    hands out copies as its state is updated, and the particle system sorts
    its particles, flattens their initial positions and momenta, and moves
    the particle indices of its springs and constraints from 1-based to
    0-based numbering in place. */
module MultiBodySystems {
  import opened LinAlg
  import opened Outcomes
  import opened Utils
  import opened BaseSystem
  import opened MultiBodyLayout
  import Stencils = ParticleStencils

  // ---------------------------------------------------------------------
  // get_state_columns with literature numbering

  /** The columns of the given block names, each numbered 1 … nbr_dof. */
  function NameColumns(names: seq<string>, nbrDof: nat): (columns: seq<Column>)
  {
    if |names| == 0 then []
    else Numbered(names[0], nbrDof, ShiftIndexPythonToLiterature) + NameColumns(names[1..], nbrDof)
  }

  /** get_state_columns: the first two block names numbered 1 … nbr_dof,
      then lambda1 … lambda_m. With at least two names these are the
      columns of the state layout. */
  function LiteratureColumns(names: seq<string>, nbrDof: nat, nbrConstraints: nat): (columns: seq<Column>)
    ensures |names| >= 2 ==>
      columns == StateColumns(names[0], names[1], nbrDof, nbrConstraints, ShiftIndexPythonToLiterature)
    ensures |names| < 2 ==> |columns| == |names| * nbrDof + nbrConstraints
  {
    var shown := if |names| >= 2 then names[..2] else names;
    var columns := NameColumns(shown, nbrDof) + Numbered("lambda", nbrConstraints, ShiftIndexPythonToLiterature);
    if |names| >= 2 then
      assert shown[1..][1..] == [];
      assert NameColumns(shown[1..], nbrDof) == Numbered(names[1], nbrDof, ShiftIndexPythonToLiterature) + [];
      columns
    else if |names| == 1 then
      assert NameColumns(shown[1..], nbrDof) == [];
      columns
    else columns
  }

  // ---------------------------------------------------------------------
  // MultiBodySystem

  /** What a copy of the system carries besides its state. */
  datatype Attributes = Attributes(
    nbrSpatialDimensions: nat,
    nbrConstraints: nat,
    nbrDof: nat,
    initialState: Blocks,
    dimState: nat,
    stateNames: seq<string>,
    stateColumns: seq<Column>)

  /** Which get_state_columns initialize_state reaches: the multibody
      system's own, numbered from 1, or the particle system's override,
      lettered x, y, z over its particles. */
  datatype ColumnScheme = Literature | Lettered(nbrParticles: nat)

  class MultiBodySystem {
    const scheme: ColumnScheme
    var nbrSpatialDimensions: nat
    var nbrConstraints: nat
    var nbrDof: nat
    var initialState: Blocks
    var dimState: nat
    var stateNames: seq<string>
    var stateColumns: seq<Column>
    var state: Vector

    function Attrs(): Attributes
      reads this
    {
      Attributes(nbrSpatialDimensions, nbrConstraints, nbrDof, initialState, dimState, stateNames, stateColumns)
    }

    /** The fields __init__ sets before it calls initialize_state; the
        scheme is the class whose get_state_columns applies. */
    constructor (nbrSpatialDimensions: nat, nbrConstraints: nat, nbrDof: nat, scheme: ColumnScheme)
      ensures this.scheme == scheme
      ensures this.nbrSpatialDimensions == nbrSpatialDimensions
      ensures this.nbrConstraints == nbrConstraints && this.nbrDof == nbrDof
      ensures initialState == [] && dimState == 0 && stateNames == [] && stateColumns == [] && state == []
    {
      this.scheme := scheme;
      this.nbrSpatialDimensions := nbrSpatialDimensions;
      this.nbrConstraints := nbrConstraints;
      this.nbrDof := nbrDof;
      initialState := [];
      dimState := 0;
      stateNames := [];
      stateColumns := [];
      state := [];
    }

    /** initialize_state: record the blocks, their entry count and their
        names; when the integrator declares variable names they must equal
        the block names, else PydykitException before the columns and the
        state vector are set; then the columns of the scheme's
        get_state_columns and the state vector. */
    method InitializeState(blocks: Blocks, variableNames: Option<seq<string>>) returns (o: Outcome)
      modifies this
      ensures initialState == blocks && dimState == NbrElements(blocks) && stateNames == Keys(blocks)
      ensures o == if variableNames.Some? then CompareStringLists(Keys(blocks), variableNames.value) else Pass
      ensures o.Pass? && scheme.Literature? ==> stateColumns == LiteratureColumns(Keys(blocks), nbrDof, nbrConstraints)
      ensures o.Pass? && scheme.Lettered? ==>
        stateColumns == ParticleColumns(Keys(blocks), scheme.nbrParticles, nbrConstraints)
      ensures o.Pass? ==> state == Flatten(blocks) && |state| == dimState
      ensures o.Fail? ==> stateColumns == old(stateColumns) && state == old(state)
      ensures nbrSpatialDimensions == old(nbrSpatialDimensions)
      ensures nbrConstraints == old(nbrConstraints) && nbrDof == old(nbrDof)
    {
      initialState := blocks;
      dimState := NbrElements(initialState);
      stateNames := Keys(initialState);
      o := Pass;
      if variableNames.Some? {
        o := CompareStringLists(stateNames, variableNames.value);
        if o.Fail? {
          return;
        }
      }
      match scheme {
        case Literature =>
          stateColumns := LiteratureColumns(stateNames, nbrDof, nbrConstraints);
        case Lettered(nbrParticles) =>
          stateColumns := ParticleColumns(stateNames, nbrParticles, nbrConstraints);
      }
      BuildStateVector();
      FlattenLength(blocks);
    }

    /** build_state_vector: np.hstack of the block values in key order. */
    method BuildStateVector()
      modifies this
      ensures state == Flatten(initialState)
      ensures Attrs() == old(Attrs())
    {
      state := Flatten(initialState);
    }

    /** decompose_state: the position, momentum and multiplier blocks of
        the current state. */
    function Decompose(): (parts: Parts)
      reads this
      ensures ComposeState(parts) == state
      ensures |state| >= 2 * nbrDof ==> |parts.position| == nbrDof && |parts.momentum| == nbrDof
    {
      DecomposeState(state, nbrDof)
    }

    /** update(*states): for each state in turn the system takes it and a
        shallow copy is kept; the system ends with the last state. */
    method Update(states: seq<Vector>) returns (systems: seq<System<Attributes>>)
      modifies this
      ensures systems == SystemCopies(System(Attrs(), old(state)), states)
      ensures state == if |states| == 0 then old(state) else states[|states| - 1]
      ensures Attrs() == old(Attrs())
    {
      systems := [];
      for i := 0 to |states|
        invariant Attrs() == old(Attrs())
        invariant systems == SystemCopies(System(Attrs(), old(state)), states[..i])
        invariant state == if i == 0 then old(state) else states[i - 1]
      {
        state := states[i];
        systems := systems + [System(Attrs(), state)];
      }
      assert states[..|states|] == states;
    }
  }

  // ---------------------------------------------------------------------
  // ParticleSystem: particles, and springs and constraints between them.

  datatype Particle = Particle(index: int, mass: real, initialPosition: Vector, initialMomentum: Vector)

  /** A spring or constraint entry: the particle indices of its two ends and
      its other numeric entries by name (stiffness, equilibrium_length,
      length). */
  datatype Link = Link(particleStart: int, particleEnd: int, values: map<string, real>)

  function ParticleIndex(p: Particle): int
  {
    p.index
  }

  /** One entry with both indices moved from 1-based to 0-based. */
  function ShiftLink(link: Link): (shifted: Link)
    ensures shifted.particleStart + 1 == link.particleStart && shifted.particleEnd + 1 == link.particleEnd
    ensures shifted.values == link.values
  {
    link.(particleStart := ShiftIndexLiteratureToPython(link.particleStart),
          particleEnd := ShiftIndexLiteratureToPython(link.particleEnd))
  }

  function UnshiftLink(link: Link): (shifted: Link)
    ensures shifted.particleStart == link.particleStart + 1 && shifted.particleEnd == link.particleEnd + 1
    ensures shifted.values == link.values
  {
    link.(particleStart := ShiftIndexPythonToLiterature(link.particleStart),
          particleEnd := ShiftIndexPythonToLiterature(link.particleEnd))
  }

  function ShiftedLinks(links: seq<Link>): (shifted: seq<Link>)
    ensures |shifted| == |links| && forall i :: 0 <= i < |links| ==> shifted[i] == ShiftLink(links[i])
  {
    seq(|links|, i requires 0 <= i < |links| => ShiftLink(links[i]))
  }

  function UnshiftedLinks(links: seq<Link>): (shifted: seq<Link>)
    ensures |shifted| == |links| && forall i :: 0 <= i < |links| ==> shifted[i] == UnshiftLink(links[i])
  {
    seq(|links|, i requires 0 <= i < |links| => UnshiftLink(links[i]))
  }

  /** The shift loses nothing: shifting back gives the entries as
      configured, and the other way round. */
  lemma ShiftLinksRoundTrip(links: seq<Link>)
    ensures UnshiftedLinks(ShiftedLinks(links)) == links
    ensures ShiftedLinks(UnshiftedLinks(links)) == links
  {
    assert forall i :: 0 <= i < |links| ==> UnshiftLink(ShiftLink(links[i])) == links[i];
    assert forall i :: 0 <= i < |links| ==> ShiftLink(UnshiftLink(links[i])) == links[i];
  }

  /** The in-place loop of ParticleSystem.__init__ over one list: entry by
      entry, particle_start and particle_end are shifted. */
  method ShiftLinks(links: seq<Link>) returns (shifted: seq<Link>)
    ensures shifted == ShiftedLinks(links)
  {
    shifted := links;
    for i := 0 to |links|
      invariant |shifted| == |links|
      invariant forall k :: 0 <= k < i ==> shifted[k] == ShiftLink(links[k])
      invariant forall k :: i <= k < |links| ==> shifted[k] == links[k]
    {
      var entry := shifted[i];
      entry := entry.(particleStart := ShiftIndexLiteratureToPython(entry.particleStart));
      entry := entry.(particleEnd := ShiftIndexLiteratureToPython(entry.particleEnd));
      shifted := shifted[i := entry];
    }
  }

  /** Equal-length vectors, as numpy needs them to build a 2-d array. */
  predicate Uniform(items: seq<Vector>, d: nat)
  {
    forall k :: 0 <= k < |items| ==> |items[k]| == d
  }

  /** get_flat_list_of_list_attributes over the particles' vectors:
      np.array(...).flatten(), which numpy refuses for ragged lists. */
  function FlatAttributes(items: seq<Vector>): (r: Result<Vector>)
    ensures r.Ok? <==> |items| == 0 || Uniform(items, |items[0]|)
    ensures r.Err? ==> r.error.ValueError?
  {
    if |items| == 0 || Uniform(items, |items[0]|) then Ok(Stencils.HStack(items))
    else Err(ValueError("inhomogeneous shape"))
  }

  /** The part of particle k in a vector of particle blocks of length d. */
  function ParticleBlock(vector: Vector, d: nat, k: nat): (v: Vector)
    requires (k + 1) * d <= |vector|
    ensures |v| == d
  {
    vector[k * d .. k * d + d]
  }

  /** decompose_into_particles: asserts the length nbr_particles·d, then
      np.split into nbr_particles equal parts; with no particles numpy's
      equal-division test takes the length modulo zero and raises. */
  function DecomposeIntoParticles(vector: Vector, nbrParticles: nat, d: nat): (r: Result<seq<Vector>>)
    ensures r.Ok? <==> |vector| == nbrParticles * d && nbrParticles > 0
    ensures |vector| != nbrParticles * d ==> r == Err(AssertionError("length is not nbr_particles * nbr_spatial_dimensions"))
    ensures |vector| == nbrParticles * d && nbrParticles == 0 ==> r == Err(ZeroDivisionError)
    ensures r.Ok? ==> |r.value| == nbrParticles && Uniform(r.value, d)
  {
    if |vector| != nbrParticles * d then Err(AssertionError("length is not nbr_particles * nbr_spatial_dimensions"))
    else if nbrParticles == 0 then Err(ZeroDivisionError)
    else
      Ok(seq(nbrParticles, k requires 0 <= k < nbrParticles =>
        Stencils.MulMonotone(k + 1, nbrParticles, d); ParticleBlock(vector, d, k)))
  }

  /** Splitting into particles and flattening are inverse to each other:
      the parts concatenate to the vector ... */
  lemma SplitThenFlatten(vector: Vector, nbrParticles: nat, d: nat)
    ensures var r := DecomposeIntoParticles(vector, nbrParticles, d);
      r.Ok? ==> FlatAttributes(r.value) == Ok(vector)
  {
    var r := DecomposeIntoParticles(vector, nbrParticles, d);
    if r.Ok? {
      var parts := r.value;
      var flat := Stencils.HStack(parts);
      Stencils.HStackLength(parts, d);
      forall i | 0 <= i < |vector|
        ensures flat[i] == vector[i]
      {
        Stencils.SplitIndex(i, d, nbrParticles);
        var k, j := i / d, i % d;
        Stencils.HStackIndex(parts, d, k, j);
        Stencils.MulMonotone(k + 1, nbrParticles, d);
        assert parts[k] == ParticleBlock(vector, d, k);
        assert parts[k][j] == vector[k * d + j];
      }
      assert flat == vector;
    }
  }

  /** ... and equal-length parts come back from their concatenation. */
  lemma FlattenThenSplit(items: seq<Vector>, d: nat)
    requires |items| > 0 && Uniform(items, d)
    ensures FlatAttributes(items).Ok?
    ensures DecomposeIntoParticles(FlatAttributes(items).value, |items|, d) == Ok(items)
  {
    var flat := Stencils.HStack(items);
    Stencils.HStackLength(items, d);
    var back := DecomposeIntoParticles(flat, |items|, d);
    forall k | 0 <= k < |items|
      ensures back.value[k] == items[k]
    {
      Stencils.MulMonotone(k + 1, |items|, d);
      var part := back.value[k];
      assert part == ParticleBlock(flat, d, k);
      forall j | 0 <= j < d
        ensures part[j] == items[k][j]
      {
        Stencils.HStackIndex(items, d, k, j);
        assert part[j] == flat[k * d + j];
      }
    }
    assert back.value == items;
  }

  // ---------------------------------------------------------------------
  // ParticleSystem.get_state_columns: one column per coordinate letter.

  function Letter(i: nat): string
    requires i < 3
  {
    ["x", "y", "z"][i]
  }

  /** f"{name}_{letter}{number}" for number 1 … nbr_particles and letter
      x, y, z, the letter running fastest. */
  function LetterColumns(name: string, nbrParticles: nat): (columns: seq<Column>)
    ensures |columns| == 3 * nbrParticles
    ensures forall i :: 0 <= i < |columns| ==>
      columns[i] == Column(name + "_" + Letter(i % 3), i / 3 + 1)
  {
    seq(3 * nbrParticles, i requires 0 <= i < 3 * nbrParticles =>
      Column(name + "_" + Letter(i % 3), ShiftIndexPythonToLiterature(i / 3)))
  }

  /** ParticleSystem.get_state_columns: the lettered columns of the first
      two block names, then lambda1 … lambda_m. */
  function ParticleColumns(names: seq<string>, nbrParticles: nat, nbrConstraints: nat): (columns: seq<Column>)
  {
    (if |names| >= 2 then LetterColumns(names[0], nbrParticles) + LetterColumns(names[1], nbrParticles)
     else if |names| == 1 then LetterColumns(names[0], nbrParticles)
     else [])
    + Numbered("lambda", nbrConstraints, ShiftIndexPythonToLiterature)
  }

  /** The letters are fixed to x, y, z: there is one column per state entry
      exactly when the particles move in three dimensions. */
  lemma ParticleColumnsMatchStateOnlyIn3D(names: seq<string>, nbrParticles: nat, nbrConstraints: nat, d: nat)
    requires |names| >= 2 && nbrParticles > 0
    ensures |ParticleColumns(names, nbrParticles, nbrConstraints)| == 2 * (nbrParticles * d) + nbrConstraints
      <==> d == 3
  {
    if d < 3 {
      Stencils.MulMonotone(d + 1, 3, nbrParticles);
    } else if d > 3 {
      Stencils.MulMonotone(4, d, nbrParticles);
    }
  }

  // ---------------------------------------------------------------------
  // ParticleSystem.constraint and constraint_gradient

  /** Python list indexing: from the front for non-negative indices, from
      the back for negative ones, IndexError beyond either end. */
  function PyIndex<T>(s: seq<T>, i: int): (r: Result<T>)
    ensures r.Ok? <==> -|s| <= i < |s|
    ensures r.Err? ==> r.error == IndexError
    ensures r.Ok? && i >= 0 ==> r.value == s[i]
    ensures r.Ok? && i < 0 ==> r.value == s[|s| + i]
  {
    if 0 <= i < |s| then Ok(s[i])
    else if -|s| <= i < 0 then Ok(s[|s| + i])
    else Err(IndexError)
  }

  /** An index as `index == start_index` sees it over range(nbr_particles):
      a negative index equals no particle. */
  function AsIndex(i: int): (r: Option<nat>)
    ensures r.Some? <==> i >= 0
    ensures r.Some? ==> r.value == i
  {
    if i >= 0 then Some(i) else None
  }

  /** entry[key], KeyError when absent. */
  function Value(link: Link, key: string): (r: Result<real>)
    ensures r.Ok? <==> key in link.values
    ensures r.Ok? ==> r.value == link.values[key]
    ensures r.Err? ==> r.error == KeyError(key)
  {
    if key in link.values then Ok(link.values[key]) else Err(KeyError(key))
  }

  /** The constraint's length and the position vectors of its two particles,
      looked up in the order the source does. */
  function Resolve(link: Link, vectors: seq<Vector>): (r: Result<(real, Vector, Vector)>)
    ensures r.Ok? <==> Value(link, "length").Ok? && PyIndex(vectors, link.particleStart).Ok?
                       && PyIndex(vectors, link.particleEnd).Ok?
    ensures r.Ok? ==> r.value == (Value(link, "length").value, PyIndex(vectors, link.particleStart).value,
                                  PyIndex(vectors, link.particleEnd).value)
  {
    match Value(link, "length")
    case Err(e) => Err(e)
    case Ok(length) =>
      match PyIndex(vectors, link.particleStart)
      case Err(e) => Err(e)
      case Ok(start) =>
        match PyIndex(vectors, link.particleEnd)
        case Err(e) => Err(e)
        case Ok(end) => Ok((length, start, end))
  }

  /** ParticleSystem.constraint over the particles' position vectors:
      ½(vᵀv − ℓ²) per constraint, in order. */
  function ConstraintValues(links: seq<Link>, vectors: seq<Vector>, d: nat): (r: Result<Vector>)
    requires Uniform(vectors, d)
  {
    if |links| == 0 then Ok([])
    else
      match Resolve(links[0], vectors)
      case Err(e) => Err(e)
      case Ok(resolved) =>
        match ConstraintValues(links[1..], vectors, d)
        case Err(e) => Err(e)
        case Ok(rest) => Ok([LengthConstraint(resolved.0, resolved.1, resolved.2)] + rest)
  }

  /** The constraint values are defined exactly when every constraint
      resolves; then value i is constraint i's ½(vᵀv − ℓ²), which is zero
      exactly when its particles are ℓ apart. */
  lemma {:induction false} ConstraintValuesMeaning(links: seq<Link>, vectors: seq<Vector>, d: nat)
    requires Uniform(vectors, d)
    ensures var r := ConstraintValues(links, vectors, d);
      && (r.Ok? <==> forall i :: 0 <= i < |links| ==> Resolve(links[i], vectors).Ok?)
      && (r.Ok? ==> |r.value| == |links|)
      && (r.Ok? ==> forall i :: 0 <= i < |links| ==>
            var (length, start, end) := Resolve(links[i], vectors).value;
            && r.value[i] == LengthConstraint(length, start, end)
            && (r.value[i] == 0.0 <==> NormSq(Sub(end, start)) == length * length))
    decreases |links|
  {
    if |links| != 0 {
      ConstraintValuesMeaning(links[1..], vectors, d);
      var r := ConstraintValues(links, vectors, d);
      if r.Ok? {
        forall i | 0 <= i < |links|
          ensures var (length, start, end) := Resolve(links[i], vectors).value;
            && r.value[i] == LengthConstraint(length, start, end)
            && (r.value[i] == 0.0 <==> NormSq(Sub(end, start)) == length * length)
        {
          if i > 0 {
            assert links[i] == links[1..][i - 1];
          }
          var (length, start, end) := Resolve(links[i], vectors).value;
          LengthConstraintZero(length, start, end);
        }
      }
      if forall i :: 0 <= i < |links| ==> Resolve(links[i], vectors).Ok? {
        assert forall i :: 0 <= i < |links| - 1 ==> links[1..][i] == links[i + 1];
      }
    }
  }

  /** ParticleSystem.constraint_gradient over the particles' position
      vectors: one row per constraint, np.vstack refusing an empty list. */
  function ConstraintGradientRows(links: seq<Link>, vectors: seq<Vector>, nbrParticles: nat, d: nat): (r: Result<Matrix>)
    requires Uniform(vectors, d)
  {
    if |links| == 0 then Ok([])
    else
      match PyIndex(vectors, links[0].particleStart)
      case Err(e) => Err(e)
      case Ok(start) =>
        match PyIndex(vectors, links[0].particleEnd)
        case Err(e) => Err(e)
        case Ok(end) =>
          match ConstraintGradientRows(links[1..], vectors, nbrParticles, d)
          case Err(e) => Err(e)
          case Ok(rest) =>
            Ok([Stencils.HStack(Stencils.Blocks(nbrParticles, Sub(end, start),
                  AsIndex(links[0].particleStart), AsIndex(links[0].particleEnd), 1.0, d))] + rest)
  }

  function ConstraintGradientMatrix(links: seq<Link>, vectors: seq<Vector>, nbrParticles: nat, d: nat): (r: Result<Matrix>)
    requires Uniform(vectors, d)
    ensures |links| == 0 ==> r.Err? && r.error.ValueError?
  {
    if |links| == 0 then Err(ValueError("need at least one array to concatenate"))
    else ConstraintGradientRows(links, vectors, nbrParticles, d)
  }

  /** The constraint gradient has one row of nbr_particles·d entries per
      constraint. */
  lemma {:induction false} ConstraintGradientShape(links: seq<Link>, vectors: seq<Vector>, nbrParticles: nat, d: nat)
    requires Uniform(vectors, d)
    ensures var r := ConstraintGradientRows(links, vectors, nbrParticles, d);
      r.Ok? ==> IsMatrix(r.value, |links|, nbrParticles * d)
    decreases |links|
  {
    var r := ConstraintGradientRows(links, vectors, nbrParticles, d);
    if |links| != 0 && r.Ok? {
      ConstraintGradientShape(links[1..], vectors, nbrParticles, d);
      var start := PyIndex(vectors, links[0].particleStart).value;
      var end := PyIndex(vectors, links[0].particleEnd).value;
      var v := Sub(end, start);
      Stencils.HStackLength(Stencils.Blocks(nbrParticles, v, AsIndex(links[0].particleStart),
                                            AsIndex(links[0].particleEnd), 1.0, d), d);
    }
  }

  // ---------------------------------------------------------------------
  // ParticleSystem.internal_potential_gradient

  /** A spring's stiffness, equilibrium length and particle position
      vectors, looked up in the order the source does. */
  function ResolveSpring(link: Link, vectors: seq<Vector>): (r: Result<(real, real, Vector, Vector)>)
    ensures r.Ok? <==> && Value(link, "stiffness").Ok? && Value(link, "equilibrium_length").Ok?
                       && PyIndex(vectors, link.particleStart).Ok? && PyIndex(vectors, link.particleEnd).Ok?
  {
    match Value(link, "stiffness")
    case Err(e) => Err(e)
    case Ok(stiffness) =>
      match Value(link, "equilibrium_length")
      case Err(e) => Err(e)
      case Ok(length) =>
        match PyIndex(vectors, link.particleStart)
        case Err(e) => Err(e)
        case Ok(start) =>
          match PyIndex(vectors, link.particleEnd)
          case Err(e) => Err(e)
          case Ok(end) => Ok((stiffness, length, start, end))
  }

  /** One spring's contribution, the (corrected) _spring_energy_gradient. */
  function SpringContribution(link: Link, resolved: (real, real, Vector, Vector), nbrParticles: nat, d: nat): Vector
    requires |resolved.2| == d && |resolved.3| == d
  {
    var (stiffness, length, start, end) := resolved;
    var v := Sub(end, start);
    Scale(Stencils.SpringFactor(stiffness, length, v),
          Stencils.HStack(Stencils.Blocks(nbrParticles, v, AsIndex(link.particleStart), AsIndex(link.particleEnd), 2.0, d)))
  }

  /** The list of spring contributions, one per spring. */
  function SpringContributions(links: seq<Link>, vectors: seq<Vector>, nbrParticles: nat, d: nat): (r: Result<seq<Vector>>)
    requires Uniform(vectors, d)
  {
    if |links| == 0 then Ok([])
    else
      match ResolveSpring(links[0], vectors)
      case Err(e) => Err(e)
      case Ok(resolved) =>
        match SpringContributions(links[1..], vectors, nbrParticles, d)
        case Err(e) => Err(e)
        case Ok(rest) => Ok([SpringContribution(links[0], resolved, nbrParticles, d)] + rest)
  }

  /** sum(contributions), added left to right onto the zero vector. */
  function SumRows(rows: seq<Vector>, n: nat): (r: Vector)
    requires forall i :: 0 <= i < |rows| ==> |rows[i]| == n
    ensures |r| == n
  {
    if |rows| == 0 then Zeros(n) else Add(SumRows(rows[..|rows| - 1], n), rows[|rows| - 1])
  }

  /** Zero rows sum to zero. */
  lemma {:induction false} SumOfZeroRows(rows: seq<Vector>, n: nat)
    requires forall i :: 0 <= i < |rows| ==> |rows[i]| == n && IsZero(rows[i])
    ensures IsZero(SumRows(rows, n))
    decreases |rows|
  {
    if |rows| != 0 {
      SumOfZeroRows(rows[..|rows| - 1], n);
      assert IsZero(rows[|rows| - 1]);
    }
  }

  /** Every contribution has nbr_particles·d entries. */
  lemma {:induction false} SpringContributionsShape(links: seq<Link>, vectors: seq<Vector>, nbrParticles: nat, d: nat)
    requires Uniform(vectors, d)
    ensures var r := SpringContributions(links, vectors, nbrParticles, d);
      r.Ok? ==> |r.value| == |links| && forall i :: 0 <= i < |r.value| ==> |r.value[i]| == nbrParticles * d
    decreases |links|
  {
    var r := SpringContributions(links, vectors, nbrParticles, d);
    if |links| != 0 && r.Ok? {
      SpringContributionsShape(links[1..], vectors, nbrParticles, d);
      var (stiffness, length, start, end) := ResolveSpring(links[0], vectors).value;
      Stencils.HStackLength(Stencils.Blocks(nbrParticles, Sub(end, start), AsIndex(links[0].particleStart),
                                            AsIndex(links[0].particleEnd), 2.0, d), d);
    }
  }

  /** A spring resolves and sits at its equilibrium length. */
  predicate AtRest(link: Link, vectors: seq<Vector>)
  {
    && ResolveSpring(link, vectors).Ok?
    && var (_, length, start, end) := ResolveSpring(link, vectors).value;
       |start| == |end| && NormSq(Sub(end, start)) == length * length
  }

  /** Springs all at their equilibrium length exert no force: every
      contribution is zero. */
  lemma {:induction false} SpringsAtRestExertNoForce(links: seq<Link>, vectors: seq<Vector>, nbrParticles: nat, d: nat)
    requires Uniform(vectors, d)
    requires forall i :: 0 <= i < |links| ==> AtRest(links[i], vectors)
    ensures var r := SpringContributions(links, vectors, nbrParticles, d);
      r.Ok? && |r.value| == |links| && forall i :: 0 <= i < |links| ==> IsZero(r.value[i])
    decreases |links|
  {
    if |links| != 0 {
      assert forall i :: 0 <= i < |links| - 1 ==> links[1..][i] == links[i + 1];
      SpringsAtRestExertNoForce(links[1..], vectors, nbrParticles, d);
      var rest := SpringContributions(links[1..], vectors, nbrParticles, d).value;
      assert AtRest(links[0], vectors);
      var resolved := ResolveSpring(links[0], vectors).value;
      var (stiffness, length, start, end) := resolved;
      assert Stencils.SpringFactor(stiffness, length, Sub(end, start)) == 0.0;
      var first := SpringContribution(links[0], resolved, nbrParticles, d);
      assert IsZero(first);
      var r := SpringContributions(links, vectors, nbrParticles, d);
      assert r.value == [first] + rest;
    }
  }

  // ---------------------------------------------------------------------
  // ParticleSystem construction

  function Positions(particles: seq<Particle>): (v: seq<Vector>)
    ensures |v| == |particles| && forall k :: 0 <= k < |particles| ==> v[k] == particles[k].initialPosition
  {
    seq(|particles|, k requires 0 <= k < |particles| => particles[k].initialPosition)
  }

  function Momenta(particles: seq<Particle>): (v: seq<Vector>)
    ensures |v| == |particles| && forall k :: 0 <= k < |particles| ==> v[k] == particles[k].initialMomentum
  {
    seq(|particles|, k requires 0 <= k < |particles| => particles[k].initialMomentum)
  }

  function Masses(particles: seq<Particle>): (v: Vector)
    ensures |v| == |particles| && forall k :: 0 <= k < |particles| ==> v[k] == particles[k].mass
  {
    seq(|particles|, k requires 0 <= k < |particles| => particles[k].mass)
  }

  class ParticleSystem {
    var system: MultiBodySystem
    var particles: seq<Particle>
    var springs: seq<Link>
    var constraints: seq<Link>
    var nbrParticles: nat
    var mass: Vector

    /** The fields ParticleSystem.__init__ sets before initialize_state:
        the particles sorted by index, their masses in that order, and the
        multibody part with nbr_dof = d·nbr_particles. */
    constructor (nbrSpatialDimensions: nat, particles: seq<Particle>, springs: seq<Link>, constraints: seq<Link>)
      ensures this.particles == SortByKey(particles, ParticleIndex)
      ensures nbrParticles == |particles| && mass == Masses(this.particles)
      ensures this.springs == springs && this.constraints == constraints
      ensures fresh(system)
      ensures system.nbrSpatialDimensions == nbrSpatialDimensions && system.nbrConstraints == |constraints|
      ensures system.nbrDof == nbrSpatialDimensions * |particles| && system.state == []
      ensures system.scheme == Lettered(|particles|)
    {
      var n := |particles|;
      system := new MultiBodySystem(nbrSpatialDimensions, |constraints|, nbrSpatialDimensions * n, Lettered(n));
      var sorted := SortByKey(particles, ParticleIndex);
      this.particles := sorted;
      this.springs := springs;
      this.constraints := constraints;
      nbrParticles := n;
      mass := Masses(sorted);
    }

    /** The loop of __init__ over springs and constraints; the class has no
        dampers attribute, so only these two lists are shifted. */
    method ShiftIndices()
      modifies this
      ensures springs == ShiftedLinks(old(springs)) && constraints == ShiftedLinks(old(constraints))
      ensures system == old(system) && particles == old(particles)
      ensures nbrParticles == old(nbrParticles) && mass == old(mass)
    {
      springs := ShiftLinks(springs);
      constraints := ShiftLinks(constraints);
    }

    /** decompose_into_particles of the position block of the current
        state: AssertionError unless it holds nbr_particles·d entries. */
    function ParticleVectors(): (r: Result<seq<Vector>>)
      reads this, system
      ensures r.Ok? ==> |r.value| == nbrParticles && Uniform(r.value, system.nbrSpatialDimensions)
      ensures |system.state| >= 2 * system.nbrDof && system.nbrDof != nbrParticles * system.nbrSpatialDimensions
              ==> r.Err? && r.error.AssertionError?
    {
      DecomposeIntoParticles(DecomposeState(system.state, system.nbrDof).position,
                             nbrParticles, system.nbrSpatialDimensions)
    }

    /** constraint(): one value per constraint. */
    function Constraint(): (r: Result<Vector>)
      reads this, system
      ensures r.Ok? ==> ParticleVectors().Ok? && |r.value| == |constraints|
    {
      match ParticleVectors()
      case Err(e) => Err(e)
      case Ok(vectors) =>
        ConstraintValuesMeaning(constraints, vectors, system.nbrSpatialDimensions);
        ConstraintValues(constraints, vectors, system.nbrSpatialDimensions)
    }

    /** constraint_gradient(): one row of nbr_particles·d entries per
        constraint; ValueError without constraints. */
    function ConstraintGradient(): (r: Result<Matrix>)
      reads this, system
      ensures |constraints| == 0 ==> r.Err?
      ensures r.Ok? ==> IsMatrix(r.value, |constraints|, nbrParticles * system.nbrSpatialDimensions)
    {
      match ParticleVectors()
      case Err(e) => Err(e)
      case Ok(vectors) =>
        ConstraintGradientShape(constraints, vectors, nbrParticles, system.nbrSpatialDimensions);
        ConstraintGradientMatrix(constraints, vectors, nbrParticles, system.nbrSpatialDimensions)
    }

    /** internal_potential_gradient(): the sum of the springs'
        contributions, each of nbr_particles·d entries. */
    function InternalPotentialGradient(): (r: Result<Vector>)
      reads this, system
      ensures r.Ok? ==> |r.value| == nbrParticles * system.nbrSpatialDimensions
    {
      match ParticleVectors()
      case Err(e) => Err(e)
      case Ok(vectors) =>
        var d := system.nbrSpatialDimensions;
        match SpringContributions(springs, vectors, nbrParticles, d)
        case Err(e) => Err(e)
        case Ok(rows) =>
          SpringContributionsShape(springs, vectors, nbrParticles, d);
          Ok(SumRows(rows, nbrParticles * d))
    }
  }

  /** ParticleSystem(...): the constructor, the flattened initial positions
      and momenta (ValueError for ragged lists), initialize_state with the
      blocks position, momentum and one zero multiplier per constraint, and
      the index shift. */
  method NewParticleSystem(nbrSpatialDimensions: nat, particles: seq<Particle>, springs: seq<Link>,
                           constraints: seq<Link>, variableNames: Option<seq<string>>)
      returns (r: Result<ParticleSystem>)
    ensures var sorted := SortByKey(particles, ParticleIndex);
      r.Ok? <==> && FlatAttributes(Positions(sorted)).Ok? && FlatAttributes(Momenta(sorted)).Ok?
                 && (variableNames.None? || variableNames.value == ["position", "momentum", "multiplier"])
    ensures r.Ok? ==> fresh(r.value) && fresh(r.value.system)
    ensures r.Ok? ==> var sorted := SortByKey(particles, ParticleIndex);
      && r.value.particles == sorted
      && r.value.springs == ShiftedLinks(springs) && r.value.constraints == ShiftedLinks(constraints)
      && r.value.system.state == Flatten(ParticleInitialState(FlatAttributes(Positions(sorted)).value,
                                                               FlatAttributes(Momenta(sorted)).value,
                                                               |constraints|))
    ensures r.Ok? ==>
      r.value.system.stateColumns == ParticleColumns(["position", "momentum", "multiplier"], |particles|, |constraints|)
  {
    var ps := new ParticleSystem(nbrSpatialDimensions, particles, springs, constraints);
    var q := FlatAttributes(Positions(ps.particles));
    if q.Err? {
      return Err(q.error);
    }
    var p := FlatAttributes(Momenta(ps.particles));
    if p.Err? {
      return Err(p.error);
    }
    var blocks := ParticleInitialState(q.value, p.value, |constraints|);
    var o := ps.system.InitializeState(blocks, variableNames);
    if o.Fail? {
      return Err(o.error);
    }
    ps.ShiftIndices();
    r := Ok(ps);
  }

  /** A particle system whose springs are all at their equilibrium lengths
      has a zero internal potential gradient. */
  lemma RestingSpringsGiveZeroGradient(ps: ParticleSystem)
    requires ps.ParticleVectors().Ok?
    requires forall i :: 0 <= i < |ps.springs| ==> AtRest(ps.springs[i], ps.ParticleVectors().value)
    ensures ps.InternalPotentialGradient().Ok? && IsZero(ps.InternalPotentialGradient().value)
  {
    var vectors := ps.ParticleVectors().value;
    var d := ps.system.nbrSpatialDimensions;
    SpringsAtRestExertNoForce(ps.springs, vectors, ps.nbrParticles, d);
    SpringContributionsShape(ps.springs, vectors, ps.nbrParticles, d);
    var rows := SpringContributions(ps.springs, vectors, ps.nbrParticles, d).value;
    SumOfZeroRows(rows, ps.nbrParticles * d);
  }
}
