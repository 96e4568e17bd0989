/** The sparse structures of the particle system: a constraint or spring
    couples a start and an end particle, and its gradient row or damper
    matrix is assembled block by block over all particles with np.hstack and
    np.vstack. An endpoint that is a support (index None) contributes no
    block. */
module ParticleStencils {
  import opened LinAlg
  import opened Outcomes

  // ---------------------------------------------------------------------
  // np.hstack / np.vstack and their index arithmetic.

  /** np.hstack of vectors: their concatenation in order. */
  function HStack(parts: seq<Vector>): (v: Vector)
  {
    if |parts| == 0 then [] else HStack(parts[..|parts| - 1]) + parts[|parts| - 1]
  }

  /** np.vstack of matrices: their rows in order. */
  function VStack(blocks: seq<Matrix>): (m: Matrix)
  {
    if |blocks| == 0 then [] else VStack(blocks[..|blocks| - 1]) + blocks[|blocks| - 1]
  }

  /** np.hstack of matrices with `rows` rows: row i joins the blocks' rows i. */
  function HStackMatrices(blocks: seq<Matrix>, rows: nat): (m: Matrix)
    requires forall k :: 0 <= k < |blocks| ==> |blocks[k]| == rows
    ensures |m| == rows
  {
    seq(rows, i requires 0 <= i < rows => HStack(seq(|blocks|, k requires 0 <= k < |blocks| => blocks[k][i])))
  }

  /** Position k·d + j of equal-length parts is entry j of part k. */
  lemma {:induction false} HStackIndex(parts: seq<Vector>, d: nat, k: nat, j: nat)
    requires forall p :: 0 <= p < |parts| ==> |parts[p]| == d
    requires k < |parts| && j < d
    ensures |HStack(parts)| == |parts| * d
    ensures k * d + j < |HStack(parts)| && HStack(parts)[k * d + j] == parts[k][j]
    decreases |parts|
  {
    HStackLength(parts, d);
    var n := |parts|;
    var init := parts[..n - 1];
    HStackLength(init, d);
    if k < n - 1 {
      HStackIndex(init, d, k, j);
      assert (k + 1) * d <= (n - 1) * d by { MulMonotone(k + 1, n - 1, d); }
    } else {
      assert k * d == (n - 1) * d;
    }
  }

  lemma {:induction false} HStackLength(parts: seq<Vector>, d: nat)
    requires forall p :: 0 <= p < |parts| ==> |parts[p]| == d
    ensures |HStack(parts)| == |parts| * d
    decreases |parts|
  {
    if |parts| != 0 {
      HStackLength(parts[..|parts| - 1], d);
      assert (|parts| - 1) * d + d == |parts| * d;
    }
  }

  /** Row k·d + i of blocks with d rows each is row i of block k. */
  lemma {:induction false} VStackIndex(blocks: seq<Matrix>, d: nat, k: nat, i: nat)
    requires forall p :: 0 <= p < |blocks| ==> |blocks[p]| == d
    requires k < |blocks| && i < d
    ensures |VStack(blocks)| == |blocks| * d
    ensures k * d + i < |VStack(blocks)| && VStack(blocks)[k * d + i] == blocks[k][i]
    decreases |blocks|
  {
    VStackLength(blocks, d);
    var n := |blocks|;
    var init := blocks[..n - 1];
    VStackLength(init, d);
    if k < n - 1 {
      VStackIndex(init, d, k, i);
      assert (k + 1) * d <= (n - 1) * d by { MulMonotone(k + 1, n - 1, d); }
    } else {
      assert k * d == (n - 1) * d;
    }
  }

  lemma {:induction false} VStackLength(blocks: seq<Matrix>, d: nat)
    requires forall p :: 0 <= p < |blocks| ==> |blocks[p]| == d
    ensures |VStack(blocks)| == |blocks| * d
    decreases |blocks|
  {
    if |blocks| != 0 {
      VStackLength(blocks[..|blocks| - 1], d);
      assert (|blocks| - 1) * d + d == |blocks| * d;
    }
  }

  lemma MulMonotone(a: nat, b: nat, d: nat)
    requires a <= b
    ensures a * d <= b * d
  {
    assert b * d == a * d + (b - a) * d;
  }

  /** Every index below n·d is k·d + j for one block k < n and offset j < d. */
  lemma SplitIndex(r: nat, d: nat, n: nat)
    requires r < n * d
    ensures d > 0 && r / d < n && r % d < d && r == (r / d) * d + r % d
  {
    if r / d >= n {
      MulMonotone(n, r / d, d);
    }
  }

  // ---------------------------------------------------------------------
  // Gradient rows: _constraint_gradient and _spring_energy_gradient.

  /** The sign of particle `index` in structure_start: +1 at the start
      particle, −1 at the end particle, 0 elsewhere; the start is checked
      first, so it wins when both endpoints are the same particle. */
  function Sign(index: nat, startIndex: Option<nat>, endIndex: Option<nat>): (s: real)
    ensures startIndex == Some(index) ==> s == 1.0
    ensures startIndex != Some(index) && endIndex == Some(index) ==> s == -1.0
    ensures startIndex != Some(index) && endIndex != Some(index) ==> s == 0.0
  {
    if startIndex == Some(index) then 1.0
    else if endIndex == Some(index) then -1.0
    else 0.0
  }

  /** The block of particle `index`: −c·v at the start particle, c·v at the
      end particle, `zeroLength` zeros elsewhere. */
  function Block(index: nat, vector: Vector, startIndex: Option<nat>, endIndex: Option<nat>,
                 coefficient: real, zeroLength: nat): (b: Vector)
  {
    if startIndex == Some(index) then Scale(-coefficient, vector)
    else if endIndex == Some(index) then Scale(coefficient, vector)
    else Zeros(zeroLength)
  }

  /** The blocks of particles 0 … count − 1. */
  function Blocks(count: nat, vector: Vector, startIndex: Option<nat>, endIndex: Option<nat>,
                  coefficient: real, zeroLength: nat): (parts: seq<Vector>)
    ensures |parts| == count
    ensures forall k :: 0 <= k < count ==> parts[k] == Block(k, vector, startIndex, endIndex, coefficient, zeroLength)
  {
    seq(count, k requires 0 <= k < count => Block(k, vector, startIndex, endIndex, coefficient, zeroLength))
  }

  /** The loop of _constraint_gradient / _spring_energy_gradient: one block
      per particle appended to `structure`, then np.hstack. The padding
      length is a parameter: the source writes 3. */
  method GradientStructure(vector: Vector, startIndex: Option<nat>, endIndex: Option<nat>,
                           nbrParticles: nat, coefficient: real, zeroLength: nat) returns (row: Vector)
    ensures row == HStack(Blocks(nbrParticles, vector, startIndex, endIndex, coefficient, zeroLength))
  {
    var structure: seq<Vector> := [];
    for index := 0 to nbrParticles
      invariant structure == Blocks(index, vector, startIndex, endIndex, coefficient, zeroLength)
    {
      if startIndex == Some(index) {
        structure := structure + [Scale(-coefficient, vector)];
      } else if endIndex == Some(index) {
        structure := structure + [Scale(coefficient, vector)];
      } else {
        structure := structure + [Zeros(zeroLength)];
      }
    }
    row := HStack(structure);
  }

  /** _constraint_gradient as written: v = end − start, blocks −v / +v, and
      np.zeros(3) for every other particle. */
  method ConstraintGradientAsWritten(startVector: Vector, endVector: Vector,
                                     startIndex: Option<nat>, endIndex: Option<nat>,
                                     nbrParticles: nat) returns (row: Vector)
    requires |startVector| == |endVector|
    ensures row == HStack(Blocks(nbrParticles, Sub(endVector, startVector), startIndex, endIndex, 1.0, 3))
  {
    row := GradientStructure(Sub(endVector, startVector), startIndex, endIndex, nbrParticles, 1.0, 3);
  }

  /** _constraint_gradient with the padding of the spatial dimension. */
  method ConstraintGradient(startVector: Vector, endVector: Vector,
                            startIndex: Option<nat>, endIndex: Option<nat>,
                            nbrParticles: nat) returns (row: Vector)
    requires |startVector| == |endVector|
    ensures row == HStack(Blocks(nbrParticles, Sub(endVector, startVector), startIndex, endIndex, 1.0, |startVector|))
    ensures |row| == nbrParticles * |startVector|
  {
    row := GradientStructure(Sub(endVector, startVector), startIndex, endIndex, nbrParticles, 1.0, |startVector|);
    HStackLength(Blocks(nbrParticles, Sub(endVector, startVector), startIndex, endIndex, 1.0, |startVector|), |startVector|);
  }

  /** The factor stiffness·(vᵀv − ℓ₀²) of the spring's energy gradient;
      it vanishes exactly when the spring has its equilibrium length. */
  function SpringFactor(stiffness: real, equilibriumLength: real, v: Vector): (f: real)
    ensures stiffness != 0.0 ==> (f == 0.0 <==> NormSq(v) == equilibriumLength * equilibriumLength)
  {
    var tmp := Dot(v, v) - equilibriumLength * equilibriumLength;
    assert stiffness != 0.0 && stiffness * tmp == 0.0 ==> tmp == 0.0;
    stiffness * tmp
  }

  /** vᵀv − ℓ₀², the spring's deviation from its equilibrium length. */
  function Stretch(equilibriumLength: real, v: Vector): real
  {
    Dot(v, v) - equilibriumLength * equilibriumLength
  }

  /** _spring_energy: ½·stiffness·(vᵀv − ℓ₀²)² with v = end − start; for a
      non-negative stiffness it is never negative, and it vanishes exactly
      at the equilibrium length. */
  function SpringEnergy(stiffness: real, equilibriumLength: real, start: Vector, end: Vector): (e: real)
    requires |start| == |end|
    ensures stiffness >= 0.0 ==> e >= 0.0
    ensures stiffness != 0.0 ==>
      (e == 0.0 <==> NormSq(Sub(end, start)) == equilibriumLength * equilibriumLength)
  {
    var stretch := Stretch(equilibriumLength, Sub(end, start));
    SquareSign(stretch);
    if stiffness != 0.0 && stretch != 0.0 then
      NonzeroProduct(0.5 * stiffness, Square(stretch));
      0.5 * stiffness * Square(stretch)
    else
      0.5 * stiffness * Square(stretch)
  }

  function Square(t: real): real
  {
    t * t
  }

  /** A square is never negative and vanishes only at zero. */
  lemma SquareSign(t: real)
    ensures Square(t) >= 0.0
    ensures t != 0.0 ==> Square(t) > 0.0
  {
    if t < 0.0 {
      calc {
        Square(t);
        == (-t) * (-t);
        > 0.0;
      }
    } else if t > 0.0 {
      calc {
        Square(t);
        == t * t;
        > 0.0;
      }
    }
  }

  /** Scaling a positive number by a non-zero factor keeps it non-zero. */
  lemma NonzeroProduct(a: real, b: real)
    requires a != 0.0 && b > 0.0
    ensures a * b != 0.0
  {
    if a < 0.0 {
      assert (-a) * b > 0.0;
    } else {
      assert a * b > 0.0;
    }
  }

  /** The energy and the factor of its gradient belong together:
      2·stiffness·energy is the square of the factor. */
  lemma SpringEnergyFactor(stiffness: real, equilibriumLength: real, start: Vector, end: Vector)
    requires |start| == |end|
    ensures 2.0 * stiffness * SpringEnergy(stiffness, equilibriumLength, start, end)
            == SpringFactor(stiffness, equilibriumLength, Sub(end, start))
               * SpringFactor(stiffness, equilibriumLength, Sub(end, start))
  {
    var stretch := Stretch(equilibriumLength, Sub(end, start));
    assert SpringFactor(stiffness, equilibriumLength, Sub(end, start)) == stiffness * stretch;
  }

  /** _spring_energy_gradient with the padding of the spatial dimension:
      stiffness·(vᵀv − ℓ₀²)·[ … −2v … 2v … ]. */
  method SpringEnergyGradient(stiffness: real, equilibriumLength: real, startVector: Vector, endVector: Vector,
                              startIndex: Option<nat>, endIndex: Option<nat>,
                              nbrParticles: nat) returns (row: Vector)
    requires |startVector| == |endVector|
    ensures var v := Sub(endVector, startVector);
      row == Scale(SpringFactor(stiffness, equilibriumLength, v),
                   HStack(Blocks(nbrParticles, v, startIndex, endIndex, 2.0, |startVector|)))
  {
    var v := Sub(endVector, startVector);
    var structure := GradientStructure(v, startIndex, endIndex, nbrParticles, 2.0, |startVector|);
    row := Scale(SpringFactor(stiffness, equilibriumLength, v), structure);
  }

  /** With padding of the vector's own length the row has one block of d
      entries per particle: −c·v at the start particle, c·v at the end
      particle, zeros elsewhere. */
  lemma GradientBlocks(vector: Vector, startIndex: Option<nat>, endIndex: Option<nat>,
                       nbrParticles: nat, coefficient: real, k: nat, j: nat)
    requires k < nbrParticles && j < |vector|
    ensures var row := HStack(Blocks(nbrParticles, vector, startIndex, endIndex, coefficient, |vector|));
      && |row| == nbrParticles * |vector|
      && k * |vector| + j < |row|
      && row[k * |vector| + j]
           == if startIndex == Some(k) then -coefficient * vector[j]
              else if endIndex == Some(k) then coefficient * vector[j]
              else 0.0
  {
    var d := |vector|;
    var parts := Blocks(nbrParticles, vector, startIndex, endIndex, coefficient, d);
    HStackIndex(parts, d, k, j);
    var b := parts[k];
    if startIndex == Some(k) {
      assert b == Scale(-coefficient, vector);
    } else if endIndex == Some(k) {
      assert b == Scale(coefficient, vector);
    } else {
      assert b == Zeros(d);
    }
  }

  /** A support endpoint contributes no block: with the start a support,
      every block but the end particle's is zero. */
  lemma SupportStartContributesNothing(vector: Vector, endIndex: Option<nat>,
                                       nbrParticles: nat, coefficient: real, k: nat)
    requires k < nbrParticles && endIndex != Some(k)
    ensures Blocks(nbrParticles, vector, None, endIndex, coefficient, |vector|)[k] == Zeros(|vector|)
  {
  }

  /** The padding the source writes is wrong outside three dimensions: in
      the plane, with three particles and a constraint between the first
      two, the row has 7 entries instead of nbr_dof = 6. */
  lemma AsWrittenPaddingBreaksLength()
    ensures var row := HStack(Blocks(3, [1.0, 0.0], Some(0), Some(1), 1.0, 3));
      |row| == 7 && |row| != 3 * 2
  {
    var parts := Blocks(3, [1.0, 0.0], Some(0), Some(1), 1.0, 3);
    assert parts[0] == Scale(-1.0, [1.0, 0.0]) && parts[1] == Scale(1.0, [1.0, 0.0]) && parts[2] == Zeros(3);
    assert parts[..2][..1][..0] == [];
    assert HStack(parts) == HStack(parts[..2]) + parts[2];
    assert HStack(parts[..2]) == HStack(parts[..2][..1]) + parts[1];
    assert HStack(parts[..2][..1]) == HStack(parts[..2][..1][..0]) + parts[0];
  }

  // ---------------------------------------------------------------------
  // _dissipation_matrix

  /** The d×d blocks of structure_start (sign +1 at the start particle,
      −1 at the end particle) or of structure_end (the opposite signs). */
  function DampingBlock(index: nat, startIndex: Option<nat>, endIndex: Option<nat>, d: nat, forStart: bool): (b: Matrix)
    ensures IsMatrix(b, d, d)
  {
    var s := Sign(index, startIndex, endIndex);
    if s == 0.0 then ZeroMatrix(d, d)
    else ScaleMatrix(if forStart then s else -s, Identity(d))
  }

  /** The row block of particle `index`: structure_start's rows for the start
      particle, structure_end's for the end particle, zeros elsewhere. */
  function RowBlock(index: nat, startIndex: Option<nat>, endIndex: Option<nat>, d: nat, nbrParticles: nat,
                    structureStart: Matrix, structureEnd: Matrix): (b: Matrix)
  {
    if startIndex == Some(index) then structureStart
    else if endIndex == Some(index) then structureEnd
    else ZeroMatrix(d, nbrParticles * d)
  }

  /** The damping blocks of particles 0 … count − 1. */
  function DampingBlocks(count: nat, startIndex: Option<nat>, endIndex: Option<nat>, d: nat, forStart: bool): (blocks: seq<Matrix>)
    ensures |blocks| == count
    ensures forall k :: 0 <= k < count ==> blocks[k] == DampingBlock(k, startIndex, endIndex, d, forStart)
  {
    seq(count, k requires 0 <= k < count => DampingBlock(k, startIndex, endIndex, d, forStart))
  }

  /** structure_start (forStart) or structure_end: np.hstack of the blocks. */
  function Structure(startIndex: Option<nat>, endIndex: Option<nat>, d: nat, nbrParticles: nat, forStart: bool): (m: Matrix)
    ensures |m| == d
  {
    HStackMatrices(DampingBlocks(nbrParticles, startIndex, endIndex, d, forStart), d)
  }

  /** The matrix _dissipation_matrix builds: np.vstack of the row blocks. */
  function Dissipation(d: nat, startIndex: Option<nat>, endIndex: Option<nat>, nbrParticles: nat): (m: Matrix)
  {
    var structureStart := Structure(startIndex, endIndex, d, nbrParticles, true);
    var structureEnd := Structure(startIndex, endIndex, d, nbrParticles, false);
    VStack(seq(nbrParticles, k requires 0 <= k < nbrParticles =>
      RowBlock(k, startIndex, endIndex, d, nbrParticles, structureStart, structureEnd)))
  }

  /** _dissipation_matrix: the two loops of the source, the first filling
      the block lists of structure_start and structure_end, the second the
      row blocks. */
  method DissipationMatrix(nbrDimensions: nat, startIndex: Option<nat>, endIndex: Option<nat>, nbrParticles: nat)
      returns (m: Matrix)
    ensures m == Dissipation(nbrDimensions, startIndex, endIndex, nbrParticles)
  {
    var d := nbrDimensions;
    var startBlocks: seq<Matrix> := [];
    var endBlocks: seq<Matrix> := [];
    for index := 0 to nbrParticles
      invariant startBlocks == DampingBlocks(index, startIndex, endIndex, d, true)
      invariant endBlocks == DampingBlocks(index, startIndex, endIndex, d, false)
    {
      if startIndex == Some(index) {
        endBlocks := endBlocks + [ScaleMatrix(-1.0, Identity(d))];
        startBlocks := startBlocks + [ScaleMatrix(1.0, Identity(d))];
      } else if endIndex == Some(index) {
        endBlocks := endBlocks + [ScaleMatrix(1.0, Identity(d))];
        startBlocks := startBlocks + [ScaleMatrix(-1.0, Identity(d))];
      } else {
        endBlocks := endBlocks + [ZeroMatrix(d, d)];
        startBlocks := startBlocks + [ZeroMatrix(d, d)];
      }
    }
    var structureStart := HStackMatrices(startBlocks, d);
    var structureEnd := HStackMatrices(endBlocks, d);
    var structure: seq<Matrix> := [];
    for index := 0 to nbrParticles
      invariant structure == seq(index, k requires 0 <= k < index =>
        RowBlock(k, startIndex, endIndex, d, nbrParticles, structureStart, structureEnd))
    {
      if startIndex == Some(index) {
        structure := structure + [structureStart];
      } else if endIndex == Some(index) {
        structure := structure + [structureEnd];
      } else {
        structure := structure + [ZeroMatrix(d, nbrParticles * d)];
      }
    }
    m := VStack(structure);
  }

  /** The row blocks Dissipation stacks. */
  function RowBlocks(d: nat, startIndex: Option<nat>, endIndex: Option<nat>, nbrParticles: nat): (rows: seq<Matrix>)
    ensures |rows| == nbrParticles
  {
    var structureStart := Structure(startIndex, endIndex, d, nbrParticles, true);
    var structureEnd := Structure(startIndex, endIndex, d, nbrParticles, false);
    seq(nbrParticles, k requires 0 <= k < nbrParticles =>
      RowBlock(k, startIndex, endIndex, d, nbrParticles, structureStart, structureEnd))
  }

  /** Every row block is d × n·d. */
  lemma RowBlocksShape(d: nat, startIndex: Option<nat>, endIndex: Option<nat>, nbrParticles: nat)
    ensures Dissipation(d, startIndex, endIndex, nbrParticles) == VStack(RowBlocks(d, startIndex, endIndex, nbrParticles))
    ensures var rows := RowBlocks(d, startIndex, endIndex, nbrParticles);
      forall p :: 0 <= p < nbrParticles ==> IsMatrix(rows[p], d, nbrParticles * d)
  {
    StructureShape(startIndex, endIndex, d, nbrParticles, true);
    StructureShape(startIndex, endIndex, d, nbrParticles, false);
  }

  /** The damper matrix is square of size n·d. */
  lemma DissipationShape(d: nat, startIndex: Option<nat>, endIndex: Option<nat>, nbrParticles: nat)
    ensures IsMatrix(Dissipation(d, startIndex, endIndex, nbrParticles), nbrParticles * d, nbrParticles * d)
  {
    var m := Dissipation(d, startIndex, endIndex, nbrParticles);
    var rows := RowBlocks(d, startIndex, endIndex, nbrParticles);
    RowBlocksShape(d, startIndex, endIndex, nbrParticles);
    VStackLength(rows, d);
    forall r | 0 <= r < nbrParticles * d
      ensures |m[r]| == nbrParticles * d
    {
      SplitIndex(r, d, nbrParticles);
      VStackIndex(rows, d, r / d, r % d);
    }
  }

  /** Entry (k·d + i, l·d + j) of the damper matrix is s_k·s_l where i = j
      and zero otherwise, s being +1 at the start particle, −1 at the end
      particle and 0 elsewhere. */
  lemma DissipationEntry(d: nat, startIndex: Option<nat>, endIndex: Option<nat>, nbrParticles: nat,
                         k: nat, i: nat, l: nat, j: nat)
    requires k < nbrParticles && l < nbrParticles && i < d && j < d
    ensures var m := Dissipation(d, startIndex, endIndex, nbrParticles);
      && IsMatrix(m, nbrParticles * d, nbrParticles * d)
      && k * d + i < nbrParticles * d && l * d + j < nbrParticles * d
      && m[k * d + i][l * d + j]
           == if i == j then Sign(k, startIndex, endIndex) * Sign(l, startIndex, endIndex) else 0.0
  {
    DissipationShape(d, startIndex, endIndex, nbrParticles);
    var rows := RowBlocks(d, startIndex, endIndex, nbrParticles);
    RowBlocksShape(d, startIndex, endIndex, nbrParticles);
    VStackIndex(rows, d, k, i);
    RowBlockEntry(d, startIndex, endIndex, nbrParticles, k, i, l, j);
  }

  /** Entry (i, l·d + j) of particle k's row block. */
  lemma RowBlockEntry(d: nat, startIndex: Option<nat>, endIndex: Option<nat>, nbrParticles: nat,
                      k: nat, i: nat, l: nat, j: nat)
    requires k < nbrParticles && l < nbrParticles && i < d && j < d
    ensures l * d + j < nbrParticles * d
    ensures var block := RowBlocks(d, startIndex, endIndex, nbrParticles)[k];
      && |block| == d && |block[i]| == nbrParticles * d
      && block[i][l * d + j]
           == if i == j then Sign(k, startIndex, endIndex) * Sign(l, startIndex, endIndex) else 0.0
  {
    RowBlocksShape(d, startIndex, endIndex, nbrParticles);
    MulMonotone(l + 1, nbrParticles, d);
    var c := l * d + j;
    var block := RowBlocks(d, startIndex, endIndex, nbrParticles)[k];
    var sk, sl := Sign(k, startIndex, endIndex), Sign(l, startIndex, endIndex);
    var expected := if i == j then sk * sl else 0.0;
    if startIndex == Some(k) {
      assert block == Structure(startIndex, endIndex, d, nbrParticles, true);
      StructureEntry(startIndex, endIndex, d, nbrParticles, true, i, l, j);
      OneTimes(sk, sl);
      assert block[i][c] == expected;
    } else if endIndex == Some(k) {
      assert block == Structure(startIndex, endIndex, d, nbrParticles, false);
      StructureEntry(startIndex, endIndex, d, nbrParticles, false, i, l, j);
      MinusOneTimes(sk, sl);
      assert block[i][c] == expected;
    } else {
      assert block == ZeroMatrix(d, nbrParticles * d);
      ZeroTimes(sk, sl);
      assert block[i][c] == expected;
    }
  }

  // Sign products, stated once so the solver need not multiply by a sign
  // it only knows through an equation.

  lemma OneTimes(a: real, b: real)
    requires a == 1.0
    ensures a * b == b
  {
  }

  lemma MinusOneTimes(a: real, b: real)
    requires a == -1.0
    ensures a * b == -b
  {
  }

  lemma ZeroTimes(a: real, b: real)
    requires a == 0.0
    ensures a * b == 0.0
  {
  }

  lemma StructureShape(startIndex: Option<nat>, endIndex: Option<nat>, d: nat, nbrParticles: nat, forStart: bool)
    ensures IsMatrix(Structure(startIndex, endIndex, d, nbrParticles, forStart), d, nbrParticles * d)
  {
    var blocks := DampingBlocks(nbrParticles, startIndex, endIndex, d, forStart);
    var m := Structure(startIndex, endIndex, d, nbrParticles, forStart);
    forall i | 0 <= i < d
      ensures |m[i]| == nbrParticles * d
    {
      var parts := seq(|blocks|, k requires 0 <= k < |blocks| => blocks[k][i]);
      HStackLength(parts, d);
    }
  }

  /** Entry (i, l·d + j) of structure_start is s_l where i = j; of
      structure_end it is −s_l. */
  lemma StructureEntry(startIndex: Option<nat>, endIndex: Option<nat>, d: nat, nbrParticles: nat, forStart: bool,
                       i: nat, l: nat, j: nat)
    requires i < d && l < nbrParticles && j < d
    ensures l * d + j < nbrParticles * d
    ensures var m := Structure(startIndex, endIndex, d, nbrParticles, forStart);
      var s := Sign(l, startIndex, endIndex);
      l * d + j < |m[i]| && m[i][l * d + j] == if i == j then (if forStart then s else -s) else 0.0
  {
    var blocks := DampingBlocks(nbrParticles, startIndex, endIndex, d, forStart);
    var parts := seq(|blocks|, k requires 0 <= k < |blocks| => blocks[k][i]);
    HStackIndex(parts, d, l, j);
    var b := DampingBlock(l, startIndex, endIndex, d, forStart);
    assert parts[l] == b[i];
  }

  /** The damper matrix is symmetric. */
  lemma DissipationSymmetric(d: nat, startIndex: Option<nat>, endIndex: Option<nat>, nbrParticles: nat)
    ensures IsSymmetric(Dissipation(d, startIndex, endIndex, nbrParticles))
  {
    var m := Dissipation(d, startIndex, endIndex, nbrParticles);
    var n := nbrParticles * d;
    DissipationShape(d, startIndex, endIndex, nbrParticles);
    forall r, c | 0 <= r < n && 0 <= c < n
      ensures m[r][c] == m[c][r]
    {
      SplitIndex(r, d, nbrParticles);
      SplitIndex(c, d, nbrParticles);
      DissipationEntry(d, startIndex, endIndex, nbrParticles, r / d, r % d, c / d, c % d);
      DissipationEntry(d, startIndex, endIndex, nbrParticles, c / d, c % d, r / d, r % d);
    }
  }
}
