/** Dense linear algebra over exact reals: the small part of numpy the
    integration engine uses (vectors, row-major matrices, products, blocks). */
module LinAlg {

  type Vector = seq<real>
  type Matrix = seq<seq<real>>

  function Zeros(n: nat): (v: Vector)
    ensures |v| == n && forall i :: 0 <= i < n ==> v[i] == 0.0
  {
    seq(n, _ => 0.0)
  }

  predicate IsZero(v: Vector)
  {
    forall i :: 0 <= i < |v| ==> v[i] == 0.0
  }

  function Add(a: Vector, b: Vector): (r: Vector)
    requires |a| == |b|
    ensures |r| == |a|
  {
    seq(|a|, i requires 0 <= i < |a| => a[i] + b[i])
  }

  function Sub(a: Vector, b: Vector): (r: Vector)
    requires |a| == |b|
    ensures |r| == |a|
  {
    seq(|a|, i requires 0 <= i < |a| => a[i] - b[i])
  }

  function Scale(c: real, a: Vector): (r: Vector)
    ensures |r| == |a|
  {
    seq(|a|, i requires 0 <= i < |a| => c * a[i])
  }

  function Neg(a: Vector): (r: Vector)
    ensures |r| == |a|
  {
    seq(|a|, i requires 0 <= i < |a| => -a[i])
  }

  /** Midpoint 0.5 * (a + b). */
  function Mid(a: Vector, b: Vector): (r: Vector)
    requires |a| == |b|
    ensures |r| == |a|
  {
    seq(|a|, i requires 0 <= i < |a| => 0.5 * (a[i] + b[i]))
  }

  /** Inner product; pairs entries up to the shorter length. */
  function Dot(a: Vector, b: Vector): real
    decreases |a|
  {
    if |a| == 0 || |b| == 0 then 0.0 else a[0] * b[0] + Dot(a[1..], b[1..])
  }

  /** Squared Euclidean norm. */
  function NormSq(v: Vector): real
  {
    Dot(v, v)
  }

  /** ‖v‖₂ < eps, stated without a square root: for eps <= 0 no norm is
      below eps, and for eps > 0 the comparison squares exactly. */
  predicate NormLess(v: Vector, eps: real)
  {
    eps > 0.0 && NormSq(v) < eps * eps
  }

  predicate IsMatrix(m: Matrix, rows: nat, cols: nat)
  {
    |m| == rows && forall i :: 0 <= i < rows ==> |m[i]| == cols
  }

  function MatVec(m: Matrix, x: Vector): (r: Vector)
    ensures |r| == |m|
  {
    seq(|m|, i requires 0 <= i < |m| => Dot(m[i], x))
  }

  /** Column j of a matrix whose rows all have more than j entries. */
  function Col(m: Matrix, j: nat): (c: Vector)
    requires forall i :: 0 <= i < |m| ==> j < |m[i]|
    ensures |c| == |m|
  {
    seq(|m|, i requires 0 <= i < |m| => m[i][j])
  }

  function Transpose(m: Matrix, cols: nat): (t: Matrix)
    requires IsMatrix(m, |m|, cols)
    ensures IsMatrix(t, cols, |m|)
    ensures forall j, i :: 0 <= j < cols && 0 <= i < |m| ==> t[j][i] == m[i][j]
  {
    seq(cols, j requires 0 <= j < cols => seq(|m|, i requires 0 <= i < |m| => m[i][j]))
  }

  function NegMatrix(m: Matrix): (r: Matrix)
    ensures |r| == |m| && forall i :: 0 <= i < |m| ==> r[i] == Neg(m[i])
  {
    seq(|m|, i requires 0 <= i < |m| => Neg(m[i]))
  }

  function ZeroMatrix(rows: nat, cols: nat): (z: Matrix)
    ensures IsMatrix(z, rows, cols)
    ensures forall i, j :: 0 <= i < rows && 0 <= j < cols ==> z[i][j] == 0.0
  {
    seq(rows, _ => Zeros(cols))
  }

  function Identity(n: nat): (e: Matrix)
    ensures IsMatrix(e, n, n)
    ensures forall i, j :: 0 <= i < n && 0 <= j < n ==> e[i][j] == (if i == j then 1.0 else 0.0)
  {
    seq(n, i requires 0 <= i < n => seq(n, j requires 0 <= j < n => if i == j then 1.0 else 0.0))
  }

  /** The diagonal matrix with the given diagonal (numpy's diag of a vector). */
  function Diag(d: Vector): (e: Matrix)
    ensures IsMatrix(e, |d|, |d|)
    ensures forall i, j :: 0 <= i < |d| && 0 <= j < |d| ==> e[i][j] == (if i == j then d[i] else 0.0)
  {
    seq(|d|, i requires 0 <= i < |d| => seq(|d|, j requires 0 <= j < |d| => if i == j then d[i] else 0.0))
  }

  function ScaleMatrix(c: real, m: Matrix): (r: Matrix)
    ensures |r| == |m| && forall i :: 0 <= i < |m| ==> r[i] == Scale(c, m[i])
  {
    seq(|m|, i requires 0 <= i < |m| => Scale(c, m[i]))
  }

  function AddMatrix(a: Matrix, b: Matrix, rows: nat, cols: nat): (r: Matrix)
    requires IsMatrix(a, rows, cols) && IsMatrix(b, rows, cols)
    ensures IsMatrix(r, rows, cols)
    ensures forall i, j :: 0 <= i < rows && 0 <= j < cols ==> r[i][j] == a[i][j] + b[i][j]
  {
    seq(rows, i requires 0 <= i < rows => Add(a[i], b[i]))
  }

  function SubMatrix(a: Matrix, b: Matrix, rows: nat, cols: nat): (r: Matrix)
    requires IsMatrix(a, rows, cols) && IsMatrix(b, rows, cols)
    ensures IsMatrix(r, rows, cols)
    ensures forall i, j :: 0 <= i < rows && 0 <= j < cols ==> r[i][j] == a[i][j] - b[i][j]
  {
    seq(rows, i requires 0 <= i < rows => Sub(a[i], b[i]))
  }

  /** Matrix product a·b, entry (i, j) the inner product of row i of a with
      column j of b. */
  function MatMul(a: Matrix, b: Matrix, cols: nat): (r: Matrix)
    requires IsMatrix(b, |b|, cols)
    ensures IsMatrix(r, |a|, cols)
    ensures forall i, j :: 0 <= i < |a| && 0 <= j < cols ==> r[i][j] == Dot(a[i], Col(b, j))
  {
    seq(|a|, i requires 0 <= i < |a| => seq(cols, j requires 0 <= j < cols => Dot(a[i], Col(b, j))))
  }

  ghost predicate IsSkew(m: Matrix)
  {
    IsMatrix(m, |m|, |m|) && forall i, j :: 0 <= i < |m| && 0 <= j < |m| ==> m[i][j] == -m[j][i]
  }

  ghost predicate IsSymmetric(m: Matrix)
  {
    IsMatrix(m, |m|, |m|) && forall i, j :: 0 <= i < |m| && 0 <= j < |m| ==> m[i][j] == m[j][i]
  }

  /** A 3-by-3 grid of blocks whose diagonal blocks have sizes n1, n2, n3. */
  predicate BlockGrid(n1: nat, n2: nat, n3: nat, b: seq<seq<Matrix>>)
  {
    && |b| == 3 && (forall k :: 0 <= k < 3 ==> |b[k]| == 3)
    && forall k, l :: 0 <= k < 3 && 0 <= l < 3 ==> IsMatrix(b[k][l], [n1, n2, n3][k], [n1, n2, n3][l])
  }

  /** A square matrix assembled from a 3-by-3 grid of blocks (numpy's block
      of a 3-by-3 nested list). */
  function Block3(n1: nat, n2: nat, n3: nat, b: seq<seq<Matrix>>): (r: Matrix)
    requires BlockGrid(n1, n2, n3, b)
    ensures IsMatrix(r, n1 + n2 + n3, n1 + n2 + n3)
  {
    var N := n1 + n2 + n3;
    seq(N, i requires 0 <= i < N =>
      seq(N, j requires 0 <= j < N =>
        var r := BlockIndex(n1, n2, n3, i);
        var c := BlockIndex(n1, n2, n3, j);
        assert IsMatrix(b[r.0][c.0], [n1, n2, n3][r.0], [n1, n2, n3][c.0]);
        b[r.0][c.0][r.1][c.1]))
  }

  /** Entry (i, j) of the assembled matrix is the matching entry of the
      block that row i and column j fall in. */
  lemma Block3Entry(n1: nat, n2: nat, n3: nat, b: seq<seq<Matrix>>, i: nat, j: nat)
    requires BlockGrid(n1, n2, n3, b) && i < n1 + n2 + n3 && j < n1 + n2 + n3
    ensures var r := BlockIndex(n1, n2, n3, i);
      var c := BlockIndex(n1, n2, n3, j);
      r.1 < |b[r.0][c.0]| && c.1 < |b[r.0][c.0][r.1]| && Block3(n1, n2, n3, b)[i][j] == b[r.0][c.0][r.1][c.1]
  {
    var r := BlockIndex(n1, n2, n3, i);
    var c := BlockIndex(n1, n2, n3, j);
    assert IsMatrix(b[r.0][c.0], [n1, n2, n3][r.0], [n1, n2, n3][c.0]);
  }

  /** Row i of the assembled matrix is the concatenation of row i's three
      blocks. */
  lemma Block3Row(n1: nat, n2: nat, n3: nat, b: seq<seq<Matrix>>, i: nat)
    requires BlockGrid(n1, n2, n3, b) && i < n1 + n2 + n3
    ensures var r := BlockIndex(n1, n2, n3, i);
      && r.1 < |b[r.0][0]| && r.1 < |b[r.0][1]| && r.1 < |b[r.0][2]|
      && Block3(n1, n2, n3, b)[i] == b[r.0][0][r.1] + b[r.0][1][r.1] + b[r.0][2][r.1]
  {
    var r := BlockIndex(n1, n2, n3, i);
    var N := n1 + n2 + n3;
    assert IsMatrix(b[r.0][0], [n1, n2, n3][r.0], [n1, n2, n3][0]);
    assert IsMatrix(b[r.0][1], [n1, n2, n3][r.0], [n1, n2, n3][1]);
    assert IsMatrix(b[r.0][2], [n1, n2, n3][r.0], [n1, n2, n3][2]);
    var row := b[r.0][0][r.1] + b[r.0][1][r.1] + b[r.0][2][r.1];
    forall j | 0 <= j < N
      ensures Block3(n1, n2, n3, b)[i][j] == row[j]
    {
      Block3Entry(n1, n2, n3, b, i, j);
    }
  }

  /** A grid whose block (k, l) is minus the transpose of block (l, k)
      assembles to a skew-symmetric matrix. */
  lemma Block3Skew(n1: nat, n2: nat, n3: nat, b: seq<seq<Matrix>>)
    requires BlockGrid(n1, n2, n3, b)
    requires forall k, l, i, j ::
               0 <= k < 3 && 0 <= l < 3 && 0 <= i < [n1, n2, n3][k] && 0 <= j < [n1, n2, n3][l] ==>
                 && IsMatrix(b[k][l], [n1, n2, n3][k], [n1, n2, n3][l])
                 && IsMatrix(b[l][k], [n1, n2, n3][l], [n1, n2, n3][k])
                 && b[k][l][i][j] == -b[l][k][j][i]
    ensures IsSkew(Block3(n1, n2, n3, b))
  {
    var m := Block3(n1, n2, n3, b);
    var N := n1 + n2 + n3;
    forall i, j | 0 <= i < N && 0 <= j < N
      ensures m[i][j] == -m[j][i]
    {
      Block3Entry(n1, n2, n3, b, i, j);
      Block3Entry(n1, n2, n3, b, j, i);
    }
  }

  /** A grid whose block (k, l) is the transpose of block (l, k) assembles
      to a symmetric matrix. */
  lemma Block3Symmetric(n1: nat, n2: nat, n3: nat, b: seq<seq<Matrix>>)
    requires BlockGrid(n1, n2, n3, b)
    requires forall k, l, i, j ::
               0 <= k < 3 && 0 <= l < 3 && 0 <= i < [n1, n2, n3][k] && 0 <= j < [n1, n2, n3][l] ==>
                 && IsMatrix(b[k][l], [n1, n2, n3][k], [n1, n2, n3][l])
                 && IsMatrix(b[l][k], [n1, n2, n3][l], [n1, n2, n3][k])
                 && b[k][l][i][j] == b[l][k][j][i]
    ensures IsSymmetric(Block3(n1, n2, n3, b))
  {
    var m := Block3(n1, n2, n3, b);
    var N := n1 + n2 + n3;
    forall i, j | 0 <= i < N && 0 <= j < N
      ensures m[i][j] == m[j][i]
    {
      Block3Entry(n1, n2, n3, b, i, j);
      Block3Entry(n1, n2, n3, b, j, i);
    }
  }

  /** Which block (0, 1 or 2) row or column i falls in, and its offset there. */
  function BlockIndex(n1: nat, n2: nat, n3: nat, i: nat): (r: (nat, nat))
    requires i < n1 + n2 + n3
    ensures r.0 < 3 && r.1 < [n1, n2, n3][r.0]
    ensures r.0 == 0 ==> i < n1 && r.1 == i
    ensures r.0 == 1 ==> n1 <= i < n1 + n2 && r.1 == i - n1
    ensures r.0 == 2 ==> n1 + n2 <= i && r.1 == i - n1 - n2
  {
    if i < n1 then (0, i) else if i < n1 + n2 then (1, i - n1) else (2, i - n1 - n2)
  }

  // ---------------------------------------------------------------------
  // Algebraic facts about the products above.

  lemma {:induction false} DotComm(a: Vector, b: Vector)
    ensures Dot(a, b) == Dot(b, a)
    decreases |a|
  {
    if |a| != 0 && |b| != 0 {
      DotComm(a[1..], b[1..]);
    }
  }

  lemma {:induction false} DotZerosRight(a: Vector, n: nat)
    ensures Dot(a, Zeros(n)) == 0.0
    decreases |a|
  {
    if |a| != 0 && n != 0 {
      assert Zeros(n)[1..] == Zeros(n - 1);
      DotZerosRight(a[1..], n - 1);
    }
  }

  lemma {:induction false} DotAddRight(y: Vector, u: Vector, v: Vector)
    requires |u| == |v|
    ensures Dot(y, Add(u, v)) == Dot(y, u) + Dot(y, v)
    decreases |y|
  {
    if |y| != 0 && |u| != 0 {
      assert Add(u, v)[1..] == Add(u[1..], v[1..]);
      DotAddRight(y[1..], u[1..], v[1..]);
    }
  }

  lemma {:induction false} DotSubRight(y: Vector, u: Vector, v: Vector)
    requires |u| == |v|
    ensures Dot(y, Sub(u, v)) == Dot(y, u) - Dot(y, v)
    decreases |y|
  {
    if |y| != 0 && |u| != 0 {
      assert Sub(u, v)[1..] == Sub(u[1..], v[1..]);
      DotSubRight(y[1..], u[1..], v[1..]);
    }
  }

  lemma {:induction false} DotScaleRight(y: Vector, c: real, a: Vector)
    ensures Dot(y, Scale(c, a)) == c * Dot(y, a)
    decreases |y|
  {
    if |y| != 0 && |a| != 0 {
      forall i | 0 <= i < |a| - 1
        ensures Scale(c, a)[1..][i] == Scale(c, a[1..])[i]
      {
      }
      assert Scale(c, a)[1..] == Scale(c, a[1..]);
      DotScaleRight(y[1..], c, a[1..]);
    }
  }

  lemma DotNegRight(y: Vector, a: Vector)
    ensures Dot(y, Neg(a)) == -Dot(y, a)
  {
    assert Neg(a) == Scale(-1.0, a);
    DotScaleRight(y, -1.0, a);
  }

  /** Changing entry j of x changes a·x by a[j] times the change. */
  lemma {:induction false} DotUpdate(a: Vector, x: Vector, j: nat, v: real)
    requires |a| == |x| && j < |x|
    ensures Dot(a, x[j := v]) == Dot(a, x) + a[j] * (v - x[j])
    decreases |x|
  {
    if j == 0 {
      assert x[j := v][1..] == x[1..];
    } else {
      assert x[j := v][1..] == x[1..][j - 1 := v];
      DotUpdate(a[1..], x[1..], j - 1, v);
    }
  }

  /** Aᵀx splits into the first row's share and that of the other rows. */
  lemma TransposeFirstRow(m: Matrix, x: Vector, cols: nat)
    requires IsMatrix(m, |x|, cols) && |x| > 0
    ensures MatVec(Transpose(m, cols), x)
      == Add(Scale(x[0], m[0]), MatVec(Transpose(m[1..], cols), x[1..]))
  {
    var t := Transpose(m, cols);
    var t' := Transpose(m[1..], cols);
    forall j | 0 <= j < cols
      ensures MatVec(t, x)[j] == Add(Scale(x[0], m[0]), MatVec(t', x[1..]))[j]
    {
      assert t[j][1..] == t'[j];
    }
  }

  /** x·(A y) == y·(Aᵀ x). */
  lemma {:induction false} BilinearTranspose(m: Matrix, x: Vector, y: Vector)
    requires IsMatrix(m, |x|, |y|)
    ensures Dot(x, MatVec(m, y)) == Dot(y, MatVec(Transpose(m, |y|), x))
    decreases |x|
  {
    var t := Transpose(m, |y|);
    if |x| == 0 {
      assert MatVec(t, x) == Zeros(|y|);
      DotZerosRight(y, |y|);
    } else {
      var m' := m[1..];
      var x' := x[1..];
      var t' := Transpose(m', |y|);
      assert MatVec(m, y)[1..] == MatVec(m', y);
      assert Dot(x, MatVec(m, y)) == x[0] * Dot(m[0], y) + Dot(x', MatVec(m', y));
      calc {
        Dot(y, MatVec(t, x));
        { TransposeFirstRow(m, x, |y|); }
        Dot(y, Add(Scale(x[0], m[0]), MatVec(t', x')));
        { DotAddRight(y, Scale(x[0], m[0]), MatVec(t', x')); }
        Dot(y, Scale(x[0], m[0])) + Dot(y, MatVec(t', x'));
        { DotScaleRight(y, x[0], m[0]); DotComm(y, m[0]); }
        x[0] * Dot(m[0], y) + Dot(y, MatVec(t', x'));
        { BilinearTranspose(m', x', y); }
        Dot(x, MatVec(m, y));
      }
    }
  }

  /** The quadratic form of a skew-symmetric matrix vanishes: zᵀJz = 0. */
  lemma SkewQuadraticFormZero(j: Matrix, z: Vector)
    requires IsMatrix(j, |z|, |z|) && IsSkew(j)
    ensures Dot(z, MatVec(j, z)) == 0.0
  {
    var t := Transpose(j, |z|);
    BilinearTranspose(j, z, z);
    forall i | 0 <= i < |z|
      ensures MatVec(t, z)[i] == Neg(MatVec(j, z))[i]
    {
      SkewColumn(j, i);
      DotNegRight(z, j[i]);
      DotComm(z, Neg(j[i]));
      DotComm(z, j[i]);
    }
    assert MatVec(t, z) == Neg(MatVec(j, z));
    DotNegRight(z, MatVec(j, z));
  }

  lemma SkewColumn(j: Matrix, i: nat)
    requires IsSkew(j) && i < |j|
    ensures Transpose(j, |j|)[i] == Neg(j[i])
  {
    var t := Transpose(j, |j|);
    forall k | 0 <= k < |j|
      ensures t[i][k] == Neg(j[i])[k]
    {
      assert t[i][k] == j[k][i];
    }
  }

  /** u·(A v) == v·(A u) for a symmetric A. */
  lemma SymmetricBilinear(a: Matrix, u: Vector, v: Vector)
    requires |u| == |v| && IsMatrix(a, |u|, |u|) && IsSymmetric(a)
    ensures Dot(u, MatVec(a, v)) == Dot(v, MatVec(a, u))
  {
    BilinearTranspose(a, u, v);
    forall i | 0 <= i < |u|
      ensures Transpose(a, |v|)[i] == a[i]
    {
    }
    assert Transpose(a, |v|) == a;
  }

  /** The matrix-vector product with the identity is the vector itself. */
  lemma {:induction false} DotUnitRow(x: Vector, i: nat, n: nat)
    requires |x| == n && i < n
    ensures Dot(seq(n, j requires 0 <= j < n => if i == j then 1.0 else 0.0), x) == x[i]
    decreases n
  {
    var e := seq(n, j requires 0 <= j < n => if i == j then 1.0 else 0.0);
    if i == 0 {
      assert e[1..] == Zeros(n - 1);
      DotComm(e[1..], x[1..]);
      DotZerosRight(x[1..], n - 1);
    } else {
      assert e[1..] == seq(n - 1, j requires 0 <= j < n - 1 => if i - 1 == j then 1.0 else 0.0);
      DotUnitRow(x[1..], i - 1, n - 1);
    }
  }

  lemma IdentityMatVec(x: Vector)
    ensures MatVec(Identity(|x|), x) == x
  {
    var n := |x|;
    forall i | 0 <= i < n
      ensures MatVec(Identity(n), x)[i] == x[i]
    {
      assert Identity(n)[i] == seq(n, j requires 0 <= j < n => if i == j then 1.0 else 0.0);
      DotUnitRow(x, i, n);
    }
  }

  /** Entrywise product d ⊙ x. */
  function Times(d: Vector, x: Vector): (r: Vector)
    requires |d| == |x|
    ensures |r| == |d|
  {
    seq(|d|, i requires 0 <= i < |d| => d[i] * x[i])
  }

  /** A diagonal matrix acts entrywise. */
  lemma DiagMatVec(d: Vector, x: Vector)
    requires |d| == |x|
    ensures MatVec(Diag(d), x) == Times(d, x)
  {
    var n := |d|;
    forall i | 0 <= i < n
      ensures MatVec(Diag(d), x)[i] == Times(d, x)[i]
    {
      var row := Diag(d)[i];
      assert row == Zeros(n)[i := d[i]];
      calc {
        MatVec(Diag(d), x)[i];
        Dot(row, x);
        { DotComm(row, x); }
        Dot(x, Zeros(n)[i := d[i]]);
        { DotUpdate(x, Zeros(n), i, d[i]); DotZerosRight(x, n); }
        0.0 + x[i] * (d[i] - Zeros(n)[i]);
        d[i] * x[i];
      }
    }
  }

  /** x·(d ⊙ x) = Σ d_i·x_i² is non-negative for a non-negative d, and zero
      only at x = 0 when d is positive. */
  lemma {:induction false} WeightedSquares(d: Vector, x: Vector)
    requires |d| == |x| && forall i :: 0 <= i < |d| ==> d[i] >= 0.0
    ensures Dot(x, Times(d, x)) >= 0.0
    ensures (forall i :: 0 <= i < |d| ==> d[i] > 0.0) ==> (Dot(x, Times(d, x)) == 0.0 <==> IsZero(x))
    decreases |x|
  {
    if |x| != 0 {
      forall k | 0 <= k < |x| - 1
        ensures Times(d, x)[1..][k] == Times(d[1..], x[1..])[k]
      {
      }
      assert Times(d, x)[1..] == Times(d[1..], x[1..]);
      WeightedSquares(d[1..], x[1..]);
      var head := x[0] * (d[0] * x[0]);
      assert head == d[0] * (x[0] * x[0]);
      assert head >= 0.0 by {
        assert x[0] * x[0] >= 0.0;
      }
      if forall i :: 0 <= i < |d| ==> d[i] > 0.0 {
        if x[0] != 0.0 {
          assert d[0] > 0.0;
          PositiveWeightedSquare(d[0], x[0]);
        }
      }
    }
  }

  lemma PositiveWeightedSquare(a: real, b: real)
    requires a > 0.0 && b != 0.0
    ensures a * (b * b) > 0.0
  {
    assert b * b > 0.0;
  }

  /** The inner product of two concatenations splits blockwise. */
  lemma {:induction false} DotConcat(a1: Vector, a2: Vector, b1: Vector, b2: Vector)
    requires |a1| == |b1|
    ensures Dot(a1 + a2, b1 + b2) == Dot(a1, b1) + Dot(a2, b2)
    decreases |a1|
  {
    if |a1| != 0 {
      assert (a1 + a2)[1..] == a1[1..] + a2;
      assert (b1 + b2)[1..] == b1[1..] + b2;
      DotConcat(a1[1..], a2, b1[1..], b2);
    } else {
      assert a1 + a2 == a2 && b1 + b2 == b2;
    }
  }

  lemma DotAddLeft(u: Vector, v: Vector, y: Vector)
    requires |u| == |v|
    ensures Dot(Add(u, v), y) == Dot(u, y) + Dot(v, y)
  {
    DotComm(Add(u, v), y);
    DotAddRight(y, u, v);
    DotComm(u, y);
    DotComm(v, y);
  }

  /** A·(u + v) == A·u + A·v. */
  lemma MatVecAdd(a: Matrix, u: Vector, v: Vector)
    requires |u| == |v|
    ensures MatVec(a, Add(u, v)) == Add(MatVec(a, u), MatVec(a, v))
  {
    forall i | 0 <= i < |a|
      ensures MatVec(a, Add(u, v))[i] == Add(MatVec(a, u), MatVec(a, v))[i]
    {
      DotAddRight(a[i], u, v);
    }
  }

  /** For a symmetric A the quadratic form ½·xᵀAx grows from v to v + w by
      wᵀ(Av) + ½·wᵀAw: its gradient at v is Av. */
  lemma QuadraticIncrement(a: Matrix, v: Vector, w: Vector)
    requires |v| == |w| && IsMatrix(a, |v|, |v|) && IsSymmetric(a)
    ensures 0.5 * Dot(Add(v, w), MatVec(a, Add(v, w)))
            == 0.5 * Dot(v, MatVec(a, v)) + Dot(w, MatVec(a, v)) + 0.5 * Dot(w, MatVec(a, w))
  {
    var av := MatVec(a, v);
    var aw := MatVec(a, w);
    MatVecAdd(a, v, w);
    DotAddLeft(v, w, Add(av, aw));
    DotAddRight(v, av, aw);
    DotAddRight(w, av, aw);
    SymmetricBilinear(a, v, w);
  }

  /** (A·B)·x == A·(B·x). */
  lemma MatMulVec(a: Matrix, b: Matrix, cols: nat, x: Vector)
    requires IsMatrix(b, |b|, cols) && |x| == cols
    requires forall i :: 0 <= i < |a| ==> |a[i]| == |b|
    ensures MatVec(MatMul(a, b, cols), x) == MatVec(a, MatVec(b, x))
  {
    var t := Transpose(b, cols);
    forall i | 0 <= i < |a|
      ensures MatVec(MatMul(a, b, cols), x)[i] == MatVec(a, MatVec(b, x))[i]
    {
      var row := MatMul(a, b, cols)[i];
      forall j | 0 <= j < cols
        ensures row[j] == MatVec(t, a[i])[j]
      {
        assert t[j] == Col(b, j);
        DotComm(a[i], Col(b, j));
      }
      assert row == MatVec(t, a[i]);
      BilinearTranspose(b, a[i], x);
      DotComm(x, row);
    }
  }

  /** (c·A)·x == c·(A·x). */
  lemma ScaleMatVec(c: real, m: Matrix, x: Vector)
    ensures MatVec(ScaleMatrix(c, m), x) == Scale(c, MatVec(m, x))
  {
    forall i | 0 <= i < |m|
      ensures MatVec(ScaleMatrix(c, m), x)[i] == Scale(c, MatVec(m, x))[i]
    {
      DotComm(Scale(c, m[i]), x);
      DotScaleRight(x, c, m[i]);
      DotComm(x, m[i]);
    }
  }

  /** A·0 == 0. */
  lemma MatVecZeros(m: Matrix, n: nat)
    ensures IsZero(MatVec(m, Zeros(n)))
  {
    forall i | 0 <= i < |m|
      ensures MatVec(m, Zeros(n))[i] == 0.0
    {
      DotZerosRight(m[i], n);
    }
  }
}
