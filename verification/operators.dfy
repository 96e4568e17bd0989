/** Quaternion operators of the rigid-body models: the split of a
    quaternion into scalar and vector part, the hat (cross-product) map of
    its vector part, the 3×4 transformation matrices G(q), and the
    combination 4·Gᵀ·I·G that turns a 3×3 inertia into a 4×4 mass. */
module Operators {
  import opened LinAlg
  import opened Outcomes

  /** decompose_quaternion: the scalar q0 and the vector q[1:]. */
  function DecomposeQuaternion(quaternion: Vector): (parts: (real, Vector))
    requires |quaternion| >= 1
    ensures [parts.0] + parts.1 == quaternion
  {
    (quaternion[0], quaternion[1..])
  }

  /** The cross product a × b of two 3-vectors. */
  function Cross(a: Vector, b: Vector): (c: Vector)
    requires |a| == 3 && |b| == 3
    ensures |c| == 3
  {
    [a[1] * b[2] - a[2] * b[1], a[2] * b[0] - a[0] * b[2], a[0] * b[1] - a[1] * b[0]]
  }

  /** The 3×3 matrix of hat_map for a quaternion of length four. */
  function Hat(quat: Vector): (h: Matrix)
    requires |quat| == 4
    ensures IsMatrix(h, 3, 3)
  {
    [[0.0, -quat[3], quat[2]],
     [quat[3], 0.0, -quat[1]],
     [-quat[2], quat[1], 0.0]]
  }

  /** hat_map: asserts the length four, then builds the skew matrix of the
      vector part (q1, q2, q3). */
  function HatMap(quat: Vector): (r: Result<Matrix>)
    ensures r.Ok? <==> |quat| == 4
    ensures r.Ok? ==> IsMatrix(r.value, 3, 3) && IsSkew(r.value)
    ensures r.Err? ==> r.error.AssertionError?
  {
    if |quat| == 4 then Ok(Hat(quat))
    else Err(AssertionError("Expect vector to be of length four"))
  }

  /** The hat matrix applied to w is the cross product of the vector part
      with w. */
  lemma HatIsCross(quat: Vector, w: Vector)
    requires |quat| == 4 && |w| == 3
    ensures MatVec(Hat(quat), w) == Cross(quat[1..], w)
  {
    var h := Hat(quat);
    var v := quat[1..];
    assert v[0] == quat[1] && v[1] == quat[2] && v[2] == quat[3];
    assert Dot(h[0], w) == -quat[3] * w[1] + quat[2] * w[2] by { DotThree(h[0], w); }
    assert Dot(h[1], w) == quat[3] * w[0] - quat[1] * w[2] by { DotThree(h[1], w); }
    assert Dot(h[2], w) == -quat[2] * w[0] + quat[1] * w[1] by { DotThree(h[2], w); }
    assert MatVec(h, w) == [Dot(h[0], w), Dot(h[1], w), Dot(h[2], w)];
    var c := Cross(v, w);
    assert c[0] == quat[2] * w[2] - quat[3] * w[1];
    assert c[1] == quat[3] * w[0] - quat[1] * w[2];
    assert c[2] == quat[1] * w[1] - quat[2] * w[0];
  }

  /** The inner product of two 3-vectors written out. */
  lemma DotThree(a: Vector, b: Vector)
    requires |a| == 3 && |b| == 3
    ensures Dot(a, b) == a[0] * b[0] + a[1] * b[1] + a[2] * b[2]
  {
    var a1, b1 := a[1..], b[1..];
    var a2, b2 := a1[1..], b1[1..];
    assert Dot(a2[1..], b2[1..]) == 0.0;
    assert Dot(a2, b2) == a[2] * b[2];
    assert Dot(a1, b1) == a[1] * b[1] + a[2] * b[2];
  }

  /** The inner product of two 4-vectors written out. */
  lemma DotFour(a: Vector, b: Vector)
    requires |a| == 4 && |b| == 4
    ensures Dot(a, b) == a[0] * b[0] + a[1] * b[1] + a[2] * b[2] + a[3] * b[3]
  {
    DotThree(a[1..], b[1..]);
  }

  /** get_transformation_matrix: the 3×4 matrix [ −q[1:] | q0·I + sign·hat(q) ];
      an empty q fails at q[0] with an IndexError before hat_map is reached,
      any other length but four fails hat_map's assertion. */
  function TransformationMatrix(quat: Vector, sign: real): (r: Result<Matrix>)
    ensures r.Ok? <==> |quat| == 4
    ensures |quat| == 0 ==> r == Err(IndexError)
    ensures |quat| != 0 && r.Err? ==> r.error.AssertionError?
    ensures r.Ok? ==>
      && IsMatrix(r.value, 3, 4)
      && Col(r.value, 0) == Neg(quat[1..])
      && (forall i, j :: 0 <= i < 3 && 0 <= j < 3 ==>
            r.value[i][j + 1] == (if i == j then quat[0] else 0.0) + sign * Hat(quat)[i][j])
  {
    if |quat| == 0 then Err(IndexError)
    else match HatMap(quat)
    case Err(e) => Err(e)
    case Ok(hat) =>
      Ok(seq(3, i requires 0 <= i < 3 =>
        [-quat[i + 1]] + seq(3, j requires 0 <= j < 3 => (if i == j then quat[0] else 0.0) + sign * hat[i][j])))
  }

  /** get_spatial_transformation_matrix: sign +1. */
  function SpatialTransformationMatrix(quat: Vector): Result<Matrix>
  {
    TransformationMatrix(quat, 1.0)
  }

  /** get_convective_transformation_matrix: sign −1. */
  function ConvectiveTransformationMatrix(quat: Vector): Result<Matrix>
  {
    TransformationMatrix(quat, -1.0)
  }

  /** G(q)·q = 0 for either sign: the quaternion spans the kernel. */
  lemma TransformationAnnihilatesQuaternion(quat: Vector, sign: real)
    requires |quat| == 4
    ensures TransformationMatrix(quat, sign).Ok?
    ensures IsZero(MatVec(TransformationMatrix(quat, sign).value, quat))
  {
    var g := TransformationMatrix(quat, sign).value;
    forall i | 0 <= i < 3
      ensures Dot(g[i], quat) == 0.0
    {
      DotFour(g[i], quat);
    }
  }

  /** The spatial and the convective matrix share the first column and the
      diagonal q0·I, and their hat blocks are opposite. */
  lemma SpatialConvectiveDiffer(quat: Vector)
    requires |quat| == 4
    ensures SpatialTransformationMatrix(quat).Ok? && ConvectiveTransformationMatrix(quat).Ok?
    ensures var s := SpatialTransformationMatrix(quat).value;
      var c := ConvectiveTransformationMatrix(quat).value;
      && Col(s, 0) == Col(c, 0)
      && forall i, j :: 0 <= i < 3 && 1 <= j < 4 ==>
           s[i][j] - c[i][j] == 2.0 * Hat(quat)[i][j - 1]
  {
    var s := SpatialTransformationMatrix(quat).value;
    var c := ConvectiveTransformationMatrix(quat).value;
    forall i, j | 0 <= i < 3 && 1 <= j < 4
      ensures s[i][j] - c[i][j] == 2.0 * Hat(quat)[i][j - 1]
    {
      assert s[i][(j - 1) + 1] == (if i == j - 1 then quat[0] else 0.0) + Hat(quat)[i][j - 1];
      assert c[i][(j - 1) + 1] == (if i == j - 1 then quat[0] else 0.0) - Hat(quat)[i][j - 1];
    }
  }

  /** combine_G_inertias: 4·Gᵀ·I·G for a 3×4 matrix G and a 3×3 inertia. */
  function CombineGInertias(g: Matrix, inertias: Matrix): (m: Matrix)
    requires IsMatrix(g, 3, 4) && IsMatrix(inertias, 3, 3)
    ensures IsMatrix(m, 4, 4)
  {
    ScaleMatrix(4.0, MatMul(Transpose(g, 4), MatMul(inertias, g, 4), 4))
  }

  /** Entry (i, j) of 4·Gᵀ·I·G is 4 times the bilinear form of I on
      columns i and j of G. */
  lemma CombineEntry(g: Matrix, inertias: Matrix, i: nat, j: nat)
    requires IsMatrix(g, 3, 4) && IsMatrix(inertias, 3, 3) && i < 4 && j < 4
    ensures CombineGInertias(g, inertias)[i][j] == 4.0 * Dot(Col(g, i), MatVec(inertias, Col(g, j)))
  {
    var t := Transpose(g, 4);
    var ig := MatMul(inertias, g, 4);
    assert t[i] == Col(g, i);
    assert Col(ig, j) == MatVec(inertias, Col(g, j));
  }

  /** With a symmetric inertia, 4·Gᵀ·I·G is symmetric. */
  lemma CombineSymmetric(g: Matrix, inertias: Matrix)
    requires IsMatrix(g, 3, 4) && IsMatrix(inertias, 3, 3) && IsSymmetric(inertias)
    ensures IsSymmetric(CombineGInertias(g, inertias))
  {
    var m := CombineGInertias(g, inertias);
    forall i, j | 0 <= i < 4 && 0 <= j < 4
      ensures m[i][j] == m[j][i]
    {
      CombineEntry(g, inertias, i, j);
      CombineEntry(g, inertias, j, i);
      SymmetricBilinear(inertias, Col(g, i), Col(g, j));
    }
  }
}
