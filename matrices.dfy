/**
 * Dense real matrices with explicit dimensions, as numpy arrays of
 * floats are used in the pose-estimation node. Shapes are checked by
 * `IsMatrix`, so a (2x3)·(3x3) product is a 2x3 matrix, and inversion is
 * a partial function that fails on non-square and singular inputs, as
 * `numpy.linalg.inv` raises `LinAlgError` for both.
 */
module Matrices {
  import opened Wrappers

  type Vector = seq<real>
  type Matrix = seq<seq<real>>

  predicate IsMatrix(m: Matrix, rows: nat, cols: nat) {
    |m| == rows && forall i :: 0 <= i < rows ==> |m[i]| == cols
  }

  /** Entry-wise equality of two 3×3 matrices, with the index cases spelled out. */
  lemma Matrix3Eq(a: Matrix, b: Matrix)
    requires IsMatrix(a, 3, 3) && IsMatrix(b, 3, 3)
    requires a[0][0] == b[0][0] && a[0][1] == b[0][1] && a[0][2] == b[0][2] && a[1][0] == b[1][0] && a[1][1] == b[1][1] && a[1][2] == b[1][2] && a[2][0] == b[2][0] && a[2][1] == b[2][1] && a[2][2] == b[2][2]
    ensures a == b
  {
    forall i, j | 0 <= i < 3 && 0 <= j < 3 ensures a[i][j] == b[i][j] {
      if i == 0 {
        if j == 0 {} else if j == 1 {} else {}
      } else if i == 1 {
        if j == 0 {} else if j == 1 {} else {}
      } else {
        if j == 0 {} else if j == 1 {} else {}
      }
    }
    MatrixEq(a, b, 3, 3);
  }

  function Dot(u: Vector, v: Vector): real
    requires |u| == |v|
    decreases |u|
  {
    if |u| == 0 then 0.0 else u[0] * v[0] + Dot(u[1..], v[1..])
  }

  lemma Dot3(u: Vector, v: Vector)
    requires |u| == 3 && |v| == 3
    ensures Dot(u, v) == u[0] * v[0] + u[1] * v[1] + u[2] * v[2]
  {
    var u1, v1 := u[1..], v[1..];
    var u2, v2 := u1[1..], v1[1..];
    assert Dot(u2[1..], v2[1..]) == 0.0;
    assert Dot(u2, v2) == u[2] * v[2];
    assert Dot(u1, v1) == u[1] * v[1] + u[2] * v[2];
  }

  /** Two r×c matrices with the same entries are equal. */
  lemma MatrixEq(a: Matrix, b: Matrix, rows: nat, cols: nat)
    requires IsMatrix(a, rows, cols) && IsMatrix(b, rows, cols)
    requires forall i, j :: 0 <= i < rows && 0 <= j < cols ==> a[i][j] == b[i][j]
    ensures a == b
  {
    forall i | 0 <= i < rows ensures a[i] == b[i] {
      assert forall j :: 0 <= j < cols ==> a[i][j] == b[i][j];
    }
  }

  function Column(m: Matrix, j: nat): (c: Vector)
    requires forall i :: 0 <= i < |m| ==> j < |m[i]|
    ensures |c| == |m| && forall i :: 0 <= i < |m| ==> c[i] == m[i][j]
  {
    seq(|m|, i requires 0 <= i < |m| => m[i][j])
  }

  /** Matrix product `a @ b` of an n×k and a k×p matrix. */
  function Mul(a: Matrix, b: Matrix): (c: Matrix)
    requires |b| > 0 && IsMatrix(a, |a|, |b|) && IsMatrix(b, |b|, |b[0]|)
    ensures IsMatrix(c, |a|, |b[0]|)
    ensures forall i, j :: 0 <= i < |a| && 0 <= j < |b[0]| ==> c[i][j] == Dot(a[i], Column(b, j))
  {
    seq(|a|, i requires 0 <= i < |a| => seq(|b[0]|, j requires 0 <= j < |b[0]| => Dot(a[i], Column(b, j))))
  }

  /** Matrix-vector product `m @ v` (numpy's result for a 1-D right operand). */
  function MatVec(m: Matrix, v: Vector): (w: Vector)
    requires IsMatrix(m, |m|, |v|)
    ensures |w| == |m| && forall i :: 0 <= i < |m| ==> w[i] == Dot(m[i], v)
  {
    seq(|m|, i requires 0 <= i < |m| => Dot(m[i], v))
  }

  /** `m.T` for an r×c matrix. */
  function Transpose(m: Matrix, cols: nat): (t: Matrix)
    requires IsMatrix(m, |m|, cols)
    ensures IsMatrix(t, cols, |m|)
    ensures forall i, j :: 0 <= i < cols && 0 <= j < |m| ==> t[i][j] == m[j][i]
  {
    seq(cols, i requires 0 <= i < cols => seq(|m|, j requires 0 <= j < |m| => m[j][i]))
  }

  function Identity(n: nat): (e: Matrix)
    ensures IsMatrix(e, n, n)
    ensures forall i, j :: 0 <= i < n && 0 <= j < n ==> e[i][j] == if i == j then 1.0 else 0.0
  {
    seq(n, i => seq(n, j => if i == j then 1.0 else 0.0))
  }

  function Scale(s: real, m: Matrix): (r: Matrix)
    ensures |r| == |m| && forall i :: 0 <= i < |m| ==> |r[i]| == |m[i]|
    ensures forall i, j :: 0 <= i < |m| && 0 <= j < |m[i]| ==> r[i][j] == s * m[i][j]
  {
    seq(|m|, i requires 0 <= i < |m| => seq(|m[i]|, j requires 0 <= j < |m[i]| => s * m[i][j]))
  }

  /** `np.vstack([m, row])`: appends one row. */
  function Vstack(m: Matrix, row: Vector): (r: Matrix)
    requires IsMatrix(m, |m|, |row|)
    ensures IsMatrix(r, |m| + 1, |row|) && r[..|m|] == m && r[|m|] == row
  {
    m + [row]
  }

  /** `m` with entry (i, j) overwritten by `x`, as `M[i, j] = x` leaves it. */
  function WithEntry(m: Matrix, i: nat, j: nat, x: real): (r: Matrix)
    requires i < |m| && j < |m[i]|
    ensures |r| == |m| && forall k :: 0 <= k < |m| ==> |r[k]| == |m[k]|
    ensures r[i][j] == x
    ensures forall k, l :: 0 <= k < |m| && 0 <= l < |m[k]| && (k, l) != (i, j) ==> r[k][l] == m[k][l]
  {
    m[i := m[i][j := x]]
  }

  /** The determinant of the 3×3 matrix with rows (a, b, c), (d, e, f), (g, h, i). */
  function DetOf(a: real, b: real, c: real, d: real, e: real, f: real, g: real, h: real, i: real): real {
    a * (e * i - f * h) - b * (d * i - f * g) + c * (d * h - e * g)
  }

  /** The classical adjoint (transposed cofactor matrix) of the same matrix. */
  function AdjugateOf(a: real, b: real, c: real, d: real, e: real, f: real, g: real, h: real, i: real): (r: Matrix)
    ensures IsMatrix(r, 3, 3)
  {
    M3(e*i - f*h, c*h - b*i, b*f - c*e, f*g - d*i, a*i - c*g, c*d - a*f, d*h - e*g, b*g - a*h, a*e - b*d)
  }

  function Det3(m: Matrix): real
    requires IsMatrix(m, 3, 3)
  {
    DetOf(m[0][0], m[0][1], m[0][2], m[1][0], m[1][1], m[1][2], m[2][0], m[2][1], m[2][2])
  }

  function Adjugate3(m: Matrix): (a: Matrix)
    requires IsMatrix(m, 3, 3)
    ensures IsMatrix(a, 3, 3)
  {
    AdjugateOf(m[0][0], m[0][1], m[0][2], m[1][0], m[1][1], m[1][2], m[2][0], m[2][1], m[2][2])
  }

  /**
   * `numpy.linalg.inv` on a matrix with three columns: `None` (the
   * `LinAlgError` case) when it is not square or is singular.
   */
  function Inverse(m: Matrix): (r: Option<Matrix>)
    requires IsMatrix(m, |m|, 3)
    ensures r.Some? <==> |m| == 3 && Det3(m) != 0.0
    ensures r.Some? ==> IsMatrix(r.value, 3, 3)
  {
    if |m| != 3 || Det3(m) == 0.0 then None
    else Some(Scale(1.0 / Det3(m), Adjugate3(m)))
  }

  lemma Mul3Entry(a: Matrix, b: Matrix, i: nat, j: nat)
    requires |b| == 3 && IsMatrix(a, |a|, 3) && IsMatrix(b, 3, |b[0]|)
    requires i < |a| && j < |b[0]|
    ensures Mul(a, b)[i][j] == a[i][0] * b[0][j] + a[i][1] * b[1][j] + a[i][2] * b[2][j]
  {
    Dot3(a[i], Column(b, j));
  }

  /** The 3×3 matrix with the given entries, row by row. */
  function M3(a: real, b: real, c: real, d: real, e: real, f: real, g: real, h: real, i: real): (m: Matrix)
    ensures IsMatrix(m, 3, 3)
    ensures m[0][0] == a && m[0][1] == b && m[0][2] == c
    ensures m[1][0] == d && m[1][1] == e && m[1][2] == f
    ensures m[2][0] == g && m[2][1] == h && m[2][2] == i
  {
    [[a, b, c], [d, e, f], [g, h, i]]
  }

  /** The product of two 3×3 matrices given by their entries. */
  lemma MulM3(a0: real, b0: real, c0: real, d0: real, e0: real, f0: real, g0: real, h0: real, i0: real,
              a1: real, b1: real, c1: real, d1: real, e1: real, f1: real, g1: real, h1: real, i1: real)
    ensures Mul(M3(a0, b0, c0, d0, e0, f0, g0, h0, i0), M3(a1, b1, c1, d1, e1, f1, g1, h1, i1))
         == M3(a0 * a1 + b0 * d1 + c0 * g1, a0 * b1 + b0 * e1 + c0 * h1, a0 * c1 + b0 * f1 + c0 * i1,
               d0 * a1 + e0 * d1 + f0 * g1, d0 * b1 + e0 * e1 + f0 * h1, d0 * c1 + e0 * f1 + f0 * i1,
               g0 * a1 + h0 * d1 + i0 * g1, g0 * b1 + h0 * e1 + i0 * h1, g0 * c1 + h0 * f1 + i0 * i1)
  {
    var x := M3(a0, b0, c0, d0, e0, f0, g0, h0, i0);
    var y := M3(a1, b1, c1, d1, e1, f1, g1, h1, i1);
    var col0, col1, col2 := Column(y, 0), Column(y, 1), Column(y, 2);
    assert col0 == [a1, d1, g1] && col1 == [b1, e1, h1] && col2 == [c1, f1, i1];
    DotLiteral(a0, b0, c0, a1, d1, g1); DotLiteral(a0, b0, c0, b1, e1, h1); DotLiteral(a0, b0, c0, c1, f1, i1);
    DotLiteral(d0, e0, f0, a1, d1, g1); DotLiteral(d0, e0, f0, b1, e1, h1); DotLiteral(d0, e0, f0, c1, f1, i1);
    DotLiteral(g0, h0, i0, a1, d1, g1); DotLiteral(g0, h0, i0, b1, e1, h1); DotLiteral(g0, h0, i0, c1, f1, i1);
    Matrix3Eq(Mul(x, y), M3(a0 * a1 + b0 * d1 + c0 * g1, a0 * b1 + b0 * e1 + c0 * h1, a0 * c1 + b0 * f1 + c0 * i1,
               d0 * a1 + e0 * d1 + f0 * g1, d0 * b1 + e0 * e1 + f0 * h1, d0 * c1 + e0 * f1 + f0 * i1,
               g0 * a1 + h0 * d1 + i0 * g1, g0 * b1 + h0 * e1 + i0 * h1, g0 * c1 + h0 * f1 + i0 * i1));
  }

  /** The dot product of two literal 3-vectors. */
  lemma DotLiteral(p: real, q: real, r: real, s: real, t: real, u: real)
    ensures Dot([p, q, r], [s, t, u]) == p * s + q * t + r * u
  {
    Dot3([p, q, r], [s, t, u]);
  }

  /** `adj(m) @ m == det(m) * I`, on the nine entries of `m`. */
  lemma AdjugateLeftM3(a: real, b: real, c: real, d: real, e: real, f: real, g: real, h: real, i: real)
    ensures Mul(AdjugateOf(a, b, c, d, e, f, g, h, i), M3(a, b, c, d, e, f, g, h, i))
         == Scale(DetOf(a, b, c, d, e, f, g, h, i), Identity(3))
  {
    var x0, x1, x2 := e*i - f*h, c*h - b*i, b*f - c*e;
    var x3, x4, x5 := f*g - d*i, a*i - c*g, c*d - a*f;
    var x6, x7, x8 := d*h - e*g, b*g - a*h, a*e - b*d;
    var det := DetOf(a, b, c, d, e, f, g, h, i);
    MulM3(x0, x1, x2, x3, x4, x5, x6, x7, x8, a, b, c, d, e, f, g, h, i);
    CofactorSums(a, b, c, d, e, f, g, h, i, x0, x1, x2, x3, x4, x5, x6, x7, x8, det);
    ScaleIdentity3(det);
  }

  /** The cofactor expansions of a 3×3 determinant, with the cofactors named. */
  lemma CofactorSums(a: real, b: real, c: real, d: real, e: real, f: real, g: real, h: real, i: real,
                     x0: real, x1: real, x2: real, x3: real, x4: real, x5: real, x6: real, x7: real, x8: real, det: real)
    requires x0 == e*i - f*h && x1 == c*h - b*i && x2 == b*f - c*e
    requires x3 == f*g - d*i && x4 == a*i - c*g && x5 == c*d - a*f
    requires x6 == d*h - e*g && x7 == b*g - a*h && x8 == a*e - b*d
    requires det == a * (e * i - f * h) - b * (d * i - f * g) + c * (d * h - e * g)
    ensures x0 * a + x1 * d + x2 * g == det && x0 * b + x1 * e + x2 * h == 0.0 && x0 * c + x1 * f + x2 * i == 0.0
    ensures x3 * a + x4 * d + x5 * g == 0.0 && x3 * b + x4 * e + x5 * h == det && x3 * c + x4 * f + x5 * i == 0.0
    ensures x6 * a + x7 * d + x8 * g == 0.0 && x6 * b + x7 * e + x8 * h == 0.0 && x6 * c + x7 * f + x8 * i == det
  {
  }

  lemma AdjugateLeft(m: Matrix)
    requires IsMatrix(m, 3, 3)
    ensures Mul(Adjugate3(m), m) == Scale(Det3(m), Identity(3))
  {
    AsM3(m);
    AdjugateLeftM3(m[0][0], m[0][1], m[0][2], m[1][0], m[1][1], m[1][2], m[2][0], m[2][1], m[2][2]);
  }

  lemma AsM3(m: Matrix)
    requires IsMatrix(m, 3, 3)
    ensures m == M3(m[0][0], m[0][1], m[0][2], m[1][0], m[1][1], m[1][2], m[2][0], m[2][1], m[2][2])
  {
    Matrix3Eq(m, M3(m[0][0], m[0][1], m[0][2], m[1][0], m[1][1], m[1][2], m[2][0], m[2][1], m[2][2]));
  }

  lemma ScaleIdentity3(s: real)
    ensures Scale(s, Identity(3)) == M3(s, 0.0, 0.0, 0.0, s, 0.0, 0.0, 0.0, s)
  {
    Matrix3Eq(Scale(s, Identity(3)), M3(s, 0.0, 0.0, 0.0, s, 0.0, 0.0, 0.0, s));
  }

  /** When `Inverse` succeeds its result is a left inverse: `inv(m) @ m == I`. */
  lemma InverseIsLeftInverse(m: Matrix)
    requires IsMatrix(m, 3, 3) && Det3(m) != 0.0
    ensures Mul(Inverse(m).value, m) == Identity(3)
  {
    var s := 1.0 / Det3(m);
    var inv := Inverse(m).value;
    var a := Adjugate3(m);
    AdjugateLeft(m);
    assert s * Det3(m) == 1.0;
    forall i, j | 0 <= i < 3 && 0 <= j < 3 ensures Mul(inv, m)[i][j] == Identity(3)[i][j] {
      ScaleMul3Entry(s, a, m, i, j);
      assert Mul(a, m)[i][j] == Det3(m) * Identity(3)[i][j];
    }
    MatrixEq(Mul(inv, m), Identity(3), 3, 3);
  }

  lemma ScaleMul3Entry(s: real, a: Matrix, b: Matrix, i: nat, j: nat)
    requires IsMatrix(a, 3, 3) && IsMatrix(b, 3, 3) && i < 3 && j < 3
    ensures Mul(Scale(s, a), b)[i][j] == s * Mul(a, b)[i][j]
  {
    Mul3Entry(Scale(s, a), b, i, j);
    Mul3Entry(a, b, i, j);
  }

  /** `(a @ b) @ v == a @ (b @ v)` for 3×3 matrices. */
  lemma MatVecMul3(a: Matrix, b: Matrix, v: Vector)
    requires IsMatrix(a, 3, 3) && IsMatrix(b, 3, 3) && |v| == 3
    ensures MatVec(Mul(a, b), v) == MatVec(a, MatVec(b, v))
  {
    var bv := MatVec(b, v);
    forall i | 0 <= i < 3 ensures MatVec(Mul(a, b), v)[i] == MatVec(a, bv)[i] {
      Mul3Entry(a, b, i, 0);
      Mul3Entry(a, b, i, 1);
      Mul3Entry(a, b, i, 2);
      Dot3(Mul(a, b)[i], v);
      Dot3(a[i], bv);
      Dot3(b[0], v);
      Dot3(b[1], v);
      Dot3(b[2], v);
    }
  }

  /** The inverse undoes the matrix on every vector: `inv(m) @ (m @ p) == p`. */
  lemma InverseRoundTrip(m: Matrix, p: Vector)
    requires IsMatrix(m, 3, 3) && Det3(m) != 0.0 && |p| == 3
    ensures MatVec(Inverse(m).value, MatVec(m, p)) == p
  {
    var inv := Inverse(m).value;
    InverseIsLeftInverse(m);
    MatVecMul3(inv, m, p);
    IdentityMatVec(p);
  }

  /** The identity leaves every 3-vector unchanged. */
  lemma IdentityMatVec(v: Vector)
    requires |v| == 3
    ensures MatVec(Identity(3), v) == v
  {
    forall i | 0 <= i < 3 ensures MatVec(Identity(3), v)[i] == v[i] {
      Dot3(Identity(3)[i], v);
    }
  }

  /** The identity leaves every 3×3 matrix unchanged under left multiplication. */
  lemma IdentityMul3(m: Matrix)
    requires IsMatrix(m, 3, 3)
    ensures Mul(Identity(3), m) == m
  {
    forall i, j | 0 <= i < 3 && 0 <= j < 3 ensures Mul(Identity(3), m)[i][j] == m[i][j] {
      Mul3Entry(Identity(3), m, i, j);
    }
    Matrix3Eq(Mul(Identity(3), m), m);
  }
}
