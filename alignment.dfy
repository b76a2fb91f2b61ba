/**
 * The affine transformation that rotates the orthoimage about its centre
 * and centre-crops it to the query image (`_get_translation_matrix`,
 * `_get_rotation_matrix`, `_get_affine_matrix`), and the homogeneous 3x3
 * form that makes it invertible.
 */
module Alignment {
  import opened Wrappers
  import opened Matrices
  import opened Numerics

  /** Python's `(size - crop) // 2`: floor division, also for a crop larger than the image. */
  function CropOffset(size: int, crop: int): (d: int)
    ensures 2 * d <= size - crop < 2 * d + 2
  {
    (size - crop) / 2
  }

  /** `_get_translation_matrix(dx, dy)`: `[[1, 0, dx], [0, 1, dy]]`. */
  function TranslationMatrix(dx: real, dy: real): (t: Matrix)
    ensures IsMatrix(t, 2, 3)
  {
    [[1.0, 0.0, dx], [0.0, 1.0, dy]]
  }

  /** Applied to a point in homogeneous coordinates, the translation matrix shifts it by (dx, dy). */
  lemma TranslationShiftsPoints(dx: real, dy: real, x: real, y: real)
    ensures MatVec(TranslationMatrix(dx, dy), [x, y, 1.0]) == [x + dx, y + dy]
  {
    var t := TranslationMatrix(dx, dy);
    var p := [x, y, 1.0];
    Dot3(t[0], p);
    Dot3(t[1], p);
    assert MatVec(t, p)[0] == x + dx;
    assert MatVec(t, p)[1] == y + dy;
  }

  /** `_get_rotation_matrix`: OpenCV's rotation about `(height // 2, width // 2)` at scale 1. */
  function RotationMatrix(nx: Numerics, height: nat, width: nat, degrees: real): (r: Matrix)
    requires ValidNumerics(nx)
    ensures IsMatrix(r, 2, 3)
  {
    nx.rotationMatrix2D((height / 2) as real, (width / 2) as real, degrees, 1.0)
  }

  /**
   * `_get_affine_matrix`: `t @ vstack([r, [0, 0, 1]])`, a (2x3)(3x3)
   * product and hence a 2x3 matrix.
   */
  function AffineMatrix(nx: Numerics, height: nat, width: nat, degrees: real, cropHeight: nat, cropWidth: nat): (a: Matrix)
    requires ValidNumerics(nx)
    ensures IsMatrix(a, 2, 3)
  {
    var r := RotationMatrix(nx, height, width, degrees);
    var dx := CropOffset(height, cropHeight);
    var dy := CropOffset(width, cropWidth);
    var t := TranslationMatrix(dx as real, dy as real);
    Mul(t, Vstack(r, [0.0, 0.0, 1.0]))
  }

  /** Translating after a 2x3 transform adds the offsets to its last column and leaves the rest alone. */
  lemma TranslateAfter(r: Matrix, dx: real, dy: real)
    requires IsMatrix(r, 2, 3)
    ensures Mul(TranslationMatrix(dx, dy), Vstack(r, [0.0, 0.0, 1.0]))
         == [[r[0][0], r[0][1], r[0][2] + dx], [r[1][0], r[1][1], r[1][2] + dy]]
  {
    var v := Vstack(r, [0.0, 0.0, 1.0]);
    Matrix3Eq(v, M3(r[0][0], r[0][1], r[0][2], r[1][0], r[1][1], r[1][2], 0.0, 0.0, 1.0));
    TranslateAfterEntries(r[0][0], r[0][1], r[0][2], r[1][0], r[1][1], r[1][2], dx, dy);
  }

  lemma TranslateAfterEntries(r00: real, r01: real, r02: real, r10: real, r11: real, r12: real, dx: real, dy: real)
    ensures Mul(TranslationMatrix(dx, dy), M3(r00, r01, r02, r10, r11, r12, 0.0, 0.0, 1.0))
         == [[r00, r01, r02 + dx], [r10, r11, r12 + dy]]
  {
    var t := TranslationMatrix(dx, dy);
    var v := M3(r00, r01, r02, r10, r11, r12, 0.0, 0.0, 1.0);
    var p := Mul(t, v);
    Mul3Entry(t, v, 0, 0); Mul3Entry(t, v, 0, 1); Mul3Entry(t, v, 0, 2);
    Mul3Entry(t, v, 1, 0); Mul3Entry(t, v, 1, 1); Mul3Entry(t, v, 1, 2);
    assert |p| == 2 && |p[0]| == 3 && |p[1]| == 3;
    assert p[0][0] == r00 && p[0][1] == r01 && p[0][2] == r02 + dx;
    assert p[1][0] == r10 && p[1][1] == r11 && p[1][2] == r12 + dy;
    assert p[0] == [r00, r01, r02 + dx];
    assert p[1] == [r10, r11, r12 + dy];
  }

  /**
   * The alignment affine is the rotation matrix with the crop offsets
   * `dx = (H - crop_h) // 2` and `dy = (W - crop_w) // 2` added to its
   * third column.
   */
  lemma AffineIsShiftedRotation(nx: Numerics, height: nat, width: nat, degrees: real, cropHeight: nat, cropWidth: nat)
    requires ValidNumerics(nx)
    ensures var r := RotationMatrix(nx, height, width, degrees);
            var dx := CropOffset(height, cropHeight) as real;
            var dy := CropOffset(width, cropWidth) as real;
            AffineMatrix(nx, height, width, degrees, cropHeight, cropWidth)
              == [[r[0][0], r[0][1], r[0][2] + dx], [r[1][0], r[1][1], r[1][2] + dy]]
  {
    TranslateAfter(RotationMatrix(nx, height, width, degrees),
                   CropOffset(height, cropHeight) as real, CropOffset(width, cropWidth) as real);
  }

  /** No rotation and a crop equal to the image shape give the identity alignment `[[1, 0, 0], [0, 1, 0]]`. */
  lemma UnrotatedUncroppedIsIdentity(nx: Numerics, height: nat, width: nat)
    requires ValidNumerics(nx)
    ensures AffineMatrix(nx, height, width, 0.0, height, width) == [[1.0, 0.0, 0.0], [0.0, 1.0, 0.0]]
  {
    AffineIsShiftedRotation(nx, height, width, 0.0, height, width);
    assert RotationMatrix(nx, height, width, 0.0) == [[1.0, 0.0, 0.0], [0.0, 1.0, 0.0]];
  }

  /** `numpy.linalg.inv` of the 2x3 alignment affine fails: it is not square. */
  lemma AffineIsNotInvertible(nx: Numerics, height: nat, width: nat, degrees: real, cropHeight: nat, cropWidth: nat)
    requires ValidNumerics(nx)
    ensures Inverse(AffineMatrix(nx, height, width, degrees, cropHeight, cropWidth)).None?
  {
  }

  /** The 3x3 homogeneous form of a 2x3 affine transformation: `vstack([a, [0, 0, 1]])`. */
  function Homogeneous(a: Matrix): (h: Matrix)
    requires IsMatrix(a, 2, 3)
    ensures IsMatrix(h, 3, 3) && h[..2] == a && h[2] == [0.0, 0.0, 1.0]
  {
    Vstack(a, [0.0, 0.0, 1.0])
  }

  /** The homogeneous affine acts on homogeneous points as the affine does, keeping the final 1. */
  lemma HomogeneousActsAsAffine(a: Matrix, x: real, y: real)
    requires IsMatrix(a, 2, 3)
    ensures MatVec(Homogeneous(a), [x, y, 1.0]) == MatVec(a, [x, y, 1.0]) + [1.0]
  {
    var h := Homogeneous(a);
    Dot3(h[2], [x, y, 1.0]);
  }

  /** The homogeneous affine is invertible exactly when its 2x2 linear part is. */
  lemma HomogeneousDeterminant(a: Matrix)
    requires IsMatrix(a, 2, 3)
    ensures Det3(Homogeneous(a)) == a[0][0] * a[1][1] - a[0][1] * a[1][0]
  {
    var h := Homogeneous(a);
    AsM3(h);
    AffineDeterminant(a[0][0], a[0][1], a[0][2], a[1][0], a[1][1], a[1][2]);
  }

  lemma AffineDeterminant(a: real, b: real, c: real, d: real, e: real, f: real)
    ensures DetOf(a, b, c, d, e, f, 0.0, 0.0, 1.0) == a * e - b * d
  {
  }

  /** The completed affine can be inverted exactly when its linear 2x2 part is non-singular. */
  lemma HomogeneousInvertible(a: Matrix)
    requires IsMatrix(a, 2, 3)
    ensures Inverse(Homogeneous(a)).Some? <==> a[0][0] * a[1][1] - a[0][1] * a[1][0] != 0.0
  {
    HomogeneousDeterminant(a);
  }

  /** Undoing the homogeneous affine recovers every pixel position it moved. */
  lemma HomogeneousRoundTrip(a: Matrix, x: real, y: real)
    requires IsMatrix(a, 2, 3) && a[0][0] * a[1][1] - a[0][1] * a[1][0] != 0.0
    ensures Inverse(Homogeneous(a)).Some?
    ensures MatVec(Inverse(Homogeneous(a)).value, MatVec(Homogeneous(a), [x, y, 1.0])) == [x, y, 1.0]
  {
    HomogeneousDeterminant(a);
    InverseRoundTrip(Homogeneous(a), [x, y, 1.0]);
  }
}
