/**
 * The floating-point, trigonometric and library results the node relies
 * on but that exact real arithmetic cannot compute: `math.acos`,
 * `math.asin`, `np.arctan2`, `np.pi`, the haversine distance, OpenCV's
 * `getRotationMatrix2D` and `getPerspectiveTransform`, the corner list of
 * `create_src_corners`, SciPy's `Rotation` conversions and the quaternion
 * helpers of the messaging module. They are bundled into one value that
 * every operation takes as a parameter, and `ValidNumerics` states the
 * facts about them that the model uses.
 */
module Numerics {
  import opened Messages
  import opened Matrices

  /** A pixel or geographic 2-D coordinate pair. */
  type Point2 = (real, real)

  datatype Numerics = Numerics(
    /** `math.acos`, defined on [-1, 1] only (it raises `ValueError` elsewhere). */
    acos: real --> real,
    /** `math.asin` / `np.arcsin`, defined on [-1, 1] only. */
    asin: real --> real,
    /** `math.atan2(y, x)`. */
    atan2: (real, real) -> real,
    /** `np.pi`. */
    pi: real,
    /** `haversine_distance(lat1, lon1, lat2, lon2)` in metres. */
    haversine: (real, real, real, real) -> real,
    /** `cv2.getRotationMatrix2D(center, angle, scale)` with the centre given as two reals. */
    rotationMatrix2D: (real, real, real, real) -> Matrix,
    /** `create_src_corners(height, width)`: the pixel corners of an image. */
    srcCorners: (nat, nat) -> seq<Point2>,
    /** `cv2.getPerspectiveTransform(src, dst)`. */
    perspectiveTransform: (seq<Point2>, seq<Point2>) -> Matrix,
    /** `Rotation.from_matrix(r).as_quat()`, components (x, y, z, w). */
    matrixAsQuat: Matrix -> Quaternion,
    /** `messaging.quaternion_to_rotation_matrix`. */
    quaternionToRotationMatrix: Quaternion -> Matrix,
    /** `messaging.rotation_matrix_to_quaternion`. */
    rotationMatrixToQuaternion: Matrix -> Quaternion,
    /**
     * The magnitude, in radians, of the rotation between the estimated
     * orientation and the gimbal-based guess rotated by the camera yaw
     * (`Rotation.magnitude(r_estimate * r_guess.inv())`).
     */
    attitudeDeviation: (Quaternion, real, Quaternion) -> real,
    /**
     * The float numpy yields for `a / 0` (inf, -inf or NaN by the sign of
     * `a`), which exact reals cannot represent; only an unspecified stand-in.
     */
    divideByZero: real -> real
  )

  /** The facts about the library results that the model relies on. */
  ghost predicate ValidNumerics(nx: Numerics) {
    && (forall x :: -1.0 <= x <= 1.0 ==> nx.acos.requires(x))
    && (forall x :: -1.0 <= x <= 1.0 ==> nx.asin.requires(x))
    && nx.pi > 0.0
    && (forall x :: -1.0 <= x <= 1.0 ==> 0.0 <= nx.acos(x) <= nx.pi)
    && nx.acos(1.0) == 0.0 && 2.0 * nx.acos(0.0) == nx.pi && nx.acos(-1.0) == nx.pi
    && (forall x :: -1.0 <= x <= 1.0 ==> -nx.pi <= 2.0 * nx.asin(x) <= nx.pi)
    && (forall y, x :: -nx.pi < nx.atan2(y, x) <= nx.pi)
    && (forall cx, cy, deg, s :: IsMatrix(nx.rotationMatrix2D(cx, cy, deg, s), 2, 3))
    && (forall cx, cy :: nx.rotationMatrix2D(cx, cy, 0.0, 1.0) == [[1.0, 0.0, 0.0], [0.0, 1.0, 0.0]])
    && (forall src, dst :: IsMatrix(nx.perspectiveTransform(src, dst), 3, 3))
    && (forall q :: IsMatrix(nx.quaternionToRotationMatrix(q), 3, 3))
    && (forall lat1, lon1, lat2, lon2 :: nx.haversine(lat1, lon1, lat2, lon2) >= 0.0)
    && (forall lat, lon :: nx.haversine(lat, lon, lat, lon) == 0.0)
  }

  /** `math.degrees`. */
  function Degrees(nx: Numerics, rad: real): (deg: real)
    requires nx.pi > 0.0
    ensures deg * nx.pi == rad * 180.0
  {
    rad * 180.0 / nx.pi
  }

  /** `np.radians`. */
  function Radians(nx: Numerics, deg: real): (rad: real)
    requires nx.pi > 0.0
    ensures rad * 180.0 == deg * nx.pi
  {
    deg * nx.pi / 180.0
  }

  /** Division of a float by a count, as numpy evaluates it: exact unless the divisor is zero. */
  function FloatDivide(nx: Numerics, a: real, b: real): (q: real)
    ensures b != 0.0 ==> q * b == a
  {
    if b == 0.0 then nx.divideByZero(a) else a / b
  }

  /** An angle in [0, pi] radians is an angle in [0, 180] degrees. */
  lemma DegreesOfHalfTurn(nx: Numerics, rad: real)
    requires nx.pi > 0.0 && 0.0 <= rad <= nx.pi
    ensures 0.0 <= Degrees(nx, rad) <= 180.0
  {
    var d := Degrees(nx, rad);
    ScaledBounds(d, rad, nx.pi);
  }

  /** From `d * p == r * 180` with `p > 0` and `0 <= r <= p` follows `0 <= d <= 180`. */
  lemma ScaledBounds(d: real, r: real, p: real)
    requires p > 0.0 && 0.0 <= r <= p && d * p == r * 180.0
    ensures 0.0 <= d <= 180.0
  {
  }

  /** An angle in (-pi, pi] radians, as `atan2` returns, is an angle in (-180, 180] degrees. */
  lemma DegreesOfSignedHalfTurn(nx: Numerics, rad: real)
    requires nx.pi > 0.0 && -nx.pi < rad <= nx.pi
    ensures -180.0 < Degrees(nx, rad) <= 180.0
  {
    var d := Degrees(nx, rad);
    SignedScaledBounds(d, rad, nx.pi);
  }

  /** From `d * p == r * 180` with `p > 0` and `-p < r <= p` follows `-180 < d <= 180`. */
  lemma SignedScaledBounds(d: real, r: real, p: real)
    requires p > 0.0 && -p < r <= p && d * p == r * 180.0
    ensures -180.0 < d <= 180.0
  {
  }

  /** The three angles the model evaluates exactly: 0, a quarter turn and a half turn. */
  lemma DegreesOfKnownAngles(nx: Numerics, quarter: real)
    requires nx.pi > 0.0 && 2.0 * quarter == nx.pi
    ensures Degrees(nx, 0.0) == 0.0
    ensures Degrees(nx, quarter) == 90.0
    ensures Degrees(nx, nx.pi) == 180.0
  {
    DegreesIsUnique(nx, quarter, 90.0);
    DegreesIsUnique(nx, nx.pi, 180.0);
  }

  /** `deg` is the degree measure of `rad` as soon as `deg * pi == rad * 180`. */
  lemma DegreesIsUnique(nx: Numerics, rad: real, deg: real)
    requires nx.pi > 0.0 && deg * nx.pi == rad * 180.0
    ensures Degrees(nx, rad) == deg
  {
    var d := Degrees(nx, rad);
    assert (d - deg) * nx.pi == 0.0;
  }

  /** The facts asked of the library results can all be met at once. */
  lemma ValidNumericsSatisfiable()
    ensures exists nx :: ValidNumerics(nx)
  {
    var pi := 3.0;
    var nx := Numerics(
      x requires -1.0 <= x <= 1.0 => (1.0 - x) * pi / 2.0,
      x requires -1.0 <= x <= 1.0 => x,
      (y, x) => 0.0,
      pi,
      (lat1, lon1, lat2, lon2) => 0.0,
      (cx, cy, deg, s) => [[1.0, 0.0, 0.0], [0.0, 1.0, 0.0]],
      (h, w) => [],
      (src, dst) => Identity(3),
      r => Quaternion(0.0, 0.0, 0.0, 1.0),
      q => Identity(3),
      r => Quaternion(0.0, 0.0, 0.0, 1.0),
      (g, yaw, e) => 0.0,
      a => 0.0);
    assert ValidNumerics(nx);
  }
}
