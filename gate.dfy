/**
 * The gate that decides whether a pose estimate is attempted at all
 * (`_should_estimate_geopose`), its camera-pitch test
 * (`_camera_roll_or_pitch_too_high` with `off_nadir_angle`) and the clamp
 * shared with `_euler_from_quaternion`.
 */
module Gate {
  import opened Wrappers
  import opened Messages
  import opened Numerics

  /** The camera axis rotated by `q` (the vector built in `off_nadir_angle`), dotted with down (0, 0, -1). */
  function DownDot(q: Quaternion): real {
    var rotatedX := 2.0 * (q.x * q.z - q.w * q.y);
    var rotatedY := 2.0 * (q.y * q.z + q.w * q.x);
    var rotatedZ := q.w * q.w - q.x * q.x - q.y * q.y + q.z * q.z;
    rotatedX * 0.0 + rotatedY * 0.0 + rotatedZ * -1.0
  }

  /** `max(min(d, 1.0), -1.0)`: keeps `d` inside the domain of `acos`. */
  function ClampUnit(d: real): (c: real)
    ensures -1.0 <= c <= 1.0
    ensures -1.0 <= d <= 1.0 ==> c == d
    ensures d > 1.0 ==> c == 1.0
    ensures d < -1.0 ==> c == -1.0
  {
    var upper := if d <= 1.0 then d else 1.0;
    if upper >= -1.0 then upper else -1.0
  }

  predicate IsUnit(q: Quaternion) {
    q.x * q.x + q.y * q.y + q.z * q.z + q.w * q.w == 1.0
  }

  /** The angle in degrees between the rotated camera axis and straight down. */
  function OffNadirAngle(nx: Numerics, q: Quaternion): (deg: real)
    requires ValidNumerics(nx)
    ensures 0.0 <= deg <= 180.0
  {
    DegreesOfHalfTurn(nx, nx.acos(ClampUnit(DownDot(q))));
    Degrees(nx, nx.acos(ClampUnit(DownDot(q))))
  }

  /**
   * True when the gimbal attitude is unknown, or when it is more than
   * `maxPitch` degrees off nadir (strictly: exactly `maxPitch` passes).
   */
  function CameraRollOrPitchTooHigh(nx: Numerics, gimbal: Option<Quaternion>, maxPitch: int): (tooHigh: bool)
    requires ValidNumerics(nx)
    ensures gimbal.None? ==> tooHigh
    ensures gimbal.Some? ==> (tooHigh <==> OffNadirAngle(nx, gimbal.value) - 90.0 > maxPitch as real)
  {
    match gimbal
    case None => true
    case Some(q) => OffNadirAngle(nx, q) - 90.0 > maxPitch as real
  }

  /**
   * `_should_estimate_geopose` as written. A missing altitude makes the
   * type-enforcing wrapper return `None`, which `bool` turns into `false`.
   * `assert min_alt > 0` raises only once the pitch check has passed.
   * Only the `np.nan` object itself is caught by `is np.nan`; any other
   * NaN fails `terrain < min_alt` and therefore passes the gate.
   */
  function ShouldEstimateGeopose(nx: Numerics, gimbal: Option<Quaternion>, altitude: Option<Altitude>,
                                 maxPitch: int, minAlt: int): (r: Outcome<bool>)
    requires ValidNumerics(nx)
    ensures r == Returned(true) <==>
              && altitude.Some?
              && !CameraRollOrPitchTooHigh(nx, gimbal, maxPitch)
              && minAlt > 0
              && (altitude.value.terrain.OtherNan? ||
                  (altitude.value.terrain.Number? && altitude.value.terrain.v >= minAlt as real))
    ensures r.Raised? <==> altitude.Some? && !CameraRollOrPitchTooHigh(nx, gimbal, maxPitch) && minAlt <= 0
    ensures r.Raised? ==> r.error == AssertionError
  {
    if altitude.None? then Returned(false)
    else if CameraRollOrPitchTooHigh(nx, gimbal, maxPitch) then Returned(false)
    else if minAlt <= 0 then Raised(AssertionError)
    else match altitude.value.terrain
      case NumpyNan => Returned(false)
      case OtherNan => Returned(true)
      case Number(v) => Returned(!(v < minAlt as real))
  }

  /** The gate meant by its warning: terrain that cannot be determined skips the estimate. */
  function ShouldEstimateGeoposeNanSafe(nx: Numerics, gimbal: Option<Quaternion>, altitude: Option<Altitude>,
                                        maxPitch: int, minAlt: int): (r: Outcome<bool>)
    requires ValidNumerics(nx)
    ensures r == Returned(true) <==>
              && altitude.Some?
              && !CameraRollOrPitchTooHigh(nx, gimbal, maxPitch)
              && minAlt > 0
              && altitude.value.terrain.Number? && altitude.value.terrain.v >= minAlt as real
    ensures r.Raised? <==> altitude.Some? && !CameraRollOrPitchTooHigh(nx, gimbal, maxPitch) && minAlt <= 0
  {
    if altitude.None? then Returned(false)
    else if CameraRollOrPitchTooHigh(nx, gimbal, maxPitch) then Returned(false)
    else if minAlt <= 0 then Raised(AssertionError)
    else match altitude.value.terrain
      case Number(v) => Returned(!(v < minAlt as real))
      case _ => Returned(false)
  }

  /** A NaN terrain altitude that is not the `np.nan` object slips through the gate as written. */
  lemma OtherNanPassesGate(nx: Numerics, gimbal: Quaternion, amsl: real, clearance: real, maxPitch: int, minAlt: int)
    requires ValidNumerics(nx)
    requires OffNadirAngle(nx, gimbal) - 90.0 <= maxPitch as real && minAlt > 0
    ensures ShouldEstimateGeopose(nx, Some(gimbal), Some(Altitude(amsl, OtherNan, clearance)), maxPitch, minAlt) == Returned(true)
    ensures ShouldEstimateGeoposeNanSafe(nx, Some(gimbal), Some(Altitude(amsl, OtherNan, clearance)), maxPitch, minAlt) == Returned(false)
  {
  }

  /** Apart from that NaN, the corrected gate decides exactly as the code does. */
  lemma NanSafeGateAgrees(nx: Numerics, gimbal: Option<Quaternion>, altitude: Option<Altitude>, maxPitch: int, minAlt: int)
    requires ValidNumerics(nx)
    requires altitude.Some? ==> !altitude.value.terrain.OtherNan?
    ensures ShouldEstimateGeoposeNanSafe(nx, gimbal, altitude, maxPitch, minAlt)
         == ShouldEstimateGeopose(nx, gimbal, altitude, maxPitch, minAlt)
  {
  }

  /** A gimbal pitched straight down (a pure y rotation by -90 degrees) is 0 degrees off nadir. */
  lemma PitchedDownGimbalIsAtNadir(nx: Numerics, s: real)
    requires ValidNumerics(nx)
    ensures OffNadirAngle(nx, Quaternion(0.0, -s, 0.0, s)) - 90.0 == 0.0
    ensures !CameraRollOrPitchTooHigh(nx, Some(Quaternion(0.0, -s, 0.0, s)), 0)
  {
    assert DownDot(Quaternion(0.0, -s, 0.0, s)) == 0.0;
    DegreesOfKnownAngles(nx, nx.acos(0.0));
  }

  /** The identity attitude counts as 90 degrees off nadir, so it passes only when `maxPitch >= 90`. */
  lemma IdentityGimbalIsLevel(nx: Numerics, maxPitch: int)
    requires ValidNumerics(nx)
    ensures OffNadirAngle(nx, Quaternion(0.0, 0.0, 0.0, 1.0)) == 180.0
    ensures CameraRollOrPitchTooHigh(nx, Some(Quaternion(0.0, 0.0, 0.0, 1.0)), maxPitch) <==> maxPitch < 90
  {
    assert DownDot(Quaternion(0.0, 0.0, 0.0, 1.0)) == -1.0;
    DegreesOfKnownAngles(nx, nx.acos(0.0));
  }

  /** For a unit quaternion both clamped quantities already lie in [-1, 1]: the clamps change nothing. */
  lemma UnitQuaternionNeedsNoClamp(q: Quaternion)
    requires IsUnit(q)
    ensures ClampUnit(DownDot(q)) == DownDot(q)
    ensures ClampUnit(PitchSine(q)) == PitchSine(q)
  {
    UnitComponentBounds(q.x, q.y, q.z, q.w);
  }

  /** The bounds behind `UnitQuaternionNeedsNoClamp`, on the four components. */
  lemma UnitComponentBounds(x: real, y: real, z: real, w: real)
    requires x * x + y * y + z * z + w * w == 1.0
    ensures -1.0 <= 2.0 * (w * y - z * x) <= 1.0
    ensures -1.0 <= (2.0 * (x * z - w * y)) * 0.0 + (2.0 * (y * z + w * x)) * 0.0 + (w * w - x * x - y * y + z * z) * -1.0 <= 1.0
  {
    TwoProductBound(w, y);
    TwoProductBound(z, x);
    SquareNonNegative(x);
    SquareNonNegative(y);
    SquareNonNegative(z);
    SquareNonNegative(w);
  }

  lemma SquareNonNegative(s: real)
    ensures s * s >= 0.0
  {
  }

  /** `2ab` lies between `-(a² + b²)` and `a² + b²`. */
  lemma TwoProductBound(a: real, b: real)
    ensures 2.0 * (a * b) <= a * a + b * b
    ensures -(a * a + b * b) <= 2.0 * (a * b)
  {
    SquareNonNegative(a - b);
    SquareNonNegative(a + b);
  }

  /** `2(wy - zx)`, the sine of the pitch of a unit quaternion. */
  function PitchSine(q: Quaternion): real {
    2.0 * (q.w * q.y - q.z * q.x)
  }

  /** The pitch argument of `_euler_from_quaternion`, clamped by two conditional assignments. */
  function EulerPitchArgument(q: Quaternion): (t2: real)
    ensures t2 == ClampUnit(PitchSine(q))
  {
    var t2 := PitchSine(q);
    var t2 := if t2 > 1.0 then 1.0 else t2;
    if t2 < -1.0 then -1.0 else t2
  }

  /** The pitch computed by `_euler_from_quaternion`, in radians. */
  function EulerPitch(nx: Numerics, q: Quaternion): real
    requires ValidNumerics(nx)
  {
    nx.asin(EulerPitchArgument(q))
  }

  /**
   * `_euler_from_quaternion`: roll, pitch and yaw in radians. Thanks to the
   * clamp, `math.asin` never sees an argument outside its domain, so the
   * pitch is always defined and lies in [-pi/2, pi/2]; roll and yaw are
   * `atan2` angles in (-pi, pi].
   */
  function EulerFromQuaternion(nx: Numerics, q: Quaternion): (rpy: (real, real, real))
    requires ValidNumerics(nx)
    ensures -nx.pi < rpy.0 <= nx.pi && -nx.pi < rpy.2 <= nx.pi
    ensures -nx.pi <= 2.0 * rpy.1 <= nx.pi
    ensures IsUnit(q) ==> -1.0 <= PitchSine(q) <= 1.0 && rpy.1 == nx.asin(PitchSine(q))
  {
    UnitEulerPitchIsUnclamped(nx, q);
    var roll := nx.atan2(2.0 * (q.w * q.x + q.y * q.z), 1.0 - 2.0 * (q.x * q.x + q.y * q.y));
    var yaw := nx.atan2(2.0 * (q.w * q.z + q.x * q.y), 1.0 - 2.0 * (q.y * q.y + q.z * q.z));
    (roll, EulerPitch(nx, q), yaw)
  }

  /** For a unit quaternion the clamp is inert: the pitch is `asin(2(wy - zx))`. */
  lemma UnitEulerPitchIsUnclamped(nx: Numerics, q: Quaternion)
    requires ValidNumerics(nx)
    ensures IsUnit(q) ==> -1.0 <= PitchSine(q) <= 1.0
    ensures IsUnit(q) ==> EulerPitch(nx, q) == nx.asin(PitchSine(q))
  {
    if IsUnit(q) {
      UnitPitchArgumentIsUnclamped(q);
    }
  }

  lemma UnitPitchArgumentIsUnclamped(q: Quaternion)
    requires IsUnit(q)
    ensures EulerPitchArgument(q) == PitchSine(q)
  {
    PitchSineBounded(q);
    ClampInsideUnit(PitchSine(q));
  }

  lemma PitchSineBounded(q: Quaternion)
    requires IsUnit(q)
    ensures -1.0 <= PitchSine(q) <= 1.0
  {
    UnitComponentBounds(q.x, q.y, q.z, q.w);
  }

  lemma ClampInsideUnit(t: real)
    requires -1.0 <= t <= 1.0
    ensures ClampUnit(t) == t
  {
  }
}
