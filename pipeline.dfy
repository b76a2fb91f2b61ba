/**
 * The estimation cycle of `geopose_stamped_estimate`: the context is
 * frozen from the node's input cache, the orthoimage is aligned with the
 * query image, the pose service's reply is converted to a pose, the pose
 * is checked against the gimbal attitude, and post-processing turns it
 * into a `GeoPose`. Every stage that fails ends the cycle with `None`.
 */
module Pipeline {
  import opened Wrappers
  import opened Messages
  import opened Matrices
  import opened Numerics
  import opened Gate
  import opened Alignment
  import opened Matcher
  import opened PostProcess
  import opened Geotransform

  /** The node's cached inputs, each `None` until its first message has arrived. */
  datatype InputCache = InputCache(
    image: Option<Image>,
    orthoimage: Option<OrthoImage3D>,
    cameraInfo: Option<CameraInfo>,
    gimbalQuaternion: Option<Quaternion>,
    terrainAltitude: Option<Altitude>,
    terrainGeopoint: Option<GeoPointStamped>)

  /** `PoseEstimationInputs` as far as the model sees them: the shapes of the rasters and `K`. */
  datatype EstimationInputs = EstimationInputs(query: Image, reference: Image, elevation: Image, k: Matrix)

  /** `CameraInfo.k` is a fixed-size array of nine entries. */
  predicate WellFormedCache(cache: InputCache) {
    cache.cameraInfo.Some? ==> |cache.cameraInfo.value.k| == 9
  }

  /** `_pose_estimation_context`: the four context inputs frozen together, or `None` if any is missing. */
  function PoseEstimationContext(cache: InputCache): (context: Option<Context>)
    ensures context.Some? <==>
              cache.orthoimage.Some? && cache.gimbalQuaternion.Some?
              && cache.terrainAltitude.Some? && cache.terrainGeopoint.Some?
    ensures context.Some? ==>
              && context.value.orthoimage == cache.orthoimage.value
              && context.value.gimbalQuaternion == cache.gimbalQuaternion.value
              && context.value.terrainAltitude == cache.terrainAltitude.value
              && context.value.terrainGeopoint == cache.terrainGeopoint.value
  {
    if cache.orthoimage.None? || cache.gimbalQuaternion.None?
       || cache.terrainAltitude.None? || cache.terrainGeopoint.None? then None
    else Some(Context(cache.orthoimage.value, cache.gimbalQuaternion.value,
                      cache.terrainAltitude.value, cache.terrainGeopoint.value))
  }

  /** `k.reshape((3, 3))`: the nine entries read row by row. */
  function Reshape3(k: seq<real>): (m: Matrix)
    requires |k| == 9
    ensures IsMatrix(m, 3, 3)
    ensures forall i, j :: 0 <= i < 3 && 0 <= j < 3 ==> m[i][j] == k[3 * i + j]
  {
    [k[0..3], k[3..6], k[6..9]]
  }

  /** Reading the reshaped matrix back row by row gives the original array. */
  lemma {:induction false} Reshape3Flattens(k: seq<real>)
    requires |k| == 9
    ensures var m := Reshape3(k); m[0] + m[1] + m[2] == k
  {
    var m := Reshape3(k);
    forall n | 0 <= n < 9 ensures (m[0] + m[1] + m[2])[n] == k[n] {
      var i, j := n / 3, n % 3;
      assert (m[0] + m[1] + m[2])[n] == m[i][j];
    }
  }

  /** The yaw of `_get_yaw_pitch_degrees_from_quaternion`, in degrees. */
  function CameraYawDegrees(nx: Numerics, q: Quaternion): (deg: real)
    requires ValidNumerics(nx)
    ensures deg * nx.pi == nx.atan2(2.0 * (q.w * q.z + q.x * q.y), 1.0 - 2.0 * (q.y * q.y + q.z * q.z)) * 180.0
    ensures -180.0 < deg <= 180.0
  {
    var yaw := nx.atan2(2.0 * (q.w * q.z + q.x * q.y), 1.0 - 2.0 * (q.y * q.y + q.z * q.z));
    DegreesOfSignedHalfTurn(nx, yaw);
    Degrees(nx, yaw)
  }

  /** The yaw used for the alignment is the yaw of `_euler_from_quaternion`, in degrees. */
  lemma CameraYawIsEulerYaw(nx: Numerics, q: Quaternion)
    requires ValidNumerics(nx)
    ensures CameraYawDegrees(nx, q) == Degrees(nx, EulerFromQuaternion(nx, q).2)
  {
  }

  /**
   * `_pre_process_geopose_inputs`: `None` when any argument is `None`;
   * otherwise the orthoimage is rotated by the camera yaw and
   * center-cropped to the query image's shape.
   */
  function PreProcess(nx: Numerics, image: Option<Image>, orthoimage: Option<OrthoImage3D>,
                      cameraInfo: Option<CameraInfo>, context: Option<Context>)
    : (r: Option<(EstimationInputs, IntermediateOutputs)>)
    requires ValidNumerics(nx)
    requires cameraInfo.Some? ==> |cameraInfo.value.k| == 9
    ensures r.Some? <==> image.Some? && orthoimage.Some? && cameraInfo.Some? && context.Some?
    ensures r.Some? ==>
              var (inputs, intermediate) := r.value;
              && inputs.query == image.value
              && inputs.reference == image.value && inputs.elevation == image.value
              && inputs.k == Reshape3(cameraInfo.value.k)
              && intermediate.cameraYawDegrees == CameraYawDegrees(nx, context.value.gimbalQuaternion)
              && intermediate.affine == AffineMatrix(nx, orthoimage.value.img.height, orthoimage.value.img.width,
                                                     intermediate.cameraYawDegrees, image.value.height, image.value.width)
              && IsMatrix(intermediate.affine, 2, 3)
  {
    if image.None? || orthoimage.None? || cameraInfo.None? || context.None? then None
    else
      var query := image.value;
      var yaw := CameraYawDegrees(nx, context.value.gimbalQuaternion);
      var affine := AffineMatrix(nx, orthoimage.value.img.height, orthoimage.value.img.width,
                                 yaw, query.height, query.width);
      // the rotated and cropped stack has the crop shape, which is the query's shape
      var cropped := Image(query.height, query.width);
      Some((EstimationInputs(query, cropped, cropped, Reshape3(cameraInfo.value.k)),
            IntermediateOutputs(affine, yaw)))
  }

  /**
   * `_is_valid_pose_estimate`: a missing pose is invalid; otherwise the
   * estimate is valid unless its rotation differs from the gimbal-based
   * guess by more than the threshold (in degrees).
   */
  function IsValidPoseEstimate(nx: Numerics, pose: Option<Pose>, context: Context,
                               intermediate: IntermediateOutputs, threshold: int): (valid: bool)
    requires ValidNumerics(nx)
    ensures valid <==>
              pose.Some?
              && nx.attitudeDeviation(pose.value.orientation, intermediate.cameraYawDegrees, context.gimbalQuaternion) * 180.0
                 <= threshold as real * nx.pi
  {
    if pose.None? then false
    else
      var magnitude := nx.attitudeDeviation(pose.value.orientation, intermediate.cameraYawDegrees, context.gimbalQuaternion);
      RadiansScale(nx, magnitude, threshold as real);
      if magnitude > Radians(nx, threshold as real) then false else true
  }

  /** Comparing with `radians(t)` is comparing the angle times 180 with `t` times pi. */
  lemma RadiansScale(nx: Numerics, magnitude: real, threshold: real)
    requires nx.pi > 0.0
    ensures magnitude <= Radians(nx, threshold) <==> magnitude * 180.0 <= threshold * nx.pi
  {
  }

  /** A looser threshold accepts every estimate a stricter one accepts. */
  lemma {:induction false} ValidityIsMonotone(nx: Numerics, pose: Option<Pose>, context: Context,
                                              intermediate: IntermediateOutputs, strict: int, loose: int)
    requires ValidNumerics(nx) && strict <= loose
    requires IsValidPoseEstimate(nx, pose, context, intermediate, strict)
    ensures IsValidPoseEstimate(nx, pose, context, intermediate, loose)
  {
    var deviation := nx.attitudeDeviation(pose.value.orientation, intermediate.cameraYawDegrees, context.gimbalQuaternion);
    ThresholdScales(deviation, nx.pi, strict as real, loose as real);
  }

  lemma ThresholdScales(deviation: real, pi: real, strict: real, loose: real)
    requires pi > 0.0 && strict <= loose && deviation * 180.0 <= strict * pi
    ensures deviation * 180.0 <= loose * pi
  {
    assert strict * pi <= loose * pi;
  }

  /** The GeoPose that the cycle publishes from a post-processed result. */
  function ToGeoPose(p: PostProcessed): (g: GeoPose)
    ensures g.position == p.geopoint && g.orientation == p.quaternion
  {
    GeoPose(p.geopoint, p.quaternion)
  }

  /**
   * `geopose_stamped_estimate` as written, with the pose service's reply
   * to this cycle's inputs given as `response`. A failed pre-processing or
   * validity check ends the cycle with `None`; otherwise post-processing
   * either raises or returns the triple the GeoPose is built from.
   */
  function GeoposeStampedEstimateAsWritten(nx: Numerics, cache: InputCache, response: Response, threshold: int)
    : (r: Outcome<Option<GeoPose>>)
    requires ValidNumerics(nx) && WellFormedCache(cache) && WellShaped(response)
    ensures var context := PoseEstimationContext(cache);
            var pre := PreProcess(nx, cache.image, cache.orthoimage, cache.cameraInfo, context);
            && (r == Returned(None) <==>
                  pre.None? || !IsValidPoseEstimate(nx, GetPose(nx, response), context.value, pre.value.1, threshold))
            && (r.Raised? <==>
                  && pre.Some?
                  && IsValidPoseEstimate(nx, GetPose(nx, response), context.value, pre.value.1, threshold)
                  && Inverse(pre.value.1.affine).None?)
    ensures r.Raised? ==> r.error == UnboundLocalError("t_wgs84")
  {
    var context := PoseEstimationContext(cache);
    var pre := PreProcess(nx, cache.image, cache.orthoimage, cache.cameraInfo, context);
    if pre.None? then Returned(None)
    else
      var (inputs, intermediate) := pre.value;
      var pose := GetPose(nx, response);
      if !IsValidPoseEstimate(nx, pose, context.value, intermediate, threshold) then Returned(None)
      else
        match PostProcessAsWritten(nx, pose.value, intermediate, context.value)
        case Raised(e) => Raised(e)
        case Returned(p) => Returned(Some(ToGeoPose(p)))
  }

  /**
   * The cycle as written never publishes a pose: every run that gets past
   * pre-processing and validation raises, and every other run returns `None`.
   */
  lemma {:induction false} AsWrittenNeverPublishes(nx: Numerics, cache: InputCache, response: Response, threshold: int)
    requires ValidNumerics(nx) && WellFormedCache(cache) && WellShaped(response)
    ensures var context := PoseEstimationContext(cache);
            var pre := PreProcess(nx, cache.image, cache.orthoimage, cache.cameraInfo, context);
            var r := GeoposeStampedEstimateAsWritten(nx, cache, response, threshold);
            && (r == Raised(UnboundLocalError("t_wgs84")) <==>
                  pre.Some? && IsValidPoseEstimate(nx, GetPose(nx, response), context.value, pre.value.1, threshold))
            && (!r.Raised? ==> r == Returned(None))
  {
    var context := PoseEstimationContext(cache);
    var pre := PreProcess(nx, cache.image, cache.orthoimage, cache.cameraInfo, context);
    if pre.Some? {
      var image, ortho := cache.image.value, cache.orthoimage.value;
      AffineIsNotInvertible(nx, ortho.img.height, ortho.img.width, pre.value.1.cameraYawDegrees,
                            image.height, image.width);
    }
  }

  /** The corrected cycle: post-processing completes the affine before inverting it. */
  function GeoposeStampedEstimate(nx: Numerics, cache: InputCache, response: Response, threshold: int)
    : (r: Option<GeoPose>)
    requires ValidNumerics(nx) && WellFormedCache(cache) && WellShaped(response)
    ensures var context := PoseEstimationContext(cache);
            var pre := PreProcess(nx, cache.image, cache.orthoimage, cache.cameraInfo, context);
            r.Some? <==>
              && pre.Some?
              && IsValidPoseEstimate(nx, GetPose(nx, response), context.value, pre.value.1, threshold)
              && PostProcessPose(nx, GetPose(nx, response).value, pre.value.1, context.value).Some?
    ensures r.Some? ==>
              var context := PoseEstimationContext(cache);
              var pre := PreProcess(nx, cache.image, cache.orthoimage, cache.cameraInfo, context);
              var p := PostProcessPose(nx, GetPose(nx, response).value, pre.value.1, context.value).value;
              r.value.position == p.geopoint && r.value.orientation == p.quaternion
  {
    var context := PoseEstimationContext(cache);
    var pre := PreProcess(nx, cache.image, cache.orthoimage, cache.cameraInfo, context);
    if pre.None? then None
    else
      var (inputs, intermediate) := pre.value;
      var pose := GetPose(nx, response);
      if !IsValidPoseEstimate(nx, pose, context.value, intermediate, threshold) then None
      else
        match PostProcessPose(nx, pose.value, intermediate, context.value)
        case None => None
        case Some(p) => Some(ToGeoPose(p))
  }

  /** A cycle with any context input missing publishes nothing. */
  lemma {:induction false} MissingContextGivesNone(nx: Numerics, cache: InputCache, response: Response, threshold: int)
    requires ValidNumerics(nx) && WellFormedCache(cache) && WellShaped(response)
    requires cache.orthoimage.None? || cache.gimbalQuaternion.None? || cache.terrainAltitude.None? || cache.terrainGeopoint.None?
    ensures GeoposeStampedEstimate(nx, cache, response, threshold).None?
    ensures GeoposeStampedEstimateAsWritten(nx, cache, response, threshold) == Returned(None)
  {
  }

  /** A reply without status 200 or without both matrices makes the cycle publish nothing. */
  lemma {:induction false} FailedServiceGivesNone(nx: Numerics, cache: InputCache, response: Response, threshold: int)
    requires ValidNumerics(nx) && WellFormedCache(cache) && WellShaped(response)
    requires response.statusCode != 200 || "r" !in response.data || "t" !in response.data
    ensures GeoposeStampedEstimate(nx, cache, response, threshold).None?
    ensures GeoposeStampedEstimateAsWritten(nx, cache, response, threshold) == Returned(None)
  {
  }

  /**
   * Every cycle that the code as written ends with the unbound-variable
   * error publishes a pose under the correction exactly when the orthoimage
   * raster has a positive pixel perimeter and the completed affine is invertible.
   */
  lemma {:induction false} CorrectionRescuesRaisingCycles(nx: Numerics, cache: InputCache, response: Response, threshold: int)
    requires ValidNumerics(nx) && WellFormedCache(cache) && WellShaped(response)
    requires GeoposeStampedEstimateAsWritten(nx, cache, response, threshold).Raised?
    ensures var pre := PreProcess(nx, cache.image, cache.orthoimage, cache.cameraInfo, PoseEstimationContext(cache));
            && pre.Some?
            && (GeoposeStampedEstimate(nx, cache, response, threshold).Some? <==>
                  NativePerimeter(cache.orthoimage.value.img) > 0 && Inverse(Homogeneous(pre.value.1.affine)).Some?)
  {
  }

  /**
   * The published position is the tile geotransform applied to the
   * tile-frame point whose aligned image the pose service estimated.
   */
  lemma {:induction false} PublishedPositionIsGeotransformed(nx: Numerics, cache: InputCache, response: Response,
                                                             threshold: int, q: Vector)
    requires ValidNumerics(nx) && WellFormedCache(cache) && WellShaped(response) && |q| == 3
    requires GeoposeStampedEstimate(nx, cache, response, threshold).Some?
    requires var pre := PreProcess(nx, cache.image, cache.orthoimage, cache.cameraInfo, PoseEstimationContext(cache));
             PointVector(GetPose(nx, response).value.position) == MatVec(Homogeneous(pre.value.1.affine), q)
    ensures var g := MatVec(GeotransformationMatrix(nx, cache.orthoimage.value).value, q);
            var position := GeoposeStampedEstimate(nx, cache, response, threshold).value.position;
            position.latitude == g[0] && position.longitude == g[1]
            && position.altitude == g[2] + cache.terrainGeopoint.value.position.altitude
  {
    var context := PoseEstimationContext(cache);
    var pre := PreProcess(nx, cache.image, cache.orthoimage, cache.cameraInfo, context);
    PostProcessUndoesAlignment(nx, GetPose(nx, response).value, pre.value.1, context.value, q);
  }
}
