# GISNav pose estimation core, modelled in Dafny

This project models the decision and linear-algebra logic of GISNav's
`PoseEstimationNode`, together with the match filtering of the SuperGlue
adapter.

The node estimates the vehicle's geographic pose from one camera frame. The cycle has these stages:

- **Gate.** Estimation is attempted only if the gimbal points close enough to nadir and the vehicle flies high enough above the terrain.
- **Alignment.** The orthoimage tile is rotated by the camera yaw and center-cropped to the query image's shape. The affine matrix of this step is kept.
- **Matching.** A pose service returns `r` and `t`, which are converted to a world-frame `Pose`.
- **Validation.** The estimated orientation is checked against the gimbal attitude.
- **Post-processing.** The pose is taken back through the inverted alignment and the tile's geotransformation into WGS 84. The altitudes come from the terrain context. The orientation is converted from ESU to NED axes.

Module layout:

- `wrappers.dfy`: `Option` and `Outcome`, the latter being a returned value or a Python exception.
- `messages.dfy`: the ROS message values that are used.
- `matrices.dfy`: numpy matrix algebra on exact reals, with a partial 3×3 inverse.
- `numerics.dfy`: the library results the model cannot compute. This covers trigonometry, haversine, OpenCV and SciPy. They are bundled in a `Numerics` value, and `ValidNumerics` states the facts the proofs use.
- `gate.dfy`: `_should_estimate_geopose`, `_camera_roll_or_pitch_too_high`, `off_nadir_angle` and the clamp of `_euler_from_quaternion`.
- `geotransform.dfy`: the corner list, the perimeter and `_get_geotransformation_matrix`. The last is modelled three times: as the code computes it, as a corrected value with the documented corners and no matrix for a raster of zero pixel perimeter (height and width both 0), and as the in-place `M[2, 2]` overwrite on an `array2`.
- `alignment.dfy`: the translation, rotation and affine matrices.
- `matcher.dfy`: `_get_pose`, and `_matrices_to_pose` as a class whose fields are set one at a time.
- `postprocess.dfy`: `_post_process_pose` and `_esu_to_ned_matrix`.
- `pipeline.dfy`: `_pose_estimation_context`, pre-processing, validation and `geopose_stamped_estimate`.
- `superglue.dfy`: the keypoint and match selection of `SuperGlue.match` and its caption counts.

The library calls are parameters rather than computations. `Numerics` fields stand for `math.acos`, `math.asin`, `np.arctan2`, `np.pi`, `haversine_distance`, `cv2.getRotationMatrix2D`, `cv2.getPerspectiveTransform`, `create_src_corners`, SciPy's `Rotation` conversions and the quaternion helpers of the messaging module. The pose service's reply is a parameter of the cycle.

## Model

P is `gisnav/gisnav/nodes/pose_estimation_node.py`, S is `wms_map_matching/superglue_adapter.py`.

| member | source | states |
|---|---|---|
| Matrices.Mul | gisnav/gisnav/nodes/pose_estimation_node.py:764 | `np.dot` of an n×k and a k×p matrix is n×p, and entry (i, j) is row i of the left factor dotted with column j of the right one |
| Matrices.Transpose | gisnav/gisnav/nodes/pose_estimation_node.py:850 | `r.T` swaps shape and indices |
| Matrices.Vstack | gisnav/gisnav/nodes/pose_estimation_node.py:764 | `np.vstack([r, row])` keeps the rows of `r` and appends `row` |
| Matrices.WithEntry | gisnav/gisnav/nodes/pose_estimation_node.py:734 | assigning one entry changes that entry and no other |
| Matrices.Inverse | gisnav/gisnav/nodes/pose_estimation_node.py:512 | `np.linalg.inv` succeeds exactly on a square 3×3 input with non-zero determinant, and then yields a 3×3 matrix |
| Matrices.InverseIsLeftInverse | gisnav/gisnav/nodes/pose_estimation_node.py:512 | a successful inverse satisfies `inv(m) @ m == I` |
| Matrices.InverseRoundTrip | gisnav/gisnav/nodes/pose_estimation_node.py:512 | applying the inverse after the matrix gives back every vector |
| Matrices.MatVecMul3 | gisnav/gisnav/nodes/pose_estimation_node.py:512 | `(g @ a) @ t == g @ (a @ t)` for 3×3 factors |
| Matrices.IdentityMul3 | gisnav/gisnav/nodes/pose_estimation_node.py:545-549 | the identity times a 3×3 matrix is that matrix |
| Numerics.Degrees | gisnav/gisnav/nodes/pose_estimation_node.py:904 | `degrees(rad)` times pi is `rad` times 180 |
| Numerics.Radians | gisnav/gisnav/nodes/pose_estimation_node.py:466 | `radians(deg)` times 180 is `deg` times pi |
| Numerics.FloatDivide | gisnav/gisnav/nodes/pose_estimation_node.py:734 | float division is total, like numpy's on a zero divisor; for a non-zero divisor the result times the divisor is the dividend |
| Numerics.DegreesOfSignedHalfTurn | gisnav/gisnav/nodes/pose_estimation_node.py:361-367 | an `atan2` angle in (-pi, pi] is in (-180, 180] degrees |
| Numerics.DegreesOfHalfTurn | gisnav/gisnav/nodes/pose_estimation_node.py:901-904 | an angle in [0, pi] radians is in [0, 180] degrees |
| Numerics.DegreesOfKnownAngles | gisnav/gisnav/nodes/pose_estimation_node.py:904 | 0, a quarter turn and a half turn convert to 0, 90 and 180 degrees |
| Gate.ClampUnit | gisnav/gisnav/nodes/pose_estimation_node.py:898 | the clamp always lands in [-1, 1], leaves values inside unchanged, and sends values above to 1 and below to -1 |
| Gate.OffNadirAngle | gisnav/gisnav/nodes/pose_estimation_node.py:885-906 | the off-nadir angle is defined for every quaternion and lies in [0, 180] degrees |
| Gate.UnitQuaternionNeedsNoClamp | gisnav/gisnav/nodes/pose_estimation_node.py:886-898 | for a unit quaternion the dot product with down, and the pitch sine, are already in [-1, 1], so the clamps are inert |
| Gate.PitchedDownGimbalIsAtNadir | gisnav/gisnav/nodes/pose_estimation_node.py:939-941 | for every quaternion `(0, -s, 0, s)` (a y rotation that points the camera straight down) the off-nadir angle is exactly 90, so the pitch test passes even with `max_pitch = 0` |
| Gate.IdentityGimbalIsLevel | gisnav/gisnav/nodes/pose_estimation_node.py:939-941 | the identity attitude is 180 degrees off nadir, and it is too high exactly when `max_pitch < 90` |
| Gate.CameraRollOrPitchTooHigh | gisnav/gisnav/nodes/pose_estimation_node.py:926-955 | a missing gimbal attitude is "too high"; otherwise too high exactly when `off_nadir - 90 > max_pitch`, so equality passes |
| Gate.ShouldEstimateGeopose | gisnav/gisnav/nodes/pose_estimation_node.py:275-320 | returns True exactly when altitude is present, pitch is not too high, `min_alt > 0`, and terrain is a number `>= min_alt` or a NaN other than `np.nan`; raises AssertionError exactly when altitude is present, the pitch check passes and `min_alt <= 0` |
| Gate.ShouldEstimateGeoposeNanSafe | gisnav/gisnav/nodes/pose_estimation_node.py:305-316 | the corrected gate returns True only for a numeric terrain `>= min_alt`, with the same raising condition |
| Gate.OtherNanPassesGate | gisnav/gisnav/nodes/pose_estimation_node.py:305-310 | a NaN terrain that is not `np.nan` passes the gate as written and fails the corrected gate |
| Gate.NanSafeGateAgrees | gisnav/gisnav/nodes/pose_estimation_node.py:305-310 | the two gates agree on every input whose terrain is not such a NaN |
| Gate.EulerPitchArgument | gisnav/gisnav/nodes/pose_estimation_node.py:915-917 | the two conditional assignments clamp `2(wy - zx)` to [-1, 1] |
| Gate.EulerFromQuaternion | gisnav/gisnav/nodes/pose_estimation_node.py:909-924 | roll and yaw lie in (-pi, pi]; the clamped pitch is always defined and lies in [-pi/2, pi/2]; for a unit quaternion the pitch is `asin(2(wy - zx))` of an argument already in [-1, 1] |
| Gate.UnitEulerPitchIsUnclamped | gisnav/gisnav/nodes/pose_estimation_node.py:915-918 | for a unit quaternion the pitch is `asin(2(wy - zx))` with the argument in [-1, 1] |
| Gate.UnitPitchArgumentIsUnclamped | gisnav/gisnav/nodes/pose_estimation_node.py:915-917 | for a unit quaternion the clamped argument equals the raw one |
| Geotransform.BoundingBoxToGeoCoords | gisnav/gisnav/nodes/pose_estimation_node.py:702-712 | four (lon, lat) entries: top-left, bottom-left, bottom-right, then bottom-right again |
| Geotransform.BoundingBoxCorners | gisnav/gisnav/nodes/pose_estimation_node.py:693-694 | the documented list: it keeps the first three entries and ends with top-right `(max_lon, max_lat)` |
| Geotransform.FourthCornerIsTopRightOnlyWhenFlat | gisnav/gisnav/nodes/pose_estimation_node.py:707-712 | the code's fourth corner is the documented one exactly when the box has zero height |
| Geotransform.CornersOfProperBoxAreDistinct | gisnav/gisnav/nodes/pose_estimation_node.py:693-712 | a box of positive extent has four distinct documented corners, while the code repeats one |
| Geotransform.PerimeterMeters | gisnav/gisnav/nodes/pose_estimation_node.py:868-882 | the perimeter in metres is never negative |
| Geotransform.PointBoxHasZeroPerimeter | gisnav/gisnav/nodes/pose_estimation_node.py:868-882 | a box collapsed to a point has zero perimeter |
| Geotransform.ZeroWidthBoxPerimeter | gisnav/gisnav/nodes/pose_estimation_node.py:868-882 | a box without longitudinal extent measures twice its western edge |
| Geotransform.ZScaleAsWritten | gisnav/gisnav/nodes/pose_estimation_node.py:730-734 | `perimeter_meters / perimeter_native` never raises; for a positive pixel perimeter `2·height + 2·width` it is the non-negative ratio of metric to pixel perimeter |
| Geotransform.ZScale | gisnav/gisnav/nodes/pose_estimation_node.py:730-734 | the corrected z scale exists exactly for a raster of positive perimeter, where it equals the code's quotient; it is non-negative, and times the pixel perimeter it gives the metric perimeter |
| Geotransform.PixelToGeo | gisnav/gisnav/nodes/pose_estimation_node.py:721-727 | the perspective transform from the raster's pixel corners to a given corner list is 3×3 |
| Geotransform.GeotransformationMatrixAsWritten | gisnav/gisnav/nodes/pose_estimation_node.py:717-736 | the code's geotransform, for every raster: 3×3, entry (2, 2) is the code's z-scale quotient, every other entry is the perspective transform onto the code's corner list `_boundingbox_to_geo_coords` |
| Geotransform.GeotransformationMatrix | gisnav/gisnav/nodes/pose_estimation_node.py:717-736 | the corrected geotransform is defined exactly for a raster of positive perimeter; it is 3×3, entry (2, 2) is the z scale, and every other entry is the perspective transform onto the documented corners |
| Geotransform.GetGeotransformationMatrix | gisnav/gisnav/nodes/pose_estimation_node.py:717-736 | the in-place version, with the `M[2, 2]` overwrite, returns a fresh 3×3 array equal, entry for entry, to `GeotransformationMatrixAsWritten` |
| Geotransform.FlatBoxGeotransformsAgree | gisnav/gisnav/nodes/pose_estimation_node.py:707-736 | the corrected and as-written geotransforms share their z scale, and coincide when the box has zero height, the one case where the corner lists agree |
| Alignment.CropOffset | gisnav/gisnav/nodes/pose_estimation_node.py:759-760 | `(size - crop) // 2` is the floor of half the difference, also for a crop larger than the image |
| Alignment.TranslationMatrix | gisnav/gisnav/nodes/pose_estimation_node.py:746-748 | the translation matrix is 2×3 |
| Alignment.TranslationShiftsPoints | gisnav/gisnav/nodes/pose_estimation_node.py:746-748 | it moves every homogeneous point `(x, y, 1)` to `(x + dx, y + dy)` |
| Alignment.RotationMatrix | gisnav/gisnav/nodes/pose_estimation_node.py:739-743 | the rotation is 2×3 |
| Alignment.AffineMatrix | gisnav/gisnav/nodes/pose_estimation_node.py:751-765 | the composed alignment is (2×3)·(3×3) = 2×3 |
| Alignment.TranslateAfter | gisnav/gisnav/nodes/pose_estimation_node.py:764 | translating after a 2×3 transform adds the offsets to its third column and leaves the rest alone |
| Alignment.AffineIsShiftedRotation | gisnav/gisnav/nodes/pose_estimation_node.py:751-765 | the affine is the rotation with `dx` and `dy` added to its third column |
| Alignment.UnrotatedUncroppedIsIdentity | gisnav/gisnav/nodes/pose_estimation_node.py:751-765 | 0 degrees and a crop equal to the image shape give `[[1, 0, 0], [0, 1, 0]]` |
| Alignment.AffineIsNotInvertible | gisnav/gisnav/nodes/pose_estimation_node.py:764 | `np.linalg.inv` of the stored affine always fails, because the affine is not square |
| Alignment.Homogeneous | gisnav/gisnav/nodes/pose_estimation_node.py:764 | completing the affine with `[0, 0, 1]` gives a 3×3 matrix that keeps both rows |
| Alignment.HomogeneousActsAsAffine | gisnav/gisnav/nodes/pose_estimation_node.py:764 | the completed matrix maps `(x, y, 1)` as the affine does, with a trailing 1 |
| Alignment.HomogeneousDeterminant | gisnav/gisnav/nodes/pose_estimation_node.py:764 | its determinant is that of the affine's 2×2 linear part |
| Alignment.HomogeneousInvertible | gisnav/gisnav/nodes/pose_estimation_node.py:764 | it can be inverted exactly when that 2×2 part is non-singular |
| Alignment.HomogeneousRoundTrip | gisnav/gisnav/nodes/pose_estimation_node.py:764 | when invertible, its inverse recovers every pixel position it moved |
| Matcher.PoseFromMatrices | gisnav/gisnav/nodes/pose_estimation_node.py:801-810 | the pose's position is `t`'s column |
| Matcher.PoseMessage.constructor | gisnav/gisnav/nodes/pose_estimation_node.py:799 | `Pose()` starts at the origin with the identity orientation |
| Matcher.MatricesToPose | gisnav/gisnav/nodes/pose_estimation_node.py:793-812 | a fresh message whose seven fields, set one at a time, make up the pose of `t` and the quaternion of `r` |
| Matcher.GetPose | gisnav/gisnav/nodes/pose_estimation_node.py:825-864 | a pose exists exactly when the status is 200 and both `r` and `t` are present; its position is `r.T @ t` and its orientation the quaternion of `r.T` |
| Matcher.MulFirstColumn | gisnav/gisnav/nodes/pose_estimation_node.py:851 | the single column of `r_world @ t` is `r_world` applied to `t` |
| Matcher.WorldPositionRotatesBack | gisnav/gisnav/nodes/pose_estimation_node.py:850-851 | for a rotation `r` (`r @ r.T == I`), `r` applied to the world position gives back `t` |
| Matcher.IdentityRotationKeepsTranslation | gisnav/gisnav/nodes/pose_estimation_node.py:850-853 | with `r = I` the position is `t` itself |
| PostProcess.EsuToNed | gisnav/gisnav/nodes/pose_estimation_node.py:559-565 | the ESU-to-NED matrix is 3×3 |
| PostProcess.EsuToNedSwapsAxes | gisnav/gisnav/nodes/pose_estimation_node.py:559-565 | it maps `(a, b, c)` to `(b, a, -c)` |
| PostProcess.EsuToNedIsInvolution | gisnav/gisnav/nodes/pose_estimation_node.py:559-565 | applying it twice gives the identity |
| PostProcess.EsuToNedDeterminant | gisnav/gisnav/nodes/pose_estimation_node.py:559-565 | its determinant is 1 |
| PostProcess.EsuToNedIsSelfInverse | gisnav/gisnav/nodes/pose_estimation_node.py:559-565 | inverting it succeeds and gives the matrix itself |
| PostProcess.NedRows | gisnav/gisnav/nodes/pose_estimation_node.py:559-565 | the NED reordering keeps the second row first, the first row second, and negates the third |
| PostProcess.EsuToNedReordersRows | gisnav/gisnav/nodes/pose_estimation_node.py:559-565 | multiplying by `_esu_to_ned_matrix` from the left is that row reordering |
| PostProcess.NedRowsOfProduct | gisnav/gisnav/nodes/pose_estimation_node.py:547-551 | reordering the rows of `esu_to_ned`'s right factor in a product reorders the rows of the product |
| PostProcess.GeoPosition | gisnav/gisnav/nodes/pose_estimation_node.py:510-512 | `geotransform @ inv @ t` is the geotransform applied to the inverse applied to the position |
| PostProcess.AssembleFields | gisnav/gisnav/nodes/pose_estimation_node.py:516-531 | latitude is `t_wgs84[0]` and longitude `t_wgs84[1]`; terrain and bottom clearance are `alt`; the AMSL and ellipsoid altitudes exceed `alt` by the context's terrain AMSL and terrain ellipsoid altitude |
| PostProcess.AltitudeOffsetIsPreserved | gisnav/gisnav/nodes/pose_estimation_node.py:519-529 | the AMSL altitude minus the ellipsoid altitude is the terrain's own offset, whatever the estimate |
| PostProcess.GimbalQuaternion | gisnav/gisnav/nodes/pose_estimation_node.py:539-554 | the matrix converted to the output quaternion is `inv @ R(q)` with its first two rows swapped and its third row negated |
| PostProcess.UnalignedOrientationIsAxisChange | gisnav/gisnav/nodes/pose_estimation_node.py:539-554 | with nothing to undo, the output orientation is the estimated rotation matrix reordered for NED axes |
| PostProcess.PostProcessAsWritten | gisnav/gisnav/nodes/pose_estimation_node.py:479-557 | post-processing as written raises exactly when the stored affine cannot be inverted, whatever the raster; the error is an unbound `t_wgs84` |
| PostProcess.AsWrittenPostProcessRaises | gisnav/gisnav/nodes/pose_estimation_node.py:511-516 | with the 2×3 affine that pre-processing stores, it always raises |
| PostProcess.PostProcessPose | gisnav/gisnav/nodes/pose_estimation_node.py:479-557 | the corrected stage gives a result exactly when the raster's pixel perimeter `2·height + 2·width` is positive and the completed affine is invertible; the result uses that inverse and the corrected geotransform |
| PostProcess.PostProcessUndoesAlignment | gisnav/gisnav/nodes/pose_estimation_node.py:510-531 | if the position is the completed affine applied to a tile point `q`, latitude, longitude, ellipsoid altitude and terrain altitude come from the geotransform applied to `q` itself |
| PostProcess.CompletingTheAffineAlone | gisnav/gisnav/nodes/pose_estimation_node.py:511-516 | given the completed affine, the code as written returns instead of raising, but its result still uses the geotransform onto the code's corner list |
| PostProcess.CompletedAffineAgreesOnFlatBoxes | gisnav/gisnav/nodes/pose_estimation_node.py:707-716 | for a box of zero height, where the corner bug is invisible, the code run on the completed affine computes exactly the corrected result |
| Pipeline.PoseEstimationContext | gisnav/gisnav/nodes/pose_estimation_node.py:660-681 | the context exists exactly when orthoimage, gimbal attitude, terrain altitude and terrain geopoint are all present, and it holds those values |
| Pipeline.Reshape3 | gisnav/gisnav/nodes/pose_estimation_node.py:399 | `k.reshape((3, 3))` puts `k[3i + j]` at (i, j) |
| Pipeline.Reshape3Flattens | gisnav/gisnav/nodes/pose_estimation_node.py:399 | reading the reshaped rows back gives `k` |
| Pipeline.CameraYawDegrees | gisnav/gisnav/nodes/pose_estimation_node.py:361-367 | the yaw in degrees, times pi, is `atan2(2(wz + xy), 1 - 2(y² + z²))` times 180, and it lies in (-180, 180] |
| Pipeline.CameraYawIsEulerYaw | gisnav/gisnav/nodes/pose_estimation_node.py:920-922 | that is the yaw of `_euler_from_quaternion`, in degrees |
| Pipeline.PreProcess | gisnav/gisnav/nodes/pose_estimation_node.py:322-408 | a result exists exactly when image, orthoimage, camera info and context are present; the reference and elevation have the query's shape, `k` is reshaped, and the affine rotates the orthoimage by the gimbal yaw and crops it to the query shape |
| Pipeline.IsValidPoseEstimate | gisnav/gisnav/nodes/pose_estimation_node.py:410-477 | valid exactly when a pose exists and its deviation from the gimbal-based guess is at most `radians(threshold)` |
| Pipeline.RadiansScale | gisnav/gisnav/nodes/pose_estimation_node.py:466-468 | comparing with `radians(t)` is comparing the angle times 180 with `t` times pi |
| Pipeline.ValidityIsMonotone | gisnav/gisnav/nodes/pose_estimation_node.py:466-475 | a looser threshold accepts every estimate a stricter one accepts |
| Pipeline.ToGeoPose | gisnav/gisnav/nodes/pose_estimation_node.py:610-616 | the published GeoPose carries the geopoint and quaternion unchanged |
| Pipeline.GeoposeStampedEstimateAsWritten | gisnav/gisnav/nodes/pose_estimation_node.py:579-621 | as written, the cycle returns None exactly when pre-processing fails or the estimate is invalid; it raises exactly when both pass and the stored affine cannot be inverted, and the error is then the unbound `t_wgs84` |
| Pipeline.AsWrittenNeverPublishes | gisnav/gisnav/nodes/pose_estimation_node.py:579-621 | as written, the cycle raises the unbound-`t_wgs84` error exactly when pre-processing and validation pass, and returns None otherwise, so it never publishes |
| Pipeline.GeoposeStampedEstimate | gisnav/gisnav/nodes/pose_estimation_node.py:579-621 | the corrected cycle publishes exactly when pre-processing, validation and post-processing all succeed, with position = geopoint and orientation = quaternion |
| Pipeline.MissingContextGivesNone | gisnav/gisnav/nodes/pose_estimation_node.py:579-587 | a missing context input ends the cycle with None, in both versions |
| Pipeline.FailedServiceGivesNone | gisnav/gisnav/nodes/pose_estimation_node.py:825-864 | a reply without status 200, or without both matrices, fails validation and ends the cycle with None, in both versions |
| Pipeline.CorrectionRescuesRaisingCycles | gisnav/gisnav/nodes/pose_estimation_node.py:512-516 | on every cycle where the code as written raises, the corrected one publishes exactly when the raster's pixel perimeter is positive and the completed affine is invertible |
| Pipeline.PublishedPositionIsGeotransformed | gisnav/gisnav/nodes/pose_estimation_node.py:600-616 | the published position is the tile geotransform applied to the tile point the service located |
| SuperGlue.ValidMask | wms_map_matching/superglue_adapter.py:65 | `valid[i]` holds exactly when `matches[i] > -1` |
| SuperGlue.Select | wms_map_matching/superglue_adapter.py:66 | a boolean mask selects at most as many entries as there are |
| SuperGlue.Gather | wms_map_matching/superglue_adapter.py:67 | integer indexing gives `xs[idx[k]]` at position k |
| SuperGlue.MatchedIndices | wms_map_matching/superglue_adapter.py:65 | the matched indices are strictly increasing, and contain i exactly when `matches[i] > -1` |
| SuperGlue.SelectIsGather | wms_map_matching/superglue_adapter.py:65-68 | selecting by the mask equals gathering at the matched indices |
| SuperGlue.MatchKeypoints | wms_map_matching/superglue_adapter.py:65-68 | the three outputs have one length, at most `len(kp_img)`; entry k is `kp_img[i]`, `kp_map[matches[i]]` and `conf[i]` for the k-th matched index i |
| SuperGlue.NoMatchesGiveEmptyOutputs | wms_map_matching/superglue_adapter.py:65-68 | if every match is -1, all three outputs are empty |
| SuperGlue.NoMatchedIndices | wms_map_matching/superglue_adapter.py:65 | all -1 gives no matched index |
| SuperGlue.AllMatchedIndices | wms_map_matching/superglue_adapter.py:65 | no -1 gives every index, in order |
| SuperGlue.AllMatchedKeepsEverything | wms_map_matching/superglue_adapter.py:65-68 | if every keypoint matched, `mkp_img == kp_img` and `mconf == conf` |
| SuperGlue.NatToString | wms_map_matching/superglue_adapter.py:75-76 | `str` of a length is a non-empty string of decimal digits |
| SuperGlue.ParseNatToString | wms_map_matching/superglue_adapter.py:75-76 | the printed number reads back as the number |
| SuperGlue.CaptionText | wms_map_matching/superglue_adapter.py:73-77 | the caption has three lines and starts with `SuperGlue` |
| SuperGlue.MatchesCaptionShowsCount | wms_map_matching/superglue_adapter.py:76 | the `Matches:` line shows the number of matched keypoints |
| SuperGlue.KeypointsCaptionShowsCounts | wms_map_matching/superglue_adapter.py:75 | the `Keypoints:` line has one colon, and the digits on either side read back as `len(kp_img)` and `len(kp_map)` |

## Left out

- ROS plumbing is left out: subscriptions, publication, `max_delay_ms`, node setup, parameters and logging (P:136-273). Parameter values are inputs, such as `max_pitch`, `min_match_altitude` and `attitude_deviation_threshold`, which default to 30, 80 and 10.
- The decorators `cache_if`, `enforce_types` and `assert_type` live in a module that is not part of this model. `enforce_types` is modelled only by its effect: a `None` argument makes the wrapped stage return `None`. The `cache_if` gate around `geopose_stamped_estimate` is not modelled. The gate and the cycle are separate functions.
- `enforce_types` is assumed not to catch exceptions. The `AssertionError` of the gate and the `UnboundLocalError` of post-processing therefore escape as `Raised`.
- The network call and serialisation are left out (`requests.post`, `pickle`, `json.loads`). The reply is a parameter `Response`: a status code and the arrays by key. `WellShaped` assumes the service's reply contract: `r` is 3×3 and `t` is 3×1 when present. The code would also accept a 3×p `t` with p > 1 (P:851 gives a 3×p product) and use only its first column (P:802-804); the model does not cover such replies.
- The exceptions those library calls can raise (connection errors, timeouts, malformed JSON; P:819-827) are left out. `Raised` covers only the errors of the node's own logic.
- The `GeoPoseStamped` header (`create_header`) is left out. The model publishes the `GeoPose` alone.
- The model assumes a NumPy in which `np.atan2` exists (NumPy 2.0 or later). `haversine_distance` calls it (P:970); on NumPy 1.x it raises `AttributeError`, so `_get_geotransformation_matrix` (P:509) fails before the inverse at P:512, in the corrected flow too.
- Floating point is left out: numbers are exact reals and float32 rounding is not modelled. The transcendental functions and OpenCV/SciPy results are the fields of `Numerics`. Only the facts listed in `ValidNumerics` are used about them.
- The validity check reduces to comparing the SciPy rotation magnitude, which is an oracle, with `radians(threshold)`. `_r_guess` and the `Rotation` algebra behind it are inside that oracle.
- The discarded pitch of `_get_yaw_pitch_degrees_from_quaternion` (P:364, P:368) is not modelled. Only the yaw is used.
- `cv2.warpAffine` and `imgmsg_to_cv2` are reduced to image shapes. The reference and elevation rasters have the crop shape, which the model keeps. Their pixels are not modelled.
- `cv2.getRotationMatrix2D` is an oracle. It receives the centre `(height // 2, width // 2)` in the order the code passes it. Only its 2×3 shape and its identity at 0 degrees are assumed.
- The debug FOV visualisation inside `_get_pose` (P:831-846) is left out.
- `_estimate_attitude` is left out, because its body refers to an attribute that does not exist.
- `altitude_estimate` is left out, because it only raises `NotImplementedError`.
- Python `float('nan')` values other than `np.nan` are one case, `OtherNan`. Every comparison with them is false.
- Numerics.FloatDivide: inf and NaN are not reals. For a zero divisor the model returns `divideByZero(a)`, a placeholder real, so no property depends on that value. `ZScaleAsWritten`, `GeotransformationMatrixAsWritten` and `GetGeotransformationMatrix` use it for a raster with zero pixel perimeter.
- Geotransform.ZScale: the corrected geotransform has no matrix (`None`) for a raster of zero pixel perimeter (height and width both 0), where the code's z scale is inf or NaN. A raster with one side 0 and the other positive has a positive perimeter, a finite z scale and a matrix, although it holds no pixels. `PostProcessPose` then returns `None`.
- `cv2.getPerspectiveTransform` is an oracle. Only its 3×3 shape is assumed, so the model cannot show how the repeated corner changes the matrix; the two geotransforms are related only through their corner lists.
- Matrices.Inverse: it is defined on matrices with three columns only; all the code inverts are the 2×3 affine and 3×3 matrices. Its closed form is the adjugate over the determinant.
- `Altitude` fields `monotonic`, `local` and `relative` are left out; post-processing always sets them to `None`.
- The SuperGlue network, image conversion, colour map and plotting (S:14-60, S:72-89) are left out. Keypoints are pairs of reals. `match` itself returns nothing; the model returns the three selected arrays it computes.
- SuperGlue.MatchKeypoints: it requires `matches`, `conf` and `kp_img` to have one length, as numpy's boolean indexing does. It also requires every surviving match index to be inside `kp_map`, since numpy raises `IndexError` otherwise.

## Findings

| source | as written | input that shows it | evidently intended | confidence | as-written member | corrected member |
|---|---|---|---|---|---|---|
| gisnav/gisnav/nodes/pose_estimation_node.py:707-712 | the fourth corner is `(max_lon, min_lat)`, a repeat of the third | any box with `min_lat < max_lat` | the docstring's top-right `(max_lon, max_lat)` | not executed | Geotransform.BoundingBoxToGeoCoords, Geotransform.FourthCornerIsTopRightOnlyWhenFlat | Geotransform.BoundingBoxCorners, Geotransform.CornersOfProperBoxAreDistinct, Geotransform.GeotransformationMatrix, Geotransform.FlatBoxGeotransformsAgree |
| gisnav/gisnav/nodes/pose_estimation_node.py:511-516 | `np.linalg.inv` is applied to the 2×3 affine and always fails; the `except` only logs, so the next line reads an unbound `t_wgs84` | any cycle that passes pre-processing and validation | invert the affine completed with `[0, 0, 1]`, and return `None` if that is singular | not executed | PostProcess.PostProcessAsWritten, PostProcess.AsWrittenPostProcessRaises, Pipeline.GeoposeStampedEstimateAsWritten, Pipeline.AsWrittenNeverPublishes, PostProcess.CompletingTheAffineAlone | PostProcess.PostProcessPose, PostProcess.PostProcessUndoesAlignment, Pipeline.GeoposeStampedEstimate, Pipeline.CorrectionRescuesRaisingCycles, PostProcess.CompletedAffineAgreesOnFlatBoxes |
| gisnav/gisnav/nodes/pose_estimation_node.py:305-310 | only the `np.nan` object is caught by `is np.nan`; another NaN makes `terrain < min_alt` false and passes | terrain `float('nan')`, pitch within limits, `min_alt = 80` | an undeterminable terrain altitude skips the estimate | not executed | Gate.ShouldEstimateGeopose, Gate.OtherNanPassesGate | Gate.ShouldEstimateGeoposeNanSafe, Gate.NanSafeGateAgrees |
