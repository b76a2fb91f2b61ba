/**
 * Post-processing of an estimated pose (`_post_process_pose`,
 * `_esu_to_ned_matrix`): the position is taken back through the inverse
 * of the alignment affine and the tile's geotransformation into WGS 84,
 * the altitudes are assembled from the context, and the orientation is
 * converted from ESU to NED axes. The stage is modelled as written and
 * corrected: the corrected stage inverts the completed 3x3 affine and
 * geotransforms onto the documented corner list.
 */
module PostProcess {
  import opened Wrappers
  import opened Messages
  import opened Matrices
  import opened Numerics
  import opened Geotransform
  import opened Alignment
  import opened Matcher

  /** `_PoseEstimationContext`: the inputs frozen together with the query image. */
  datatype Context = Context(
    orthoimage: OrthoImage3D,
    gimbalQuaternion: Quaternion,
    terrainAltitude: Altitude,
    terrainGeopoint: GeoPointStamped)

  /** `_PoseEstimationIntermediateOutputs`: the alignment affine and the yaw it used. */
  datatype IntermediateOutputs = IntermediateOutputs(affine: Matrix, cameraYawDegrees: real)

  /** The `(geopoint, altitude, quaternion)` triple that post-processing returns. */
  datatype PostProcessed = PostProcessed(geopoint: GeoPoint, altitude: Altitude, quaternion: Quaternion)

  /** `_esu_to_ned_matrix`: East to North, South to East, Up to Down. */
  function EsuToNed(): (e: Matrix)
    ensures IsMatrix(e, 3, 3)
  {
    M3(0.0, 1.0, 0.0,
       1.0, 0.0, 0.0,
       0.0, 0.0, -1.0)
  }

  /** The matrix swaps the first two axes and flips the third. */
  lemma EsuToNedSwapsAxes(a: real, b: real, c: real)
    ensures MatVec(EsuToNed(), [a, b, c]) == [b, a, -c]
  {
    var e, v := EsuToNed(), [a, b, c];
    Dot3(e[0], v);
    Dot3(e[1], v);
    Dot3(e[2], v);
    assert MatVec(e, v)[0] == b;
    assert MatVec(e, v)[1] == a;
    assert MatVec(e, v)[2] == -c;
  }

  /** Applying the conversion twice gives the identity. */
  lemma EsuToNedIsInvolution()
    ensures Mul(EsuToNed(), EsuToNed()) == Identity(3)
  {
    var one := M3(1.0, 0.0, 0.0, 0.0, 1.0, 0.0, 0.0, 0.0, 1.0);
    MulM3(0.0, 1.0, 0.0, 1.0, 0.0, 0.0, 0.0, 0.0, -1.0,
          0.0, 1.0, 0.0, 1.0, 0.0, 0.0, 0.0, 0.0, -1.0);
    assert Mul(EsuToNed(), EsuToNed()) == one;
    Matrix3Eq(one, Identity(3));
  }

  /** The conversion preserves orientation: its determinant is 1. */
  lemma EsuToNedDeterminant()
    ensures Det3(EsuToNed()) == 1.0
  {
  }

  /** The conversion is invertible and is its own inverse. */
  lemma EsuToNedIsSelfInverse()
    ensures Inverse(EsuToNed()) == Some(EsuToNed())
  {
    var inv := Inverse(EsuToNed()).value;
    assert Adjugate3(EsuToNed()) == AdjugateOf(0.0, 1.0, 0.0, 1.0, 0.0, 0.0, 0.0, 0.0, -1.0);
    MatrixEq(inv, EsuToNed(), 3, 3);
  }

  /** The rows of `m` in NED order: the second, the first, and the third negated. */
  function NedRows(m: Matrix): (r: Matrix)
    requires IsMatrix(m, 3, 3)
    ensures IsMatrix(r, 3, 3) && r[0] == m[1] && r[1] == m[0]
    ensures forall j :: 0 <= j < 3 ==> r[2][j] == -m[2][j]
  {
    M3(m[1][0], m[1][1], m[1][2], m[0][0], m[0][1], m[0][2], -m[2][0], -m[2][1], -m[2][2])
  }

  /** Multiplying by the ESU-to-NED matrix from the left reorders rows. */
  lemma EsuToNedReordersRows(m: Matrix)
    requires IsMatrix(m, 3, 3)
    ensures Mul(EsuToNed(), m) == NedRows(m)
  {
    var e := EsuToNed();
    Mul3Entry(e, m, 0, 0); Mul3Entry(e, m, 0, 1); Mul3Entry(e, m, 0, 2);
    Mul3Entry(e, m, 1, 0); Mul3Entry(e, m, 1, 1); Mul3Entry(e, m, 1, 2);
    Mul3Entry(e, m, 2, 0); Mul3Entry(e, m, 2, 1); Mul3Entry(e, m, 2, 2);
    Matrix3Eq(Mul(e, m), NedRows(m));
  }

  /** Reordering the rows of the left factor reorders the rows of the product. */
  lemma NedRowsOfProduct(a: Matrix, b: Matrix)
    requires IsMatrix(a, 3, 3) && IsMatrix(b, 3, 3)
    ensures Mul(NedRows(a), b) == NedRows(Mul(a, b))
  {
    var n := NedRows(a);
    forall j | 0 <= j < 3
      ensures Mul(n, b)[0][j] == NedRows(Mul(a, b))[0][j]
      ensures Mul(n, b)[1][j] == NedRows(Mul(a, b))[1][j]
      ensures Mul(n, b)[2][j] == NedRows(Mul(a, b))[2][j]
    {
      Mul3Entry(n, b, 0, j); Mul3Entry(a, b, 1, j);
      Mul3Entry(n, b, 1, j); Mul3Entry(a, b, 0, j);
      Mul3Entry(n, b, 2, j); Mul3Entry(a, b, 2, j);
    }
    Matrix3Eq(Mul(n, b), NedRows(Mul(a, b)));
  }

  /** `t_wgs84 = geotransform @ inv(affine) @ t`: the position carried into the tile's geo frame. */
  function GeoPosition(geotransform: Matrix, affineInverse: Matrix, position: Point): (tWgs84: Vector)
    requires IsMatrix(geotransform, 3, 3) && IsMatrix(affineInverse, 3, 3)
    ensures tWgs84 == MatVec(geotransform, MatVec(affineInverse, PointVector(position)))
  {
    MatVecMul3(geotransform, affineInverse, PointVector(position));
    MatVec(Mul(geotransform, affineInverse), PointVector(position))
  }

  /**
   * The `GeoPoint` and `Altitude` built from `t_wgs84`: latitude and
   * longitude are its first two coordinates and `alt = t_wgs84[2]` is the
   * height above the terrain, from which the other altitudes follow.
   */
  function AssembleFields(tWgs84: Vector, context: Context): (r: (GeoPoint, Altitude))
    requires |tWgs84| == 3
    ensures r.0.latitude == tWgs84[0] && r.0.longitude == tWgs84[1]
    ensures r.1.terrain == Number(tWgs84[2]) && r.1.bottomClearance == tWgs84[2]
    ensures r.1.amsl - tWgs84[2] == context.terrainAltitude.amsl
    ensures r.0.altitude - tWgs84[2] == context.terrainGeopoint.position.altitude
  {
    var lon, lat := tWgs84[1], tWgs84[0];
    var alt := tWgs84[2];
    var altitude := Altitude(alt + context.terrainAltitude.amsl, Number(alt), alt);
    var geopoint := GeoPoint(lat, lon, alt + context.terrainGeopoint.position.altitude);
    (geopoint, altitude)
  }

  /**
   * Whatever the estimate, the AMSL altitude and the ellipsoid altitude
   * differ by exactly the terrain's own AMSL-minus-ellipsoid offset.
   */
  lemma AltitudeOffsetIsPreserved(tWgs84: Vector, context: Context)
    requires |tWgs84| == 3
    ensures var (geopoint, altitude) := AssembleFields(tWgs84, context);
            altitude.amsl - geopoint.altitude
            == context.terrainAltitude.amsl - context.terrainGeopoint.position.altitude
  {
  }

  /**
   * `esu_to_ned @ inv(affine) @ r`, converted back to a quaternion: the
   * matrix handed to the conversion is `inv(affine) @ r` with its first
   * two rows swapped and its third row negated.
   */
  function GimbalQuaternion(nx: Numerics, affineInverse: Matrix, orientation: Quaternion): (q: Quaternion)
    requires ValidNumerics(nx) && IsMatrix(affineInverse, 3, 3)
    ensures q == nx.rotationMatrixToQuaternion(NedRows(Mul(affineInverse, nx.quaternionToRotationMatrix(orientation))))
  {
    var r := nx.quaternionToRotationMatrix(orientation);
    EsuToNedReordersRows(affineInverse);
    NedRowsOfProduct(affineInverse, r);
    nx.rotationMatrixToQuaternion(Mul(Mul(EsuToNed(), affineInverse), r))
  }

  /** With nothing to undo, the orientation only changes axes: the rows of `R(q)`, reordered for NED. */
  lemma UnalignedOrientationIsAxisChange(nx: Numerics, orientation: Quaternion)
    requires ValidNumerics(nx)
    ensures GimbalQuaternion(nx, Identity(3), orientation)
         == nx.rotationMatrixToQuaternion(NedRows(nx.quaternionToRotationMatrix(orientation)))
  {
    var r := nx.quaternionToRotationMatrix(orientation);
    IdentityMul3(r);
  }

  /** Both stages once the geotransform and the inverse affine are known. */
  function Finish(nx: Numerics, pose: Pose, geotransform: Matrix, affineInverse: Matrix, context: Context): PostProcessed
    requires ValidNumerics(nx) && IsMatrix(geotransform, 3, 3) && IsMatrix(affineInverse, 3, 3)
  {
    var (geopoint, altitude) := AssembleFields(GeoPosition(geotransform, affineInverse, pose.position), context);
    PostProcessed(geopoint, altitude, GimbalQuaternion(nx, affineInverse, pose.orientation))
  }

  /**
   * `_post_process_pose` as written: the geotransformation onto the code's
   * corner list, and `np.linalg.inv` applied to the affine exactly as
   * stored. When the inverse fails, the `except` branch only logs, and the
   * next statement reads the unassigned `t_wgs84`. Once the first inverse
   * succeeds, the second one (for the orientation) succeeds too, so the
   * stage never returns `None`.
   */
  function PostProcessAsWritten(nx: Numerics, pose: Pose, intermediate: IntermediateOutputs, context: Context)
    : (r: Outcome<PostProcessed>)
    requires ValidNumerics(nx) && IsMatrix(intermediate.affine, |intermediate.affine|, 3)
    ensures r.Raised? <==> Inverse(intermediate.affine).None?
    ensures r.Raised? ==> r.error == UnboundLocalError("t_wgs84")
  {
    var geotransform := GeotransformationMatrixAsWritten(nx, context.orthoimage);
    match Inverse(intermediate.affine)
    case None => Raised(UnboundLocalError("t_wgs84"))
    case Some(affineInverse) => Returned(Finish(nx, pose, geotransform, affineInverse, context))
  }

  /** The affine the pre-processing stores is 2x3, so the code as written always raises. */
  lemma {:induction false} AsWrittenPostProcessRaises(nx: Numerics, pose: Pose, intermediate: IntermediateOutputs, context: Context)
    requires ValidNumerics(nx) && IsMatrix(intermediate.affine, 2, 3)
    ensures PostProcessAsWritten(nx, pose, intermediate, context) == Raised(UnboundLocalError("t_wgs84"))
  {
  }

  /**
   * The corrected post-processing: the 2x3 affine is completed with the
   * row `[0, 0, 1]` before it is inverted, the geotransformation uses the
   * documented corners, and a raster of zero pixel perimeter or a singular matrix makes the
   * stage return `None` instead of falling through.
   */
  function PostProcessPose(nx: Numerics, pose: Pose, intermediate: IntermediateOutputs, context: Context)
    : (r: Option<PostProcessed>)
    requires ValidNumerics(nx) && IsMatrix(intermediate.affine, 2, 3)
    ensures r.Some? <==> NativePerimeter(context.orthoimage.img) > 0 && Inverse(Homogeneous(intermediate.affine)).Some?
    ensures r.Some? ==>
              r.value == Finish(nx, pose, GeotransformationMatrix(nx, context.orthoimage).value,
                                Inverse(Homogeneous(intermediate.affine)).value, context)
  {
    var geotransform := GeotransformationMatrix(nx, context.orthoimage);
    var affineInverse := Inverse(Homogeneous(intermediate.affine));
    if geotransform.None? || affineInverse.None? then None
    else Some(Finish(nx, pose, geotransform.value, affineInverse.value, context))
  }

  /**
   * Round trip: if the estimated position is the image of a tile-frame
   * point `q` under the completed affine, the geo position is the
   * geotransform applied to `q` itself, so the alignment is undone.
   */
  lemma {:induction false} PostProcessUndoesAlignment(nx: Numerics, pose: Pose, intermediate: IntermediateOutputs, context: Context, q: Vector)
    requires ValidNumerics(nx) && IsMatrix(intermediate.affine, 2, 3) && |q| == 3
    requires NativePerimeter(context.orthoimage.img) > 0
    requires Inverse(Homogeneous(intermediate.affine)).Some?
    requires PointVector(pose.position) == MatVec(Homogeneous(intermediate.affine), q)
    ensures var r := PostProcessPose(nx, pose, intermediate, context).value;
            var g := MatVec(GeotransformationMatrix(nx, context.orthoimage).value, q);
            r.geopoint.latitude == g[0] && r.geopoint.longitude == g[1]
            && r.geopoint.altitude == g[2] + context.terrainGeopoint.position.altitude
            && r.altitude.terrain == Number(g[2])
  {
    var h := Homogeneous(intermediate.affine);
    HomogeneousDeterminant(intermediate.affine);
    InverseRoundTrip(h, q);
  }

  /**
   * Completing the affine alone is not the whole correction: the code as
   * written, given the completed affine, no longer raises, but it still
   * geotransforms onto the code's own corner list.
   */
  lemma {:induction false} CompletingTheAffineAlone(nx: Numerics, pose: Pose, intermediate: IntermediateOutputs, context: Context)
    requires ValidNumerics(nx) && IsMatrix(intermediate.affine, 2, 3)
    requires Inverse(Homogeneous(intermediate.affine)).Some?
    ensures var completed := IntermediateOutputs(Homogeneous(intermediate.affine), intermediate.cameraYawDegrees);
            PostProcessAsWritten(nx, pose, completed, context)
            == Returned(Finish(nx, pose, GeotransformationMatrixAsWritten(nx, context.orthoimage),
                               Inverse(Homogeneous(intermediate.affine)).value, context))
  {
  }

  /**
   * Where the corner lists coincide (a box of zero height), the code as
   * written given the completed affine computes exactly what the corrected
   * stage computes.
   */
  lemma {:induction false} CompletedAffineAgreesOnFlatBoxes(nx: Numerics, pose: Pose, intermediate: IntermediateOutputs, context: Context)
    requires ValidNumerics(nx) && IsMatrix(intermediate.affine, 2, 3)
    requires NativePerimeter(context.orthoimage.img) > 0
    requires Inverse(Homogeneous(intermediate.affine)).Some?
    requires context.orthoimage.bbox.minPt.latitude == context.orthoimage.bbox.maxPt.latitude
    ensures var completed := IntermediateOutputs(Homogeneous(intermediate.affine), intermediate.cameraYawDegrees);
            PostProcessPose(nx, pose, intermediate, context).Some?
            && PostProcessAsWritten(nx, pose, completed, context) == Returned(PostProcessPose(nx, pose, intermediate, context).value)
  {
    FlatBoxGeotransformsAgree(nx, context.orthoimage);
  }
}
