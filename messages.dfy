/**
 * The ROS messages the pose-estimation node reads and writes, reduced to
 * the fields the modelled logic touches. Images are represented by their
 * shape only: pixel contents never influence the modelled decisions.
 */
module Messages {

  /** `geometry_msgs/Quaternion`, stored (x, y, z, w) as in ROS. */
  datatype Quaternion = Quaternion(x: real, y: real, z: real, w: real)

  /** `geometry_msgs/Point`. */
  datatype Point = Point(x: real, y: real, z: real)

  /** `geometry_msgs/Pose`. */
  datatype Pose = Pose(position: Point, orientation: Quaternion)

  /** `geographic_msgs/GeoPoint`: WGS 84 degrees and ellipsoid altitude in metres. */
  datatype GeoPoint = GeoPoint(latitude: real, longitude: real, altitude: real)

  /** `geographic_msgs/GeoPointStamped`, header left out. */
  datatype GeoPointStamped = GeoPointStamped(position: GeoPoint)

  /** `geographic_msgs/GeoPose`. */
  datatype GeoPose = GeoPose(position: GeoPoint, orientation: Quaternion)

  /** `geographic_msgs/BoundingBox`. */
  datatype BoundingBox = BoundingBox(minPt: GeoPoint, maxPt: GeoPoint)

  /**
   * A float field as the gate sees it: a number, the `np.nan` object
   * itself, or some other NaN value (for example one produced by
   * arithmetic), which is not identical to `np.nan`.
   */
  datatype Reading = Number(v: real) | NumpyNan | OtherNan

  /** `mavros_msgs/Altitude`, without the fields the node sets to `None`. */
  datatype Altitude = Altitude(amsl: real, terrain: Reading, bottomClearance: real)

  /** `sensor_msgs/Image`, by shape. */
  datatype Image = Image(height: nat, width: nat)

  /** `gisnav_msgs/OrthoImage3D`: orthophoto (the DEM has the same shape) and its bounding box. */
  datatype OrthoImage3D = OrthoImage3D(img: Image, bbox: BoundingBox)

  /** `sensor_msgs/CameraInfo`: the nine row-major entries of the intrinsic matrix `k`. */
  datatype CameraInfo = CameraInfo(k: seq<real>)
}
