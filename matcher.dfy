/**
 * Handling of the pose service's reply (`_get_pose`): status and key
 * checks, the conversion from the camera-intrinsic frame to the world
 * frame, and the field-by-field construction of the `Pose` message
 * (`_matrices_to_pose`).
 */
module Matcher {
  import opened Wrappers
  import opened Messages
  import opened Matrices
  import opened Numerics

  /** The pose service's reply after `json.loads`: the status code and the arrays by key. */
  datatype Response = Response(statusCode: int, data: map<string, Matrix>)

  /** The service's shape contract: `r` is 3x3 and `t` is 3x1 whenever they are sent. */
  predicate WellShaped(resp: Response) {
    && ("r" in resp.data ==> IsMatrix(resp.data["r"], 3, 3))
    && ("t" in resp.data ==> IsMatrix(resp.data["t"], 3, 1))
  }

  /** A point as the column vector `[x, y, z]`. */
  function PointVector(p: Point): (v: Vector)
    ensures |v| == 3
  {
    [p.x, p.y, p.z]
  }

  /** The `Pose` that `_matrices_to_pose` fills in: position from the column `t`, orientation from `r`. */
  function PoseFromMatrices(nx: Numerics, r: Matrix, t: Matrix): (p: Pose)
    requires IsMatrix(t, 3, 1)
    ensures PointVector(p.position) == Column(t, 0)
  {
    Pose(Point(t[0][0], t[1][0], t[2][0]), nx.matrixAsQuat(r))
  }

  /** A mutable `geometry_msgs/Pose`, as the code fills it in one field at a time. */
  class PoseMessage {
    var positionX: real
    var positionY: real
    var positionZ: real
    var orientationX: real
    var orientationY: real
    var orientationZ: real
    var orientationW: real

    function Value(): Pose
      reads this
    {
      Pose(Point(positionX, positionY, positionZ),
           Quaternion(orientationX, orientationY, orientationZ, orientationW))
    }

    /** `Pose()`: the origin with the identity orientation, the ROS defaults. */
    constructor ()
      ensures Value() == Pose(Point(0.0, 0.0, 0.0), Quaternion(0.0, 0.0, 0.0, 1.0))
    {
      positionX, positionY, positionZ := 0.0, 0.0, 0.0;
      orientationX, orientationY, orientationZ, orientationW := 0.0, 0.0, 0.0, 1.0;
    }
  }

  /** `_matrices_to_pose`: a new message whose fields are set one by one from `t` and the quaternion of `r`. */
  method MatricesToPose(nx: Numerics, r: Matrix, t: Matrix) returns (pose: PoseMessage)
    requires IsMatrix(t, 3, 1)
    ensures fresh(pose)
    ensures pose.Value() == PoseFromMatrices(nx, r, t)
  {
    var quaternion := nx.matrixAsQuat(r);
    pose := new PoseMessage();
    pose.positionX := t[0][0];
    pose.positionY := t[1][0];
    pose.positionZ := t[2][0];
    pose.orientationX := quaternion.x;
    pose.orientationY := quaternion.y;
    pose.orientationZ := quaternion.z;
    pose.orientationW := quaternion.w;
  }

  /**
   * `_get_pose` once the reply is in: `None` unless the status is 200 and
   * both `r` and `t` are present; otherwise the pose of `r_world = r.T`,
   * `t_world = r_world @ t`.
   */
  function GetPose(nx: Numerics, resp: Response): (pose: Option<Pose>)
    requires WellShaped(resp)
    ensures pose.Some? <==> resp.statusCode == 200 && "r" in resp.data && "t" in resp.data
    ensures pose.Some? ==>
              PointVector(pose.value.position) == MatVec(Transpose(resp.data["r"], 3), Column(resp.data["t"], 0))
    ensures pose.Some? ==> pose.value.orientation == nx.matrixAsQuat(Transpose(resp.data["r"], 3))
  {
    if resp.statusCode != 200 then None
    else if "r" !in resp.data || "t" !in resp.data then None
    else
      var r, t := resp.data["r"], resp.data["t"];
      var rWorld := Transpose(r, 3);
      var tWorld := Mul(rWorld, t);
      MulFirstColumn(rWorld, t);
      Some(PoseFromMatrices(nx, rWorld, tWorld))
  }

  /** The single column of `a @ t` is `a` applied to the column of `t`. */
  lemma MulFirstColumn(a: Matrix, t: Matrix)
    requires IsMatrix(a, 3, 3) && IsMatrix(t, 3, 1)
    ensures Column(Mul(a, t), 0) == MatVec(a, Column(t, 0))
  {
  }

  /**
   * For a rotation `r` (`r @ r.T == I`) the world position undoes the
   * rotation: `r @ position == t`.
   */
  lemma WorldPositionRotatesBack(nx: Numerics, resp: Response)
    requires WellShaped(resp) && GetPose(nx, resp).Some?
    requires Mul(resp.data["r"], Transpose(resp.data["r"], 3)) == Identity(3)
    ensures MatVec(resp.data["r"], PointVector(GetPose(nx, resp).value.position)) == Column(resp.data["t"], 0)
  {
    var r, t := resp.data["r"], resp.data["t"];
    var v := Column(t, 0);
    MatVecMul3(r, Transpose(r, 3), v);
    IdentityMatVec(v);
  }

  /** With the identity rotation the position is `t` itself. */
  lemma IdentityRotationKeepsTranslation(nx: Numerics, t: Matrix)
    requires IsMatrix(t, 3, 1)
    ensures GetPose(nx, Response(200, map["r" := Identity(3), "t" := t])).value.position == Point(t[0][0], t[1][0], t[2][0])
  {
    var resp := Response(200, map["r" := Identity(3), "t" := t]);
    MatrixEq(Transpose(Identity(3), 3), Identity(3), 3, 3);
    IdentityMatVec(Column(t, 0));
  }
}
