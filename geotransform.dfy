/**
 * Orthoimage tile geometry: the corner list of a bounding box
 * (`_boundingbox_to_geo_coords`), its perimeter in metres
 * (`_bounding_box_perimeter_meters`) and the pixel-to-WGS 84
 * geotransformation whose (2, 2) entry is overwritten with a z scale
 * (`_get_geotransformation_matrix`).
 */
module Geotransform {
  import opened Wrappers
  import opened Messages
  import opened Matrices
  import opened Numerics

  /**
   * `_boundingbox_to_geo_coords` as written: (longitude, latitude) pairs.
   * The docstring promises top-left, bottom-left, bottom-right, top-right,
   * but the fourth entry repeats the bottom-right corner.
   */
  function BoundingBoxToGeoCoords(bbox: BoundingBox): (corners: seq<Point2>)
    ensures |corners| == 4
    ensures corners[0] == (bbox.minPt.longitude, bbox.maxPt.latitude)
    ensures corners[1] == (bbox.minPt.longitude, bbox.minPt.latitude)
    ensures corners[2] == (bbox.maxPt.longitude, bbox.minPt.latitude)
    ensures corners[3] == corners[2]
  {
    var minLon, minLat := bbox.minPt.longitude, bbox.minPt.latitude;
    var maxLon, maxLat := bbox.maxPt.longitude, bbox.maxPt.latitude;
    [(minLon, maxLat), (minLon, minLat), (maxLon, minLat), (maxLon, minLat)]
  }

  /** The corner list in the documented order, ending with the top-right corner. */
  function BoundingBoxCorners(bbox: BoundingBox): (corners: seq<Point2>)
    ensures |corners| == 4
    ensures corners[..3] == BoundingBoxToGeoCoords(bbox)[..3]
    ensures corners[3] == (bbox.maxPt.longitude, bbox.maxPt.latitude)
  {
    var minLon, minLat := bbox.minPt.longitude, bbox.minPt.latitude;
    var maxLon, maxLat := bbox.maxPt.longitude, bbox.maxPt.latitude;
    [(minLon, maxLat), (minLon, minLat), (maxLon, minLat), (maxLon, maxLat)]
  }

  /** The code's fourth corner is the documented top-right one only for a box of zero height. */
  lemma FourthCornerIsTopRightOnlyWhenFlat(bbox: BoundingBox)
    ensures BoundingBoxToGeoCoords(bbox)[3] == BoundingBoxCorners(bbox)[3]
        <==> bbox.minPt.latitude == bbox.maxPt.latitude
  {
  }

  /** A box with positive width and height has four distinct corners in the documented order. */
  lemma CornersOfProperBoxAreDistinct(bbox: BoundingBox)
    requires bbox.minPt.longitude < bbox.maxPt.longitude && bbox.minPt.latitude < bbox.maxPt.latitude
    ensures forall i, j :: 0 <= i < j < 4 ==> BoundingBoxCorners(bbox)[i] != BoundingBoxCorners(bbox)[j]
    ensures BoundingBoxToGeoCoords(bbox)[2] == BoundingBoxToGeoCoords(bbox)[3]
  {
  }

  /**
   * `_bounding_box_perimeter_meters`: twice the width measured along the
   * southern edge plus twice the height measured along the western edge.
   */
  function PerimeterMeters(nx: Numerics, bbox: BoundingBox): (meters: real)
    requires ValidNumerics(nx)
    ensures meters >= 0.0
  {
    var widthMeters := nx.haversine(bbox.minPt.latitude, bbox.minPt.longitude,
                                    bbox.minPt.latitude, bbox.maxPt.longitude);
    var heightMeters := nx.haversine(bbox.minPt.latitude, bbox.minPt.longitude,
                                     bbox.maxPt.latitude, bbox.minPt.longitude);
    2.0 * widthMeters + 2.0 * heightMeters
  }

  /** A box that collapses to its minimum corner has zero perimeter. */
  lemma PointBoxHasZeroPerimeter(nx: Numerics, bbox: BoundingBox)
    requires ValidNumerics(nx)
    requires bbox.maxPt.latitude == bbox.minPt.latitude && bbox.maxPt.longitude == bbox.minPt.longitude
    ensures PerimeterMeters(nx, bbox) == 0.0
  {
  }

  /** A box without longitudinal extent measures twice its height. */
  lemma ZeroWidthBoxPerimeter(nx: Numerics, bbox: BoundingBox)
    requires ValidNumerics(nx)
    requires bbox.maxPt.longitude == bbox.minPt.longitude
    ensures PerimeterMeters(nx, bbox)
         == 2.0 * nx.haversine(bbox.minPt.latitude, bbox.minPt.longitude, bbox.maxPt.latitude, bbox.minPt.longitude)
  {
  }

  /** The perimeter of the raster in pixels, `2 * height + 2 * width`. */
  function NativePerimeter(img: Image): nat {
    2 * img.height + 2 * img.width
  }

  /**
   * Metres per raster unit, `perimeter_meters / perimeter_native`, as the
   * code divides: for a raster of zero pixel perimeter (height and width
   * both 0) numpy yields a non-finite float instead of raising.
   */
  function ZScaleAsWritten(nx: Numerics, ortho: OrthoImage3D): (z: real)
    requires ValidNumerics(nx)
    ensures NativePerimeter(ortho.img) > 0 ==> z * NativePerimeter(ortho.img) as real == PerimeterMeters(nx, ortho.bbox) && z >= 0.0
  {
    var native := NativePerimeter(ortho.img);
    var meters := PerimeterMeters(nx, ortho.bbox);
    if native == 0 then FloatDivide(nx, meters, native as real)
    else
      QuotientTimesDivisor(meters, native as real);
      FloatDivide(nx, meters, native as real)
  }

  /**
   * The z scale of the corrected geotransformation: `None` for a raster
   * of zero pixel perimeter (height and width both 0), which has no
   * meaningful scale; any positive pixel perimeter gives the quotient.
   */
  function ZScale(nx: Numerics, ortho: OrthoImage3D): (z: Option<real>)
    requires ValidNumerics(nx)
    ensures z.Some? <==> NativePerimeter(ortho.img) > 0
    ensures z.Some? ==> z.value == ZScaleAsWritten(nx, ortho)
    ensures z.Some? ==> z.value * NativePerimeter(ortho.img) as real == PerimeterMeters(nx, ortho.bbox)
    ensures z.Some? ==> z.value >= 0.0
  {
    if NativePerimeter(ortho.img) == 0 then None
    else Some(ZScaleAsWritten(nx, ortho))
  }

  lemma QuotientTimesDivisor(p: real, n: real)
    requires n > 0.0 && p >= 0.0
    ensures (p / n) * n == p && p / n >= 0.0
  {
  }

  /** The perspective transform from the raster's pixel corners to the given geographic corners. */
  function PixelToGeo(nx: Numerics, ortho: OrthoImage3D, corners: seq<Point2>): (m: Matrix)
    requires ValidNumerics(nx)
    ensures IsMatrix(m, 3, 3)
  {
    nx.perspectiveTransform(nx.srcCorners(ortho.img.height, ortho.img.width), corners)
  }

  /**
   * `_get_geotransformation_matrix` as written: the perspective transform
   * onto the code's corner list, with its (2, 2) entry replaced by the z
   * scale and all other entries unchanged.
   */
  function GeotransformationMatrixAsWritten(nx: Numerics, ortho: OrthoImage3D): (g: Matrix)
    requires ValidNumerics(nx)
    ensures IsMatrix(g, 3, 3)
    ensures g[2][2] == ZScaleAsWritten(nx, ortho)
    ensures forall i, j :: 0 <= i < 3 && 0 <= j < 3 && (i, j) != (2, 2) ==>
              g[i][j] == PixelToGeo(nx, ortho, BoundingBoxToGeoCoords(ortho.bbox))[i][j]
  {
    WithEntry(PixelToGeo(nx, ortho, BoundingBoxToGeoCoords(ortho.bbox)), 2, 2, ZScaleAsWritten(nx, ortho))
  }

  /**
   * The corrected geotransformation: the perspective transform onto the
   * documented corner list, and no matrix at all for a raster of zero pixel perimeter.
   */
  function GeotransformationMatrix(nx: Numerics, ortho: OrthoImage3D): (g: Option<Matrix>)
    requires ValidNumerics(nx)
    ensures g.Some? <==> NativePerimeter(ortho.img) > 0
    ensures g.Some? ==> IsMatrix(g.value, 3, 3)
    ensures g.Some? ==> g.value[2][2] * NativePerimeter(ortho.img) as real == PerimeterMeters(nx, ortho.bbox)
    ensures g.Some? ==> forall i, j :: 0 <= i < 3 && 0 <= j < 3 && (i, j) != (2, 2) ==>
              g.value[i][j] == PixelToGeo(nx, ortho, BoundingBoxCorners(ortho.bbox))[i][j]
  {
    match ZScale(nx, ortho)
    case None => None
    case Some(z) => Some(WithEntry(PixelToGeo(nx, ortho, BoundingBoxCorners(ortho.bbox)), 2, 2, z))
  }

  /**
   * The two geotransformations share their z scale, and they coincide
   * exactly where the corner lists do: for a box of zero height.
   */
  lemma {:induction false} FlatBoxGeotransformsAgree(nx: Numerics, ortho: OrthoImage3D)
    requires ValidNumerics(nx) && NativePerimeter(ortho.img) > 0
    ensures GeotransformationMatrix(nx, ortho).value[2][2] == GeotransformationMatrixAsWritten(nx, ortho)[2][2]
    ensures ortho.bbox.minPt.latitude == ortho.bbox.maxPt.latitude ==>
              GeotransformationMatrix(nx, ortho).value == GeotransformationMatrixAsWritten(nx, ortho)
  {
    if ortho.bbox.minPt.latitude == ortho.bbox.maxPt.latitude {
      var written, documented := BoundingBoxToGeoCoords(ortho.bbox), BoundingBoxCorners(ortho.bbox);
      assert written == documented by {
        assert written[..3] == documented[..3];
        assert written[3] == documented[3];
      }
    }
  }

  /**
   * `_get_geotransformation_matrix` as the code runs it: a fresh 3x3 array
   * filled from the perspective transform, whose (2, 2) element is then
   * overwritten in place.
   */
  method GetGeotransformationMatrix(nx: Numerics, ortho: OrthoImage3D) returns (m: array2<real>)
    requires ValidNumerics(nx)
    ensures fresh(m) && m.Length0 == 3 && m.Length1 == 3
    ensures forall i, j :: 0 <= i < 3 && 0 <= j < 3 ==> m[i, j] == GeotransformationMatrixAsWritten(nx, ortho)[i][j]
  {
    var perspective := PixelToGeo(nx, ortho, BoundingBoxToGeoCoords(ortho.bbox));
    m := new real[3, 3]((i, j) => if 0 <= i < 3 && 0 <= j < 3 then perspective[i][j] else 0.0);
    var perimeterNative := NativePerimeter(ortho.img);
    var perimeterMeters := PerimeterMeters(nx, ortho.bbox);
    m[2, 2] := FloatDivide(nx, perimeterMeters, perimeterNative as real);
  }
}
