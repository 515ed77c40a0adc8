/** Monocular range and position estimates from bounding-box geometry
    (pinhole model), the box centre used by the target-zone gate, and the
    focal-length calibration formula. Floating point is modelled as `real`;
    rounding is not modelled. */
module Geometry {

  datatype Position = Position(x: real, y: real, z: real)

  const Origin := Position(0.0, 0.0, 0.0)

  /** `calculate_distance`: the pinhole range estimate
      realWidth * focalLength / pixelWidth, or the sentinel 0 when the pixel
      width or the focal length is not positive. */
  function Distance(pixelWidth: int, realWidth: real, focalLength: real): (d: real)
    ensures pixelWidth <= 0 || focalLength <= 0.0 ==> d == 0.0
    ensures pixelWidth > 0 && focalLength > 0.0 ==> d * (pixelWidth as real) == realWidth * focalLength
    ensures pixelWidth > 0 && focalLength > 0.0 ==> (d > 0.0 <==> realWidth > 0.0)
  {
    if pixelWidth > 0 && focalLength > 0.0 then
      var d := realWidth * focalLength / (pixelWidth as real);
      DividedBack(realWidth * focalLength, pixelWidth as real);
      d
    else 0.0
  }

  lemma DividedBack(n: real, m: real)
    requires m > 0.0
    ensures (n / m) * m == n
    ensures n / m > 0.0 <==> n > 0.0
  {
  }

  /** A wider box means a nearer object: for a positive real width and focal
      length the estimate strictly decreases as the pixel width grows. */
  lemma {:induction false} DistanceDecreasesWithWidth(w1: int, w2: int, realWidth: real, focalLength: real)
    requires 0 < w1 < w2 && realWidth > 0.0 && focalLength > 0.0
    ensures Distance(w1, realWidth, focalLength) > Distance(w2, realWidth, focalLength) > 0.0
  {
    var n := realWidth * focalLength;
    var d1 := Distance(w1, realWidth, focalLength);
    var d2 := Distance(w2, realWidth, focalLength);
    assert d1 * (w1 as real) == n && d2 * (w2 as real) == n;
    assert n > 0.0;
    assert d1 * (w1 as real) == d2 * (w2 as real);
    assert d2 > 0.0;
    assert d2 * (w2 as real) > d2 * (w1 as real);
    CancelPositive(d1, d2, w1 as real);
  }

  lemma CancelPositive(a: real, b: real, w: real)
    requires w > 0.0 && a * w > b * w
    ensures a > b
  {
  }

  /** `calibrate_camera`'s formula: pixelWidth * calibrationDistance / realWidth. */
  function CalibratedFocal(pixelWidth: int, calibrationDistance: real, realWidth: real): (f: real)
    requires realWidth != 0.0
    ensures f * realWidth == (pixelWidth as real) * calibrationDistance
  {
    var f := (pixelWidth as real) * calibrationDistance / realWidth;
    assert f * realWidth == (pixelWidth as real) * calibrationDistance;
    f
  }

  /** Calibrating on a box of width `pixelWidth` held at `calibrationDistance`
      makes that same box read back at `calibrationDistance` (or at the sentinel
      0 when the calibration distance is not positive, because the focal length
      then is not positive either). */
  lemma {:induction false} CalibrationRoundTrip(pixelWidth: int, calibrationDistance: real, realWidth: real)
    requires pixelWidth > 0 && realWidth > 0.0
    ensures var f := CalibratedFocal(pixelWidth, calibrationDistance, realWidth);
      Distance(pixelWidth, realWidth, f) == if calibrationDistance > 0.0 then calibrationDistance else 0.0
  {
    var w := pixelWidth as real;
    var f := CalibratedFocal(pixelWidth, calibrationDistance, realWidth);
    assert f * realWidth == w * calibrationDistance;
    if calibrationDistance > 0.0 {
      assert w * calibrationDistance > 0.0;
      assert f > 0.0;
      var d := Distance(pixelWidth, realWidth, f);
      assert d * w == realWidth * f;
      assert d * w == calibrationDistance * w;
    } else {
      assert w * calibrationDistance <= 0.0;
      assert f <= 0.0;
    }
  }

  /** `calculate_3d_coordinates`: the offsets of the centre from the image
      centre, scaled by distance / focalLength, with the row axis flipped so
      that up is positive; the origin when the distance or the focal length is
      not positive. */
  function Position3D(centreX: int, centreY: int, distance: real, focalLength: real,
                      imageWidth: int, imageHeight: int): (p: Position)
    ensures !(distance > 0.0 && focalLength > 0.0) ==> p == Origin
    ensures distance > 0.0 && focalLength > 0.0 ==>
      p.z == distance
      && p.x * focalLength == ((centreX as real) - (imageWidth as real) / 2.0) * distance
      && p.y * focalLength == -(((centreY as real) - (imageHeight as real) / 2.0) * distance)
  {
    if distance > 0.0 && focalLength > 0.0 then
      var offsetX := (centreX as real) - (imageWidth as real) / 2.0;
      var offsetY := (centreY as real) - (imageHeight as real) / 2.0;
      Position(offsetX * distance / focalLength, -(offsetY * distance) / focalLength, distance)
    else Origin
  }

  /** No estimate without a positive distance and focal length. */
  lemma Position3DInvalid(centreX: int, centreY: int, distance: real, focalLength: real,
                          imageWidth: int, imageHeight: int)
    requires distance <= 0.0 || focalLength <= 0.0
    ensures Position3D(centreX, centreY, distance, focalLength, imageWidth, imageHeight) == Origin
  {
  }

  /** A box centred on the image centre lies on the optical axis. */
  lemma Position3DOnAxis(distance: real, focalLength: real, imageWidth: int, imageHeight: int)
    requires distance > 0.0 && focalLength > 0.0
    requires imageWidth % 2 == 0 && imageHeight % 2 == 0
    ensures Position3D(imageWidth / 2, imageHeight / 2, distance, focalLength, imageWidth, imageHeight)
            == Position(0.0, 0.0, distance)
  {
    assert ((imageWidth / 2) as real) == (imageWidth as real) / 2.0;
    assert ((imageHeight / 2) as real) == (imageHeight as real) / 2.0;
  }

  /** X has the sign of the column offset and Y the opposite sign of the row
      offset; Z is the distance. */
  lemma {:induction false} Position3DSigns(centreX: int, centreY: int, distance: real, focalLength: real,
                                           imageWidth: int, imageHeight: int)
    requires distance > 0.0 && focalLength > 0.0
    ensures var p := Position3D(centreX, centreY, distance, focalLength, imageWidth, imageHeight);
      var offsetX := (centreX as real) - (imageWidth as real) / 2.0;
      var offsetY := (centreY as real) - (imageHeight as real) / 2.0;
      p.z == distance
      && (p.x > 0.0 <==> offsetX > 0.0) && (p.x < 0.0 <==> offsetX < 0.0)
      && (p.y > 0.0 <==> offsetY < 0.0) && (p.y < 0.0 <==> offsetY > 0.0)
  {
    var offsetX := (centreX as real) - (imageWidth as real) / 2.0;
    var offsetY := (centreY as real) - (imageHeight as real) / 2.0;
    ScaledSign(offsetX, distance, focalLength);
    ScaledSign(offsetY, distance, focalLength);
  }

  lemma ScaledSign(a: real, d: real, f: real)
    requires d > 0.0 && f > 0.0
    ensures (a * d / f > 0.0 <==> a > 0.0) && (a * d / f < 0.0 <==> a < 0.0)
    ensures (-(a * d) / f > 0.0 <==> a < 0.0) && (-(a * d) / f < 0.0 <==> a > 0.0)
  {
    assert a > 0.0 ==> a * d > 0.0;
    assert a < 0.0 ==> a * d < 0.0;
    assert a == 0.0 ==> a * d == 0.0;
  }

  /** Projecting the estimate back through the pinhole recovers the pixel
      centre the estimate was made from. */
  lemma {:induction false} Position3DProjectsBack(centreX: int, centreY: int, distance: real, focalLength: real,
                                                  imageWidth: int, imageHeight: int)
    requires distance > 0.0 && focalLength > 0.0
    ensures var p := Position3D(centreX, centreY, distance, focalLength, imageWidth, imageHeight);
      (imageWidth as real) / 2.0 + p.x * focalLength / p.z == centreX as real
      && (imageHeight as real) / 2.0 - p.y * focalLength / p.z == centreY as real
  {
    var offsetX := (centreX as real) - (imageWidth as real) / 2.0;
    var offsetY := (centreY as real) - (imageHeight as real) / 2.0;
    Unscale(offsetX, distance, focalLength);
    Unscale(-offsetY, distance, focalLength);
    assert -(offsetY * distance) == (-offsetY) * distance;
  }

  lemma Unscale(a: real, d: real, f: real)
    requires d > 0.0 && f > 0.0
    ensures (a * d / f) * f / d == a
  {
  }

  /** Python `int((x1 + x2) / 2)` for integer corners: half the sum, truncated toward zero. */
  function BoxCentre(lo: int, hi: int): (c: int)
    ensures lo + hi >= 0 ==> 2 * c <= lo + hi <= 2 * c + 1
    ensures lo + hi < 0 ==> 2 * c - 1 <= lo + hi <= 2 * c
  {
    var sum := lo + hi;
    if sum >= 0 then sum / 2 else -((-sum) / 2)
  }

  /** The centre of a well-formed extent lies inside it. */
  lemma BoxCentreInside(lo: int, hi: int)
    requires lo <= hi
    ensures lo <= BoxCentre(lo, hi) <= hi
  {
  }

  /** The zone gate: the centre column lies in [left, right], both ends included. */
  predicate InZone(centreX: int, left: int, right: int): (b: bool)
    ensures b ==> left <= right
    ensures left == right ==> (b <==> centreX == left)
  {
    left <= centreX <= right
  }
}
