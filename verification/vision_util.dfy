/** The clamp-and-scale helpers of VisionUtil: pixel and angle coordinates
    brought to the normalised range [-1, 1], pixel indices recentred on the
    image centre, and the midpoint of two points. */
module VisionUtil {
  import opened JavaMath

  /** Clamps a centred pixel coordinate to [-resolution/2, resolution/2] and
      divides by resolution/2. The result is always in [-1, 1]; inside the
      image it is the pixel in units of half the resolution. A negative
      resolution makes the clamp bounds cross, and the result is then -1. */
  function NormalizePixels(pixel: real, resolution: real): (r: real)
    requires resolution != 0.0
    ensures -1.0 <= r <= 1.0
    ensures -resolution / 2.0 <= pixel <= resolution / 2.0 ==> r * (resolution / 2.0) == pixel
    ensures resolution > 0.0 && pixel >= resolution / 2.0 ==> r == 1.0
    ensures resolution > 0.0 && pixel <= -resolution / 2.0 ==> r == -1.0
    ensures resolution < 0.0 ==> r == -1.0
  {
    var clamped := Clamp(pixel, -resolution / 2.0, resolution / 2.0);
    ScaledIntoUnitRange(clamped, resolution / 2.0);
    clamped / (resolution / 2.0)
  }

  /** A value v clamped to [-h, h] and divided by h lands in [-1, 1]; for
      h < 0 the clamp answers -h and the quotient is -1. */
  lemma ScaledIntoUnitRange(v: real, h: real)
    requires h != 0.0 && v == Clamp(v, -h, h)
    ensures -1.0 <= v / h <= 1.0
    ensures h < 0.0 ==> v / h == -1.0
    ensures v == h ==> v / h == 1.0
    ensures v == -h ==> v / h == -1.0
  {
    if h > 0.0 {
      assert -h <= v <= h;
      assert v / h <= h / h;
      assert -h / h <= v / h;
    } else {
      assert v == -h;
    }
  }

  /** Normalising is monotone in the pixel for a positive resolution. */
  lemma NormalizePixelsIsMonotone(a: real, b: real, resolution: real)
    requires resolution > 0.0 && a <= b
    ensures NormalizePixels(a, resolution) <= NormalizePixels(b, resolution)
  {
    var h := resolution / 2.0;
    var ca, cb := Clamp(a, -h, h), Clamp(b, -h, h);
    assert ca <= cb;
    DivMono(ca, cb, h);
  }

  lemma DivMono(x: real, y: real, h: real)
    requires h > 0.0 && x <= y
    ensures x / h <= y / h
  {
    var p, q := x / h, y / h;
    assert p * h == x && q * h == y;
  }

  /** Clamps a pixel index to [0, resolution - 1] and moves the origin to the
      image centre; inverted flips the direction. */
  function CenterPixels(pixel: real, resolution: real, inverted: bool): (r: real)
    ensures resolution >= 1.0 ==> -(resolution / 2.0 - 0.5) <= r <= resolution / 2.0 - 0.5
  {
    var clamped := Clamp(pixel, 0.0, resolution - 1.0);
    if inverted then ((resolution / 2.0) - 0.5) - clamped
    else clamped - ((resolution / 2.0) - 0.5)
  }

  /** The inverted coordinate is the negation of the plain one; for a
      resolution of at least one pixel the result lies in
      [-(resolution/2 - 0.5), resolution/2 - 0.5], with the first and last
      pixel at the two ends, and a pixel inside the image is only shifted. */
  lemma CenterPixelsProperties(pixel: real, resolution: real)
    ensures CenterPixels(pixel, resolution, true) == -CenterPixels(pixel, resolution, false)
    ensures resolution >= 1.0 ==>
              -(resolution / 2.0 - 0.5) <= CenterPixels(pixel, resolution, false) <= resolution / 2.0 - 0.5
    ensures resolution >= 1.0 ==>
              CenterPixels(0.0, resolution, false) == -(resolution / 2.0 - 0.5) &&
              CenterPixels(resolution - 1.0, resolution, false) == resolution / 2.0 - 0.5
    ensures 0.0 <= pixel <= resolution - 1.0 ==>
              CenterPixels(pixel, resolution, false) + (resolution / 2.0 - 0.5) == pixel
  {
  }

  /** At 320 pixels the centred range is -159.5 to 159.5. */
  lemma CenterPixelsAt320()
    ensures CenterPixels(0.0, 320.0, false) == -159.5
    ensures CenterPixels(319.0, 320.0, false) == 159.5
    ensures CenterPixels(319.0, 320.0, true) == -159.5
    ensures CenterPixels(400.0, 320.0, false) == 159.5
  {
  }

  /** Clamps an angle to [-fov/2, fov/2] and divides by fov/2: the pixel
      normalisation with the field of view in place of the resolution. */
  function NormalizeAngle(angle: real, fov: real): (r: real)
    requires fov != 0.0
    ensures -1.0 <= r <= 1.0
    ensures -fov / 2.0 <= angle <= fov / 2.0 ==> r * (fov / 2.0) == angle
    ensures fov > 0.0 && angle >= fov / 2.0 ==> r == 1.0
    ensures fov > 0.0 && angle <= -fov / 2.0 ==> r == -1.0
  {
    var clamped := Clamp(angle, -fov / 2.0, fov / 2.0);
    ScaledIntoUnitRange(clamped, fov / 2.0);
    clamped / (fov / 2.0)
  }

  /** The componentwise average of two points. */
  function Midpoint(point1: Pair, point2: Pair): (r: Pair)
    ensures Min(point1.first, point2.first) <= r.first <= Max(point1.first, point2.first)
    ensures Min(point1.second, point2.second) <= r.second <= Max(point1.second, point2.second)
    ensures r.first - point1.first == point2.first - r.first
    ensures r.second - point1.second == point2.second - r.second
  {
    Pair((point1.first + point2.first) / 2.0, (point1.second + point2.second) / 2.0)
  }

  /** The midpoint does not depend on the order of the points, and the
      midpoint of a point with itself is that point. */
  lemma MidpointIsSymmetric(point1: Pair, point2: Pair)
    ensures Midpoint(point1, point2) == Midpoint(point2, point1)
    ensures Midpoint(point1, point1) == point1
  {
  }
}
