// An axis-aligned box in normalised image coordinates (`BoundingBox`): its
// construction invariant, the derived edges, conversion to and from pixel
// rectangles, and the containment / overlap / intersection / union / IoU
// algebra together with expand and scale.

module BoundingBox {
  import opened Errors
  import opened PyMath
  import opened Point2D

  datatype Box = Box(x: real, y: real, width: real, height: real)

  /** The invariant `__post_init__` enforces. */
  predicate Valid(b: Box)
  {
    0.0 <= b.x <= 1.0 && 0.0 <= b.y <= 1.0
    && 0.0 < b.width <= 1.0 && 0.0 < b.height <= 1.0
    && b.x + b.width <= 1.0 && b.y + b.height <= 1.0
  }

  /** Construction: the box, or ValueError when the invariant fails. */
  function New(x: real, y: real, width: real, height: real): (r: Result<Box>)
    ensures r.Ok? <==> Valid(Box(x, y, width, height))
    ensures r.Ok? ==> r.value == Box(x, y, width, height)
    ensures r.Err? ==> r.error == ValueError
  {
    if !(0.0 <= x <= 1.0) then Err(ValueError)
    else if !(0.0 <= y <= 1.0) then Err(ValueError)
    else if !(0.0 < width <= 1.0) then Err(ValueError)
    else if !(0.0 < height <= 1.0) then Err(ValueError)
    else if x + width > 1.0 then Err(ValueError)
    else if y + height > 1.0 then Err(ValueError)
    else Ok(Box(x, y, width, height))
  }

  function Right(b: Box): real { b.x + b.width }
  function Bottom(b: Box): real { b.y + b.height }
  function Center(b: Box): Point { Point(b.x + b.width / 2.0, b.y + b.height / 2.0) }
  function Area(b: Box): real { b.width * b.height }

  function AspectRatio(b: Box): (r: real)
    requires Valid(b)
    ensures r > 0.0 && r * b.height == b.width
  {
    b.width / b.height
  }

  /** The centre of a valid box lies strictly inside it and in the unit square. */
  lemma CenterInside(b: Box)
    requires Valid(b)
    ensures ContainsPoint(b, Center(b)) && IsWithinNormalizedBounds(Center(b))
    ensures 0.0 < Area(b) <= 1.0
  {
    MulAtMostOne(b.width, b.height);
  }

  lemma MulAtMostOne(a: real, b: real)
    requires 0.0 < a <= 1.0 && 0.0 < b <= 1.0
    ensures 0.0 < a * b <= 1.0
  {
    MulLe(a, 1.0, b, 1.0);
  }

  /** Products of non-negative factors are monotone in each factor. */
  lemma MulLe(a: real, a': real, b: real, b': real)
    requires 0.0 <= a <= a' && 0.0 <= b <= b'
    ensures a * b <= a' * b'
  {
    assert a * b <= a' * b;
    assert a' * b <= a' * b';
  }

  /** `to_pixel_coordinates`: (x, y, width, height) in whole pixels, clamped
      so that the rectangle lies inside the image and is at least one pixel
      in each direction; ValueError for a non-positive image size. */
  function ToPixel(b: Box, imageWidth: int, imageHeight: int): (r: Result<(int, int, int, int)>)
    ensures r.Ok? <==> imageWidth > 0 && imageHeight > 0
    ensures r.Err? ==> r.error == ValueError
    ensures r.Ok? ==> var (px, py, pw, ph) := r.value;
      0 <= px <= imageWidth - 1 && 1 <= pw <= imageWidth - px
      && 0 <= py <= imageHeight - 1 && 1 <= ph <= imageHeight - py
  {
    if imageWidth <= 0 || imageHeight <= 0 then Err(ValueError)
    else
      var px := RoundHalfEven(b.x * imageWidth as real);
      var py := RoundHalfEven(b.y * imageHeight as real);
      var pw := RoundHalfEven(b.width * imageWidth as real);
      var ph := RoundHalfEven(b.height * imageHeight as real);
      var px' := MaxInt(0, MinInt(px, imageWidth - 1));
      var py' := MaxInt(0, MinInt(py, imageHeight - 1));
      Ok((px', py', MaxInt(1, MinInt(pw, imageWidth - px')), MaxInt(1, MinInt(ph, imageHeight - py'))))
  }

  /** `to_pixel_coordinates_xyxy`: corners (x1, y1, x2, y2) with
      x1 < x2 <= width and y1 < y2 <= height. */
  function ToPixelXyxy(b: Box, imageWidth: int, imageHeight: int): (r: Result<(int, int, int, int)>)
    ensures r.Ok? <==> imageWidth > 0 && imageHeight > 0
    ensures r.Err? ==> r.error == ValueError
    ensures r.Ok? ==> var (x1, y1, x2, y2) := r.value;
      0 <= x1 <= imageWidth - 1 && x1 + 1 <= x2 <= imageWidth
      && 0 <= y1 <= imageHeight - 1 && y1 + 1 <= y2 <= imageHeight
  {
    if imageWidth <= 0 || imageHeight <= 0 then Err(ValueError)
    else
      var x1 := MaxInt(0, MinInt(RoundHalfEven(b.x * imageWidth as real), imageWidth - 1));
      var y1 := MaxInt(0, MinInt(RoundHalfEven(b.y * imageHeight as real), imageHeight - 1));
      var x2 := MaxInt(x1 + 1, MinInt(RoundHalfEven(Right(b) * imageWidth as real), imageWidth));
      var y2 := MaxInt(y1 + 1, MinInt(RoundHalfEven(Bottom(b) * imageHeight as real), imageHeight));
      Ok((x1, y1, x2, y2))
  }

  /** A pixel rectangle lies inside an image of the given size and is not
      empty. */
  predicate PixelRectInside(px: int, py: int, pw: int, ph: int, imageWidth: int, imageHeight: int)
  {
    0 <= px && 0 < pw && px + pw <= imageWidth && 0 <= py && 0 < ph && py + ph <= imageHeight
  }

  /** `from_pixel_coordinates`: normalise a pixel rectangle and construct;
      it succeeds exactly for a non-empty rectangle inside the image. */
  function FromPixel(px: int, py: int, pw: int, ph: int, imageWidth: int, imageHeight: int): (r: Result<Box>)
    ensures r.Ok? <==> imageWidth > 0 && imageHeight > 0
                       && PixelRectInside(px, py, pw, ph, imageWidth, imageHeight)
    ensures r.Err? ==> r.error == ValueError
    ensures r.Ok? ==> r.value.x * imageWidth as real == px as real
                      && r.value.width * imageWidth as real == pw as real
                      && r.value.y * imageHeight as real == py as real
                      && r.value.height * imageHeight as real == ph as real
  {
    if imageWidth <= 0 || imageHeight <= 0 then Err(ValueError)
    else
      var W := imageWidth as real;
      var H := imageHeight as real;
      NormalisedRange(px as real, pw as real, W);
      NormalisedRange(py as real, ph as real, H);
      New(px as real / W, py as real / H, pw as real / W, ph as real / H)
  }

  /** For a positive size s: a/s and b/s form a valid (offset, extent) pair
      of the unit interval iff a and b do of [0, s]. */
  lemma NormalisedRange(a: real, b: real, s: real)
    requires s > 0.0
    ensures (0.0 <= a / s <= 1.0 && 0.0 < b / s <= 1.0 && a / s + b / s <= 1.0)
            <==> (0.0 <= a && 0.0 < b && a + b <= s)
  {
    assert a / s + b / s == (a + b) / s;
    DivLeOne(a + b, s);
    DivLeOne(a, s);
    DivLeOne(b, s);
    DivSign(a, s);
    DivSign(b, s);
  }

  lemma DivLeOne(a: real, s: real)
    requires s > 0.0
    ensures a / s <= 1.0 <==> a <= s
  {
    assert (a / s) * s == a;
    if a / s <= 1.0 { MulLe(0.0, 0.0, 0.0, 0.0); assert (a / s) * s <= 1.0 * s; }
  }

  lemma DivSign(a: real, s: real)
    requires s > 0.0
    ensures (0.0 <= a / s <==> 0.0 <= a) && (0.0 < a / s <==> 0.0 < a)
  {
    assert (a / s) * s == a;
  }

  /** `from_pixel_coordinates_xyxy`: corners in either order. */
  function FromPixelXyxy(x1: int, y1: int, x2: int, y2: int, imageWidth: int, imageHeight: int): (r: Result<Box>)
    ensures r.Ok? <==> imageWidth > 0 && imageHeight > 0 && x1 != x2 && y1 != y2
                       && 0 <= MinInt(x1, x2) && MaxInt(x1, x2) <= imageWidth
                       && 0 <= MinInt(y1, y2) && MaxInt(y1, y2) <= imageHeight
    ensures r.Err? ==> r.error == ValueError
  {
    if imageWidth <= 0 || imageHeight <= 0 then Err(ValueError)
    else
      var xMin := MinInt(x1, x2);
      var yMin := MinInt(y1, y2);
      FromPixel(xMin, yMin, MaxInt(x1, x2) - xMin, MaxInt(y1, y2) - yMin, imageWidth, imageHeight)
  }

  /** Converting a valid box to pixels and back always yields a valid box. */
  lemma PixelRoundTripIsValid(b: Box, imageWidth: int, imageHeight: int)
    requires imageWidth > 0 && imageHeight > 0
    ensures var (px, py, pw, ph) := ToPixel(b, imageWidth, imageHeight).value;
            FromPixel(px, py, pw, ph, imageWidth, imageHeight).Ok?
    ensures var (x1, y1, x2, y2) := ToPixelXyxy(b, imageWidth, imageHeight).value;
            FromPixelXyxy(x1, y1, x2, y2, imageWidth, imageHeight).Ok?
  {
  }

  /** `contains_point`: the closed box. */
  predicate ContainsPoint(b: Box, p: Point)
  {
    b.x <= p.x <= Right(b) && b.y <= p.y <= Bottom(b)
  }

  /** `overlaps_with`: the open interiors meet. */
  predicate Overlaps(a: Box, b: Box)
  {
    !(Right(a) <= b.x || Right(b) <= a.x || Bottom(a) <= b.y || Bottom(b) <= a.y)
  }

  /** Overlap is symmetric, and boxes that only share an edge do not overlap. */
  lemma OverlapsSymmetric(a: Box, b: Box)
    ensures Overlaps(a, b) <==> Overlaps(b, a)
    ensures Right(a) == b.x ==> !Overlaps(a, b)
    ensures Bottom(a) == b.y ==> !Overlaps(a, b)
  {
  }

  /** `a` lies inside `b`. */
  predicate Inside(a: Box, b: Box)
  {
    b.x <= a.x && Right(a) <= Right(b) && b.y <= a.y && Bottom(a) <= Bottom(b)
  }

  /** `intersection_with`: none exactly when the boxes do not overlap;
      otherwise a valid box whose points are exactly the common points. */
  function Intersection(a: Box, b: Box): (r: Option<Box>)
    requires Valid(a) && Valid(b)
    ensures r.None? <==> !Overlaps(a, b)
    ensures r.Some? ==> Valid(r.value) && Inside(r.value, a) && Inside(r.value, b)
  {
    if !Overlaps(a, b) then None
    else
      var left := Max(a.x, b.x);
      var top := Max(a.y, b.y);
      var w := Min(Right(a), Right(b)) - left;
      var h := Min(Bottom(a), Bottom(b)) - top;
      if w > 0.0 && h > 0.0 then
        assert New(left, top, w, h).Ok?;
        Some(Box(left, top, w, h))
      else
        None
  }

  /** The intersection holds exactly the points common to both boxes. */
  lemma IntersectionPoints(a: Box, b: Box, p: Point)
    requires Valid(a) && Valid(b) && Overlaps(a, b)
    ensures ContainsPoint(Intersection(a, b).value, p) <==> ContainsPoint(a, p) && ContainsPoint(b, p)
  {
  }

  /** `union_with`: the smallest box containing both, always valid. */
  function Union(a: Box, b: Box): (u: Box)
    requires Valid(a) && Valid(b)
    ensures Valid(u) && Inside(a, u) && Inside(b, u)
    ensures forall c :: Inside(a, c) && Inside(b, c) ==> Inside(u, c)
  {
    var left := Min(a.x, b.x);
    var top := Min(a.y, b.y);
    Box(left, top, Max(Right(a), Right(b)) - left, Max(Bottom(a), Bottom(b)) - top)
  }

  /** `iou`: intersection area over union area, 0 without overlap. */
  function IoU(a: Box, b: Box): (r: real)
    requires Valid(a) && Valid(b)
    ensures 0.0 <= r <= 1.0
    ensures !Overlaps(a, b) ==> r == 0.0
    ensures Overlaps(a, b) ==> r > 0.0
  {
    match Intersection(a, b)
    case None => 0.0
    case Some(i) =>
      InnerAreaBounds(i, a, b);
      var unionArea := Area(a) + Area(b) - Area(i);
      if unionArea == 0.0 then 0.0
      else
        FractionAtMostOne(Area(i), unionArea);
        Area(i) / unionArea
  }

  /** A box inside two others is no larger than either, so the union area
      of the two exceeds its area. */
  lemma InnerAreaBounds(i: Box, a: Box, b: Box)
    requires Valid(i) && Valid(a) && Valid(b) && Inside(i, a) && Inside(i, b)
    ensures 0.0 < Area(i) && Area(i) <= Area(a) && Area(i) <= Area(b)
    ensures Area(i) <= Area(a) + Area(b) - Area(i)
  {
    OverlapAreaArithmetic(i.width, i.height, a.width, a.height, b.width, b.height);
  }

  lemma OverlapAreaArithmetic(iw: real, ih: real, aw: real, ah: real, bw: real, bh: real)
    requires 0.0 < iw <= aw && 0.0 < ih <= ah && iw <= bw && ih <= bh
    ensures 0.0 < iw * ih <= aw * ah && iw * ih <= bw * bh
    ensures iw * ih <= aw * ah + bw * bh - iw * ih
  {
    MulLe(iw, aw, ih, ah);
    MulLe(iw, bw, ih, bh);
    assert 0.0 < iw * ih;
  }

  lemma FractionAtMostOne(a: real, b: real)
    requires 0.0 < a <= b
    ensures 0.0 < a / b <= 1.0
  {
    DivLeOne(a, b);
    DivSign(a, b);
  }

  /** IoU does not depend on the order of its arguments, and a box has IoU 1
      with itself. */
  lemma IoUSymmetric(a: Box, b: Box)
    requires Valid(a) && Valid(b)
    ensures IoU(a, b) == IoU(b, a)
    ensures IoU(a, a) == 1.0
  {
    assert Intersection(a, b) == Intersection(b, a);
    assert Intersection(a, a) == Some(a);
    MulAtMostOne(a.width, a.height);
  }

  /** `expand`: grow by `marginRatio` of the size, half on each side, cut at
      the image border; ValueError for a negative margin. */
  function Expand(b: Box, marginRatio: real): (r: Result<Box>)
    requires Valid(b)
    ensures r.Err? <==> marginRatio < 0.0
    ensures r.Err? ==> r.error == ValueError
    ensures r.Ok? ==> Valid(r.value) && Inside(b, r.value)
    ensures marginRatio == 0.0 ==> r == Ok(b)
  {
    if marginRatio < 0.0 then Err(ValueError)
    else
      MulLe(0.0, b.width, 0.0, marginRatio);
      MulLe(0.0, b.height, 0.0, marginRatio);
      var mx := b.width * marginRatio / 2.0;
      var my := b.height * marginRatio / 2.0;
      var nx := Max(0.0, b.x - mx);
      var ny := Max(0.0, b.y - my);
      var nw := Min(1.0 - nx, b.width + 2.0 * mx);
      var nh := Min(1.0 - ny, b.height + 2.0 * my);
      ExpandInterval(b.x, b.width, mx, nx, nw);
      ExpandInterval(b.y, b.height, my, ny, nh);
      assert marginRatio == 0.0 ==> mx == 0.0 && my == 0.0;
      Ok(Box(nx, ny, nw, nh))
  }

  /** One axis of `expand`: the grown interval stays inside [0, 1], is not
      empty, and covers the original one. */
  lemma ExpandInterval(x: real, w: real, m: real, nx: real, nw: real)
    requires 0.0 <= x && 0.0 < w && x + w <= 1.0 && m >= 0.0
    requires nx == Max(0.0, x - m) && nw == Min(1.0 - nx, w + 2.0 * m)
    ensures 0.0 <= nx <= x && 0.0 < nw <= 1.0 && nx + nw <= 1.0 && x + w <= nx + nw
  {
  }

  /** `scale`: resize about the centre (sizes capped at 1), shifted back
      inside the image when it would stick out; ValueError for a
      non-positive factor. */
  function ScaleBox(b: Box, factor: real): (r: Result<Box>)
    requires Valid(b)
    ensures r.Err? <==> factor <= 0.0
    ensures r.Err? ==> r.error == ValueError
    ensures r.Ok? ==> Valid(r.value)
    ensures r.Ok? ==> r.value.width == Min(1.0, b.width * factor)
                      && r.value.height == Min(1.0, b.height * factor)
    ensures r.Ok? && 0.0 <= Center(b).x - r.value.width / 2.0 && Center(b).x + r.value.width / 2.0 <= 1.0
            ==> Center(r.value).x == Center(b).x
    ensures r.Ok? && 0.0 <= Center(b).y - r.value.height / 2.0 && Center(b).y + r.value.height / 2.0 <= 1.0
            ==> Center(r.value).y == Center(b).y
  {
    if factor <= 0.0 then Err(ValueError)
    else
      MulLe(0.0, b.width, 0.0, factor);
      MulLe(0.0, b.height, 0.0, factor);
      assert b.width * factor > 0.0 && b.height * factor > 0.0;
      var c := Center(b);
      var nw := Min(1.0, b.width * factor);
      var nh := Min(1.0, b.height * factor);
      var nx0 := Max(0.0, c.x - nw / 2.0);
      var ny0 := Max(0.0, c.y - nh / 2.0);
      var nx := if nx0 + nw > 1.0 then 1.0 - nw else nx0;
      var ny := if ny0 + nh > 1.0 then 1.0 - nh else ny0;
      assert New(nx, ny, nw, nh).Ok?;
      Ok(Box(nx, ny, nw, nh))
  }
}
