// A point in the plane, in pixel or normalised coordinates (`Point2D`).
// Every operation returns a new point; the only failures are the size check
// of normalize/denormalize and division by zero.

module Point2D {
  import opened Errors
  import opened PyMath

  datatype Point = Point(x: real, y: real)

  function Translate(p: Point, dx: real, dy: real): Point
  {
    Point(p.x + dx, p.y + dy)
  }

  /** Translating back by the opposite offsets restores the point. */
  lemma TranslateInverse(p: Point, dx: real, dy: real)
    ensures Translate(Translate(p, dx, dy), -dx, -dy) == p
  {
  }

  function ManhattanDistance(p: Point, q: Point): real
  {
    Abs(p.x - q.x) + Abs(p.y - q.y)
  }

  /** Manhattan distance is a metric-like quantity: symmetric, non-negative,
      zero exactly between equal points. */
  lemma ManhattanDistanceProperties(p: Point, q: Point)
    ensures ManhattanDistance(p, q) == ManhattanDistance(q, p)
    ensures ManhattanDistance(p, q) >= 0.0
    ensures ManhattanDistance(p, q) == 0.0 <==> p == q
  {
  }

  function Midpoint(p: Point, q: Point): (m: Point)
  {
    Point((p.x + q.x) / 2.0, (p.y + q.y) / 2.0)
  }

  /** The midpoint does not depend on the order of the points and is equally
      far from both in each coordinate. */
  lemma MidpointProperties(p: Point, q: Point)
    ensures Midpoint(p, q) == Midpoint(q, p)
    ensures Midpoint(p, q).x - p.x == q.x - Midpoint(p, q).x
    ensures Midpoint(p, q).y - p.y == q.y - Midpoint(p, q).y
    ensures Midpoint(p, p) == p
  {
  }

  /** `scale`: move the origin to (0, 0), multiply, move back; the origin
      defaults to (0, 0). */
  function Scale(p: Point, factor: real, origin: Option<Point>): Point
  {
    var o := if origin.Some? then origin.value else Point(0.0, 0.0);
    var t := Translate(p, -o.x, -o.y);
    Translate(Point(t.x * factor, t.y * factor), o.x, o.y)
  }

  /** Scaling fixes its origin, factor 1 is the identity, and the scaled
      point lies on the ray from the origin at `factor` times the offset. */
  lemma ScaleProperties(p: Point, factor: real, o: Point)
    ensures Scale(o, factor, Some(o)) == o
    ensures Scale(p, 1.0, Some(o)) == p
    ensures Scale(p, factor, Some(o)).x - o.x == (p.x - o.x) * factor
    ensures Scale(p, factor, Some(o)).y - o.y == (p.y - o.y) * factor
    ensures Scale(p, factor, None) == Scale(p, factor, Some(Point(0.0, 0.0)))
  {
  }

  /** `to_int_tuple`. */
  function ToIntTuple(p: Point): (t: (int, int))
    ensures Abs(t.0 as real - p.x) <= 0.5 && Abs(t.1 as real - p.y) <= 0.5
  {
    (RoundHalfEven(p.x), RoundHalfEven(p.y))
  }

  predicate IsWithinBounds(p: Point, width: real, height: real)
  {
    0.0 <= p.x <= width && 0.0 <= p.y <= height
  }

  predicate IsWithinNormalizedBounds(p: Point)
  {
    0.0 <= p.x <= 1.0 && 0.0 <= p.y <= 1.0
  }

  lemma NormalizedBoundsAreUnitBounds(p: Point)
    ensures IsWithinNormalizedBounds(p) <==> IsWithinBounds(p, 1.0, 1.0)
  {
  }

  /** Pixel to normalised coordinates; ValueError unless both sizes are
      positive. */
  function Normalize(p: Point, width: real, height: real): (r: Result<Point>)
    ensures r.Ok? <==> width > 0.0 && height > 0.0
    ensures r.Err? ==> r.error == ValueError
    ensures r.Ok? ==> r.value.x * width == p.x && r.value.y * height == p.y
  {
    if width <= 0.0 || height <= 0.0 then Err(ValueError)
    else Ok(Point(p.x / width, p.y / height))
  }

  /** Normalised to pixel coordinates, with the same size check. */
  function Denormalize(p: Point, width: real, height: real): (r: Result<Point>)
    ensures r.Ok? <==> width > 0.0 && height > 0.0
    ensures r.Err? ==> r.error == ValueError
  {
    if width <= 0.0 || height <= 0.0 then Err(ValueError)
    else Ok(Point(p.x * width, p.y * height))
  }

  /** Denormalising a normalised point gives the point back, and a point
      inside the image normalises into the unit square. */
  lemma NormalizeRoundTrip(p: Point, width: real, height: real)
    requires width > 0.0 && height > 0.0
    ensures Denormalize(Normalize(p, width, height).value, width, height) == Ok(p)
    ensures IsWithinBounds(p, width, height) ==> IsWithinNormalizedBounds(Normalize(p, width, height).value)
  {
    var n := Normalize(p, width, height).value;
    assert n.x * width == p.x && n.y * height == p.y;
    assert Denormalize(n, width, height).value == Point(n.x * width, n.y * height);
    if IsWithinBounds(p, width, height) {
      assert n.x <= 1.0 by { DivAtMostOne(p.x, width); }
      assert n.y <= 1.0 by { DivAtMostOne(p.y, height); }
    }
  }

  lemma DivAtMostOne(a: real, b: real)
    requires b > 0.0 && a <= b
    ensures a / b <= 1.0
  {
  }

  function Add(p: Point, q: Point): Point { Point(p.x + q.x, p.y + q.y) }

  function Sub(p: Point, q: Point): Point { Point(p.x - q.x, p.y - q.y) }

  function Mul(p: Point, scalar: real): Point { Point(p.x * scalar, p.y * scalar) }

  /** `__truediv__`: ZeroDivisionError for a zero scalar. */
  function Div(p: Point, scalar: real): (r: Result<Point>)
    ensures r.Err? <==> scalar == 0.0
    ensures r.Err? ==> r.error == ZeroDivisionError
    ensures r.Ok? ==> Mul(r.value, scalar) == p
  {
    if scalar == 0.0 then Err(ZeroDivisionError) else Ok(Point(p.x / scalar, p.y / scalar))
  }

  /** Subtraction undoes addition. */
  lemma AddSubInverse(p: Point, q: Point)
    ensures Sub(Add(p, q), q) == p
    ensures Add(p, q) == Add(q, p)
  {
  }
}
