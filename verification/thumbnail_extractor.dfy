// The thumbnail stage (`ThumbnailExtractor`): a thumbnail per selected
// frame, cropped toward the output aspect ratio; letterboxed resizing;
// cropping to 16:9 or 9:16; saving one thumbnail or a batch; and creating
// the extraction job for a set of frames. Images are modelled by their
// shapes (`(height, width, channels, ...)`), never by their pixels. The
// file system is given: what `mkdir`, `shutil.disk_usage`, the
// write-permission probe and the image write report is a parameter. Python
// floats are idealised as reals.

module ThumbnailExtractor {
  import opened Errors
  import opened PyMath
  import Text
  import opened Ordering
  import opened Frame
  import opened Thumbnail
  import opened UserSettings
  import opened ExtractionJob

  // ---------------------------------------------------------------------
  // Crop geometry

  /** The part of an image a crop keeps, as Python slice bounds on one
      axis: everything, rows `[start:start + count]`, or columns
      `[start:start + count]`. */
  datatype Cut = Keep | Rows(start: int, count: int) | Columns(start: int, count: int)

  /** A window of an image: its top-left corner and its size. */
  datatype Region = Region(top: nat, left: nat, height: nat, width: nat)

  /** The window lies inside an image of height h and width w. */
  predicate Within(r: Region, h: nat, w: nat)
  {
    r.top + r.height <= h && r.left + r.width <= w
  }

  /** The window lies inside and is centred: the margins on the two sides
      of each axis differ by at most one pixel, the extra one going to the
      bottom or the right. */
  predicate Centred(r: Region, h: nat, w: nat)
  {
    Within(r, h, w) && 0 <= h - r.height - 2 * r.top <= 1 && 0 <= w - r.width - 2 * r.left <= 1
  }

  /** A dimension of an array shape; numpy dimensions are never negative. */
  function Dim(d: int): nat { if d < 0 then 0 else d }

  /** Python's index normalisation for a slice bound on an axis of length
      n: a negative bound counts from the end, then the bound is clipped to
      [0, n]. */
  function SliceBound(i: int, n: nat): (b: nat)
    ensures b <= n
    ensures 0 <= i <= n ==> b == i
  {
    var j := if i < 0 then i + n else i;
    if j < 0 then 0 else if j > n then n else j
  }

  /** Python's `[start:stop]` on an axis of length n: the first index kept
      and how many are kept. */
  function Slice(start: int, stop: int, n: nat): (r: (nat, nat))
    ensures r.0 + r.1 <= n
    ensures 0 <= start <= stop <= n ==> r == (start, stop - start)
  {
    var lo := SliceBound(start, n);
    var hi := SliceBound(stop, n);
    (lo, if hi < lo then 0 else hi - lo)
  }

  /** The window a cut keeps of an h-by-w image; whatever the bounds, it
      lies inside the image. */
  function Apply(c: Cut, h: nat, w: nat): (r: Region)
    ensures Within(r, h, w)
  {
    match c
    case Keep => Region(0, 0, h, w)
    case Rows(start, count) =>
      var (lo, k) := Slice(start, start + count, h);
      Region(lo, 0, k, w)
    case Columns(start, count) =>
      var (lo, k) := Slice(start, start + count, w);
      Region(0, lo, h, k)
  }

  /** The shape after a cut that keeps the window `g`. */
  function Reshaped(shape: seq<int>, g: Region): (r: seq<int>)
    requires |shape| >= 2
    ensures |r| == |shape| && r[0] == g.height && r[1] == g.width && r[2..] == shape[2..]
  {
    [g.height as int, g.width as int] + shape[2..]
  }

  /** Keeping `int(height * target)` columns from `max(0, (width - new_width) // 2)`
      (`//` by 2 is Dafny's `/` on integers). */
  function ClampedColumns(h: nat, w: nat, target: real): Cut
  {
    var nw := Trunc(h as real * target);
    Columns(MaxInt(0, (w - nw) / 2), nw)
  }

  /** Keeping `int(width / target)` rows from `max(0, (height - new_height) // 2)`. */
  function ClampedRows(h: nat, w: nat, target: real): Cut
    requires target != 0.0
  {
    var nh := Trunc(w as real / target);
    Rows(MaxInt(0, (h - nh) / 2), nh)
  }

  /** The crop `generate_thumbnail` applies to an h-by-w frame for an ow-by-oh
      output: columns are cut when the frame is wider than the output ratio,
      rows when it is narrower. A zero output height or frame height makes
      the ratio a division by zero, which the crop swallows: nothing is cut. */
  function GenerationCut(h: nat, w: nat, ow: int, oh: int, portrait: bool): Cut
  {
    if oh == 0 || h == 0 then Keep
    else
      var target := ow as real / oh as real;
      var current := w as real / h as real;
      assert current >= 0.0;
      if portrait then
        if current > target then ClampedColumns(h, w, target)
        else if current < target then ClampedRows(h, w, target)
        else Keep
      else
        if current < target then ClampedRows(h, w, target)
        else if current > target then ClampedColumns(h, w, target)
        else Keep
  }

  /** The image shape `generate_thumbnail` hands on: the cut frame, or the
      frame unchanged when nothing is cut or when it has fewer than three
      dimensions (the three-index slice then raises IndexError, which the
      crop swallows). */
  function GeneratedShape(shape: seq<int>, s: Settings): (r: seq<int>)
    requires |shape| >= 2
    ensures |r| == |shape| && r[2..] == shape[2..]
  {
    var h, w := Dim(shape[0]), Dim(shape[1]);
    var c := GenerationCut(h, w, s.outputWidth, s.outputHeight, IsPortraitOutput(s));
    if c.Keep? || |shape| < 3 then shape else Reshaped(shape, Apply(c, h, w))
  }

  /** The integer part of a non-negative quotient of integers is the
      integer quotient. */
  lemma TruncQuotient(a: int, b: int)
    requires a >= 0 && b > 0
    ensures Trunc(a as real / b as real) == a / b
  {
    var q, m := a / b, a % b;
    var f := m as real / b as real;
    assert a as real == q as real * b as real + m as real;
    assert a as real / b as real == q as real + f;
    assert 0.0 <= f < 1.0 by {
      assert f * b as real == m as real;
    }
  }

  /** Comparing the quotients a/b and c/d (b, d positive) is comparing the
      cross products. */
  lemma CompareQuotients(a: int, b: int, c: int, d: int)
    requires b > 0 && d > 0
    ensures a as real / b as real < c as real / d as real <==> a * d < c * b
    ensures a as real / b as real == c as real / d as real <==> a * d == c * b
  {
    var x, y := a as real / b as real, c as real / d as real;
    assert x * b as real == a as real && y * d as real == c as real;
    assert (a * d) as real == x * (b * d) as real;
    assert (c * b) as real == y * (b * d) as real;
    if x < y {
      MulStrict(x, y, (b * d) as real);
    } else {
      MulMonotone(y, x, (b * d) as real);
    }
  }

  /** Multiplying by a positive factor keeps a strict order, read backwards. */
  lemma MulCancel(x: int, y: int, d: int)
    requires d > 0
    ensures x * d < y * d ==> x < y
  {
    if x >= y {
      assert x * d - y * d == (x - y) * d;
    }
  }

  /** ⌊p/d⌋ < n when p < n·d. */
  lemma QuotientBelow(p: int, d: int, n: int)
    requires p >= 0 && d > 0 && p < n * d
    ensures p / d < n
  {
    MulCancel(p / d, n, d);
  }

  /** Keeping nw < w columns from (w - nw) // 2 keeps a centred window. */
  lemma CentredColumns(h: nat, w: nat, nw: int)
    requires 0 <= nw < w
    ensures var g := Apply(Columns((w - nw) / 2, nw), h, w);
            g == Region(0, (w - nw) / 2, h, nw) && Centred(g, h, w)
  {
  }

  /** Keeping nh < h rows from (h - nh) // 2 keeps a centred window. */
  lemma CentredRows(h: nat, w: nat, nh: int)
    requires 0 <= nh < h
    ensures var g := Apply(Rows((h - nh) / 2, nh), h, w);
            g == Region((h - nh) / 2, 0, nh, w) && Centred(g, h, w)
  {
  }

  /** ⌊p/d⌋ ≤ n when p ≤ n·d. */
  lemma QuotientAtMost(p: int, d: int, n: int)
    requires p >= 0 && d > 0 && p <= n * d
    ensures p / d <= n
  {
    assert p < (n + 1) * d;
    QuotientBelow(p, d, n + 1);
  }

  /** An h-row image wider than a:b: `int(h * (a / b))` is ⌊h·a/b⌋, fewer
      than its w columns. */
  lemma ColumnsWidth(h: nat, w: nat, a: int, b: int)
    requires a > 0 && b > 0 && w * b > a * h
    ensures Trunc(h as real * (a as real / b as real)) == (h * a) / b < w
  {
    assert h as real * (a as real / b as real) == (h * a) as real / b as real;
    TruncQuotient(h * a, b);
    QuotientBelow(h * a, b, w);
  }

  /** A w-column image narrower than a:b: `int(w / (a / b))` is ⌊w·b/a⌋,
      fewer than its h rows. */
  lemma RowsHeight(h: nat, w: nat, a: int, b: int)
    requires a > 0 && b > 0 && w * b < a * h
    ensures Trunc(w as real / (a as real / b as real)) == (w * b) / a < h
  {
    assert w as real / (a as real / b as real) == (w * b) as real / a as real;
    TruncQuotient(w * b, a);
    QuotientBelow(w * b, a, h);
  }

  /** A frame wider than ow:oh gets ⌊h·ow/oh⌋ columns, fewer than it has. */
  lemma WideCut(h: nat, w: nat, ow: int, oh: int)
    requires h > 0 && ow > 0 && oh > 0 && w * oh > ow * h
    ensures var nw := (h * ow) / oh;
            0 <= nw < w && ClampedColumns(h, w, ow as real / oh as real) == Columns((w - nw) / 2, nw)
  {
    ColumnsWidth(h, w, ow, oh);
  }

  /** A frame narrower than ow:oh gets ⌊w·oh/ow⌋ rows, fewer than it has. */
  lemma TallCut(h: nat, w: nat, ow: int, oh: int)
    requires h > 0 && ow > 0 && oh > 0 && w * oh < ow * h
    ensures var nh := (w * oh) / ow;
            0 <= nh < h && ClampedRows(h, w, ow as real / oh as real) == Rows((h - nh) / 2, nh)
  {
    RowsHeight(h, w, ow, oh);
  }

  /** Which of the three cuts `generate_thumbnail` makes, decided by the
      cross products; both orientation branches decide alike. */
  lemma GenerationCutChoice(h: nat, w: nat, ow: int, oh: int, portrait: bool)
    requires h > 0 && ow > 0 && oh > 0
    ensures var c := GenerationCut(h, w, ow, oh, portrait);
            (w * oh > ow * h ==> c == ClampedColumns(h, w, ow as real / oh as real))
            && (w * oh < ow * h ==> c == ClampedRows(h, w, ow as real / oh as real))
            && (w * oh == ow * h ==> c == Keep)
  {
    CompareQuotients(w, h, ow, oh);
    CompareQuotients(ow, oh, w, h);
  }

  /** For a positive output size and a frame of positive height the crop of
      `generate_thumbnail` does not depend on the orientation branch taken:
      a frame wider than ow:oh keeps ⌊h·ow/oh⌋ centred columns, a narrower
      one keeps ⌊w·oh/ow⌋ centred rows, and one at the ratio is kept
      whole. */
  lemma GenerationCutGeometry(h: nat, w: nat, ow: int, oh: int, portrait: bool)
    requires h > 0 && ow > 0 && oh > 0
    ensures GenerationCut(h, w, ow, oh, portrait) == GenerationCut(h, w, ow, oh, !portrait)
    ensures var g := Apply(GenerationCut(h, w, ow, oh, portrait), h, w);
            w * oh > ow * h ==> g.height == h && g.width == (h * ow) / oh && g.width < w && Centred(g, h, w)
    ensures var g := Apply(GenerationCut(h, w, ow, oh, portrait), h, w);
            w * oh < ow * h ==> g.width == w && g.height == (w * oh) / ow && g.height < h && Centred(g, h, w)
    ensures w * oh == ow * h <==> GenerationCut(h, w, ow, oh, portrait) == Keep
  {
    GenerationCutChoice(h, w, ow, oh, portrait);
    GenerationCutChoice(h, w, ow, oh, !portrait);
    if w * oh > ow * h {
      WideCut(h, w, ow, oh);
      CentredColumns(h, w, (h * ow) / oh);
    } else if w * oh < ow * h {
      TallCut(h, w, ow, oh);
      CentredRows(h, w, (w * oh) / ow);
    }
  }

  // ---------------------------------------------------------------------
  // Cropping to an orientation

  /** Keeping `int(height * target)` columns from `(width - new_width) // 2`. */
  function CentreColumns(h: nat, w: nat, target: real): Cut
  {
    var nw := Trunc(h as real * target);
    Columns((w - nw) / 2, nw)
  }

  /** Keeping `int(width / target)` rows from `(height - new_height) // 2`. */
  function CentreRows(h: nat, w: nat, target: real): Cut
    requires target != 0.0
  {
    var nh := Trunc(w as real / target);
    Rows((h - nh) / 2, nh)
  }

  /** The cut `crop_to_orientation` makes on an h-by-w image toward 16:9
      (landscape) or 9:16 (portrait); an image at that ratio is kept. */
  function OrientationCut(h: nat, w: nat, landscape: bool): Cut
    requires h > 0
  {
    var current := w as real / h as real;
    if landscape then
      var target := 16.0 / 9.0;
      if current < target then CentreRows(h, w, target)
      else if current > target then CentreColumns(h, w, target)
      else Keep
    else
      var target := 9.0 / 16.0;
      if current > target then CentreColumns(h, w, target)
      else if current < target then CentreRows(h, w, target)
      else Keep
  }

  /** `crop_to_orientation(image, orientation)` on the image's shape. An
      orientation other than 'landscape' or 'portrait' is an
      InvalidOrientationError. A shape of fewer than two dimensions (the
      unpacking fails), a zero height (the ratio divides by zero) and a
      two-dimensional image that needs cutting (the three-index slice
      fails) are CropErrors. */
  function CropToOrientation(shape: seq<int>, orientation: string): Result<seq<int>>
  {
    if orientation != "landscape" && orientation != "portrait" then Err(InvalidOrientationError)
    else if |shape| < 2 then Err(CropError)
    else
      var h, w := Dim(shape[0]), Dim(shape[1]);
      if h == 0 then Err(CropError)
      else
        var c := OrientationCut(h, w, orientation == "landscape");
        if c.Keep? then Ok(shape)
        else if |shape| < 3 then Err(CropError)
        else Ok(Reshaped(shape, Apply(c, h, w)))
  }

  /** Which cut `crop_to_orientation` makes toward a:b (16:9 or 9:16),
      decided by the cross products. */
  lemma OrientationCutChoice(h: nat, w: nat, landscape: bool, a: int, b: int)
    requires h > 0 && a > 0 && b > 0
    requires a as real / b as real == if landscape then 16.0 / 9.0 else 9.0 / 16.0
    ensures var c := OrientationCut(h, w, landscape);
            (w * b > a * h ==> c == CentreColumns(h, w, a as real / b as real))
            && (w * b < a * h ==> c == CentreRows(h, w, a as real / b as real))
            && (w * b == a * h ==> c == Keep)
  {
    CompareQuotients(w, h, a, b);
    CompareQuotients(a, b, w, h);
  }

  /** An image wider than a:b keeps ⌊h·a/b⌋ centred columns. */
  lemma OrientationWide(h: nat, w: nat, landscape: bool, a: int, b: int)
    requires h > 0 && a > 0 && b > 0 && w * b > a * h
    requires a as real / b as real == if landscape then 16.0 / 9.0 else 9.0 / 16.0
    ensures var g := Apply(OrientationCut(h, w, landscape), h, w);
            g.height == h && g.width == (h * a) / b && g.width < w && Centred(g, h, w)
  {
    OrientationCutChoice(h, w, landscape, a, b);
    var nw := (h * a) / b;
    ColumnsWidth(h, w, a, b);
    assert OrientationCut(h, w, landscape) == Columns((w - nw) / 2, nw);
    CentredColumns(h, w, nw);
  }

  /** An image narrower than a:b keeps ⌊w·b/a⌋ centred rows. */
  lemma OrientationTall(h: nat, w: nat, landscape: bool, a: int, b: int)
    requires h > 0 && a > 0 && b > 0 && w * b < a * h
    requires a as real / b as real == if landscape then 16.0 / 9.0 else 9.0 / 16.0
    ensures var g := Apply(OrientationCut(h, w, landscape), h, w);
            g.width == w && g.height == (w * b) / a && g.height < h && Centred(g, h, w)
  {
    OrientationCutChoice(h, w, landscape, a, b);
    var nh := (w * b) / a;
    RowsHeight(h, w, a, b);
    assert OrientationCut(h, w, landscape) == Rows((h - nh) / 2, nh);
    CentredRows(h, w, nh);
  }

  /** The cut toward a:b keeps ⌊h·a/b⌋ centred columns of an image wider
      than a:b, ⌊w·b/a⌋ centred rows of a narrower one, and all of one at
      the ratio. */
  lemma OrientationCutGeometry(h: nat, w: nat, landscape: bool, a: int, b: int)
    requires h > 0 && a > 0 && b > 0
    requires a as real / b as real == if landscape then 16.0 / 9.0 else 9.0 / 16.0
    ensures var g := Apply(OrientationCut(h, w, landscape), h, w);
            w * b > a * h ==> g.height == h && g.width == (h * a) / b && g.width < w && Centred(g, h, w)
    ensures var g := Apply(OrientationCut(h, w, landscape), h, w);
            w * b < a * h ==> g.width == w && g.height == (w * b) / a && g.height < h && Centred(g, h, w)
    ensures w * b == a * h <==> OrientationCut(h, w, landscape) == Keep
  {
    if w * b > a * h {
      OrientationWide(h, w, landscape, a, b);
    } else if w * b < a * h {
      OrientationTall(h, w, landscape, a, b);
    }
    OrientationCutChoice(h, w, landscape, a, b);
  }

  /** `crop_to_orientation` fails exactly as its error cases say; otherwise
      the result keeps every dimension past the first two, cuts only one
      axis, centred, to ⌊·⌋ of the target ratio, and returns an image
      already at 16:9 (9:16 for portrait) unchanged. */
  lemma CropToOrientationFacts(shape: seq<int>, orientation: string)
    ensures var r := CropToOrientation(shape, orientation);
            (r == Err(InvalidOrientationError) <==> orientation != "landscape" && orientation != "portrait")
            && (r.Err? ==> r.error == InvalidOrientationError || r.error == CropError)
    ensures var r := CropToOrientation(shape, orientation);
            r.Ok? ==> |r.value| == |shape| >= 2 && r.value[2..] == shape[2..] && Dim(shape[0]) > 0
    ensures var r := CropToOrientation(shape, orientation);
            var (a, b) := if orientation == "landscape" then (16, 9) else (9, 16);
            r.Ok? ==> var h, w := Dim(shape[0]), Dim(shape[1]);
                      (w * b == a * h ==> r.value == shape)
                      && (w * b > a * h ==> r.value[0] == h && r.value[1] == (h * a) / b)
                      && (w * b < a * h ==> r.value[1] == w && r.value[0] == (w * b) / a)
    ensures var r := CropToOrientation(shape, orientation);
            ((orientation == "landscape" || orientation == "portrait") && |shape| >= 3 && Dim(shape[0]) > 0
             ==> r.Ok?)
  {
    var r := CropToOrientation(shape, orientation);
    if r.Ok? {
      if orientation == "landscape" {
        OrientationCutGeometry(Dim(shape[0]), Dim(shape[1]), true, 16, 9);
      } else {
        OrientationCutGeometry(Dim(shape[0]), Dim(shape[1]), false, 9, 16);
      }
    }
  }

  // ---------------------------------------------------------------------
  // Resizing

  /** A resized image: its shape, and the window the scaled source occupies
      in it (all of it unless the image was letterboxed). */
  datatype Resized = Resized(shape: seq<int>, placed: Region)

  /** The scaled size `resize_image` computes with aspect preservation,
      in integers: the side that limits the scale at its target, the other
      at the truncated proportional length. `ScaledSizeIsTruncatedScale`
      shows this is `int(side * min(tw / cw, th / ch))` for both sides. */
  function ScaledSize(cw: nat, ch: nat, tw: int, th: int): (int, int)
    requires cw > 0 && ch > 0
  {
    if tw * ch <= th * cw then (tw, (ch * tw) / cw) else ((cw * th) / ch, th)
  }

  /** Neither scaled side exceeds its target. */
  lemma ScaledSizeFits(cw: nat, ch: nat, tw: int, th: int)
    requires cw > 0 && ch > 0 && tw > 0 && th > 0
    ensures var (nw, nh) := ScaledSize(cw, ch, tw, th);
            0 <= nw <= tw && 0 <= nh <= th
  {
    if tw * ch <= th * cw {
      QuotientAtMost(ch * tw, cw, th);
    } else {
      QuotientAtMost(cw * th, ch, tw);
    }
  }

  /** NumPy's broadcasting rule for assigning an array shaped `s` into a
      slice shaped `t`: aligned from the right, each axis of `s` is 1 or
      the axis of `t` it meets, and `s` has no more axes than `t`. */
  predicate Broadcasts(s: seq<int>, t: seq<int>)
    decreases |s|
  {
    if s == [] then true
    else if t == [] then false
    else (s[|s| - 1] == 1 || s[|s| - 1] == t[|t| - 1]) && Broadcasts(s[..|s| - 1], t[..|t| - 1])
  }

  /** `resize_image(image, target_width, target_height, maintain_aspect_ratio)`
      on the image's shape. Without aspect preservation the image is
      stretched to the target by `cv2.resize`. With it, the scaled size is
      taken and the image resized to it; a result short of the target is
      pasted centred on a black three-channel canvas of the target size.
      A non-positive target is an InvalidDimensionsError; every failure
      after that check is an ImageResizeError: a shape of fewer than two
      dimensions (the unpacking of `shape[:2]`), an empty source (a
      division by zero, or OpenCV refusing it), a shape `cv2.resize` does
      not take, a scaled side truncated to zero (OpenCV refuses an empty
      size), and a resized image that does not broadcast into the canvas
      window. */
  function ResizeImage(shape: seq<int>, tw: int, th: int, keepAspect: bool): Result<Resized>
  {
    if tw <= 0 || th <= 0 then Err(InvalidDimensionsError)
    else if |shape| < 2 then Err(ImageResizeError)
    else
      var ch, cw := Dim(shape[0]), Dim(shape[1]);
      if ch == 0 || cw == 0 then Err(ImageResizeError)
      else if !keepAspect then
        var stretched := CvResizedShape(shape, th, tw);
        if stretched.None? then Err(ImageResizeError)
        else Ok(Resized(stretched.value, Region(0, 0, th, tw)))
      else
        ScaledSizeFits(cw, ch, tw, th);
        var (nw, nh) := ScaledSize(cw, ch, tw, th);
        var scaled := CvResizedShape(shape, nh, nw);
        if nw == 0 || nh == 0 || scaled.None? then Err(ImageResizeError)
        else if nw == tw && nh == th then Ok(Resized(scaled.value, Region(0, 0, nh, nw)))
        else if !Broadcasts(scaled.value, [nh, nw, 3]) then Err(ImageResizeError)
        else Ok(Resized([th, tw, 3], Region((th - nh) / 2, (tw - nw) / 2, nh, nw)))
  }

  /** Scaling limited by the width: the width comes out at its target, the
      height at ⌊ch·tw/cw⌋. */
  lemma WidthLimits(cw: nat, ch: nat, tw: int, th: int)
    requires cw > 0 && ch > 0 && tw > 0 && th > 0 && tw * ch <= th * cw
    ensures var scale := Min(tw as real / cw as real, th as real / ch as real);
            Trunc(cw as real * scale) == tw && Trunc(ch as real * scale) == (ch * tw) / cw <= th
  {
    var sw := tw as real / cw as real;
    assert Min(sw, th as real / ch as real) == sw by {
      CompareQuotients(th, ch, tw, cw);
    }
    assert cw as real * sw == tw as real;
    assert ch as real * sw == (ch * tw) as real / cw as real;
    TruncQuotient(ch * tw, cw);
    QuotientAtMost(ch * tw, cw, th);
  }

  /** Scaling limited by the height: the height comes out at its target,
      the width at ⌊cw·th/ch⌋. */
  lemma HeightLimits(cw: nat, ch: nat, tw: int, th: int)
    requires cw > 0 && ch > 0 && tw > 0 && th > 0 && tw * ch >= th * cw
    ensures var scale := Min(tw as real / cw as real, th as real / ch as real);
            Trunc(ch as real * scale) == th && Trunc(cw as real * scale) == (cw * th) / ch <= tw
  {
    var sh := th as real / ch as real;
    assert Min(tw as real / cw as real, sh) == sh by {
      CompareQuotients(th, ch, tw, cw);
    }
    assert ch as real * sh == th as real;
    assert cw as real * sh == (cw * th) as real / ch as real;
    TruncQuotient(cw * th, ch);
    QuotientAtMost(cw * th, ch, tw);
  }

  /** The integer scaled size is what the source computes on floats:
      each side times the smaller of the two ratios, truncated. */
  lemma ScaledSizeIsTruncatedScale(cw: nat, ch: nat, tw: int, th: int)
    requires cw > 0 && ch > 0 && tw > 0 && th > 0
    ensures var scale := Min(tw as real / cw as real, th as real / ch as real);
            ScaledSize(cw, ch, tw, th) == (Trunc(cw as real * scale), Trunc(ch as real * scale))
  {
    if tw * ch <= th * cw {
      WidthLimits(cw, ch, tw, th);
    } else {
      HeightLimits(cw, ch, tw, th);
    }
  }

  /** `resize_image` fails with InvalidDimensionsError exactly for a
      non-positive target and otherwise only with ImageResizeError; its
      output is exactly target_height × target_width in its first two
      dimensions, with the scaled image centred in it. */
  lemma ResizeImageFits(shape: seq<int>, tw: int, th: int, keepAspect: bool)
    ensures var r := ResizeImage(shape, tw, th, keepAspect);
            (r == Err(InvalidDimensionsError) <==> tw <= 0 || th <= 0)
            && (r.Err? ==> r.error == InvalidDimensionsError || r.error == ImageResizeError)
    ensures var r := ResizeImage(shape, tw, th, keepAspect);
            r.Ok? ==> |r.value.shape| >= 2 && r.value.shape[0] == th && r.value.shape[1] == tw
                      && Centred(r.value.placed, th, tw)
  {
    var r := ResizeImage(shape, tw, th, keepAspect);
    if r.Ok? && keepAspect {
      var (nw, nh) := ScaledSize(Dim(shape[1]), Dim(shape[0]), tw, th);
      ScaledSizeFits(Dim(shape[1]), Dim(shape[0]), tw, th);
      if nw == tw && nh == th {
        assert r.value.placed == Region(0, 0, th, tw);
      } else {
        assert r.value.placed == Region((th - nh) / 2, (tw - nw) / 2, nh, nw);
      }
    }
  }

  /** With aspect preservation the scaled image fills the side that limits
      the scale and keeps the source's ratio, up to truncation, on the
      other. */
  lemma ResizeImageKeepsAspect(shape: seq<int>, tw: int, th: int)
    ensures var r := ResizeImage(shape, tw, th, true);
            r.Ok? ==>
              var ch, cw := Dim(shape[0]), Dim(shape[1]);
              var g := r.value.placed;
              (tw * ch <= th * cw ==> g.width == tw && g.height == (ch * tw) / cw)
              && (tw * ch >= th * cw ==> g.height == th && g.width == (cw * th) / ch)
  {
    var r := ResizeImage(shape, tw, th, true);
    if r.Ok? {
      var ch, cw := Dim(shape[0]), Dim(shape[1]);
      var (nw, nh) := ScaledSize(cw, ch, tw, th);
      assert r.value.placed.width == nw && r.value.placed.height == nh;
      if tw * ch == th * cw {
        ExactQuotient(th, cw);
        ExactQuotient(tw, ch);
        assert ch * tw == th * cw && cw * th == tw * ch;
      }
    }
  }

  /** Dividing a multiple by its factor gives the other factor back. */
  lemma ExactQuotient(x: int, d: int)
    requires d > 0
    ensures (x * d) / d == x
  {
    var q, m := (x * d) / d, (x * d) % d;
    assert q * d + m == x * d && 0 <= m < d;
    assert (x + 1) * d == x * d + d && (x - 1) * d == x * d - d;
    MulCancel(q, x + 1, d);
    MulCancel(x - 1, q, d);
  }

  /** A three-channel source with positive sides is resized unless, with
      aspect preservation, a scaled side truncates to zero: the width needs
      tw·ch ≥ cw and the height th·cw ≥ ch. */
  lemma ResizeImageSucceeds(shape: seq<int>, tw: int, th: int, keepAspect: bool)
    requires tw > 0 && th > 0 && |shape| == 3 && shape[2] == 3 && shape[0] > 0 && shape[1] > 0
    ensures ResizeImage(shape, tw, th, keepAspect).Ok?
            <==> !keepAspect || (tw * shape[0] >= shape[1] && th * shape[1] >= shape[0])
  {
    if keepAspect {
      var ch, cw := shape[0], shape[1];
      var (nw, nh) := ScaledSize(cw, ch, tw, th);
      ScaledSizeFits(cw, ch, tw, th);
      assert CvResizedShape(shape, nh, nw) == Some([nh, nw, 3]);
      BroadcastsItself([nh, nw, 3]);
      assert ResizeImage(shape, tw, th, true).Ok? <==> nw > 0 && nh > 0;
      ScaledSizePositive(cw, ch, tw, th);
    }
  }

  /** Both scaled sides are positive exactly when tw·ch ≥ cw and th·cw ≥ ch. */
  lemma ScaledSizePositive(cw: nat, ch: nat, tw: int, th: int)
    requires cw > 0 && ch > 0 && tw > 0 && th > 0
    ensures var (nw, nh) := ScaledSize(cw, ch, tw, th);
            nw > 0 && nh > 0 <==> tw * ch >= cw && th * cw >= ch
  {
    if tw * ch <= th * cw {
      QuotientAtLeastOne(ch * tw, cw);
      AtLeastFactor(tw, ch);
    } else {
      QuotientAtLeastOne(cw * th, ch);
      AtLeastFactor(th, cw);
    }
  }

  /** A positive multiple of n is at least n. */
  lemma AtLeastFactor(k: int, n: nat)
    requires k >= 1
    ensures k * n >= n
  {
    assert k * n == (k - 1) * n + n;
  }

  /** Every shape broadcasts into itself. */
  lemma {:induction false} BroadcastsItself(s: seq<int>)
    ensures Broadcasts(s, s)
    decreases |s|
  {
    if s != [] {
      BroadcastsItself(s[..|s| - 1]);
    }
  }

  /** The axes `cv2.resize` takes: stretching a non-empty image succeeds
      exactly for a two-dimensional image or one of 1 to `MaxChannels`
      channels, and a single channel comes back two-dimensional; an image
      of four or more dimensions is an ImageResizeError in either mode. */
  lemma ResizeImageAxes(shape: seq<int>, tw: int, th: int, keepAspect: bool)
    requires tw > 0 && th > 0 && |shape| >= 2 && shape[0] > 0 && shape[1] > 0
    ensures |shape| >= 4 ==> ResizeImage(shape, tw, th, keepAspect) == Err(ImageResizeError)
    ensures var r := ResizeImage(shape, tw, th, false);
            (r.Ok? <==> |shape| == 2 || (|shape| == 3 && 1 <= shape[2] <= MaxChannels))
            && (r.Err? ==> r.error == ImageResizeError)
            && (r.Ok? && (|shape| == 2 || shape[2] == 1) ==> r.value.shape == [th, tw])
            && (r.Ok? && |shape| == 3 && shape[2] != 1 ==> r.value.shape == [th, tw, shape[2]])
  {
  }

  /** ⌊p/d⌋ is at least one exactly when p is at least d. */
  lemma QuotientAtLeastOne(p: int, d: int)
    requires p >= 0 && d > 0
    ensures p / d >= 1 <==> p >= d
  {
  }

  // ---------------------------------------------------------------------
  // Generating thumbnails

  /** What `generate_thumbnail` yields for frame `f`: a thumbnail of it with
      the given settings, at the output size, unselected, unsaved, with a
      zero diversity score and the total score of its measured quality. */
  predicate MadeFrom(t: Thumbnail, f: Frame, s: UserSettings, stats: ImageStats)
    reads t, f
  {
    t.sourceFrame == f && t.userSettings == s
    && t.Shaped() && t.Width() == s.settings.outputWidth && t.Height() == s.settings.outputHeight
    && t.diversityScore == 0.0 && t.filePath == None && !t.isSelected
    && t.totalScore == TotalScore(0.0, s.settings.diversityWeight,
                                  ImageQuality(Brightness(stats.gray), Contrast(stats.gray),
                                               ColorRichness(stats), f.qualityScore))
  }

  /** `generate_thumbnail(frame, settings)`: the frame's image cut toward
      the output ratio becomes a thumbnail at the output size, which is then
      measured (`stats` are the measurements of the thumbnail's image, the
      cut resized to the output size). It succeeds
      exactly for a frame that renders; a shape that cannot be unpacked, and
      every failure of `Thumbnail.create_from_frame`, are a
      ThumbnailGenerationError. */
  method GenerateThumbnail(frame: Frame, settings: UserSettings, stats: ImageStats)
    returns (r: Result<Thumbnail>)
    ensures r.Ok? <==> Renders(frame, settings)
    ensures r.Err? ==> r.error == ThumbnailGenerationError
    ensures r.Ok? ==> fresh(r.value) && MadeFrom(r.value, frame, settings, stats)
  {
    if |frame.shape| < 2 {
      return Err(ThumbnailGenerationError);
    }
    var processed := GeneratedShape(frame.shape, settings.settings);
    var t := CreateFromFrame(frame, settings, Some(processed), stats);
    if t.Err? {
      return Err(ThumbnailGenerationError);
    }
    t.value.UpdateQualityMetrics(stats);
    return Ok(t.value);
  }

  /** A frame a thumbnail can be made of with these settings: its image is
      three-dimensional with three channels, and the cut image is one
      `cv2.resize` accepts (it is not empty, or already has the output
      size). */
  predicate Renders(f: Frame, s: UserSettings)
  {
    f.ImageShaped()
    && !ResizeRefused(GeneratedShape(f.shape, s.settings), s.settings.outputWidth, s.settings.outputHeight)
  }

  /** For a positive output size, a three-channel frame renders exactly
      when its cut keeps at least one row and one column. */
  lemma RendersIffCutNonEmpty(f: Frame, s: UserSettings)
    requires f.ImageShaped() && s.settings.outputWidth > 0 && s.settings.outputHeight > 0
    ensures var g := GeneratedShape(f.shape, s.settings);
            Renders(f, s) <==> g[0] > 0 && g[1] > 0
  {
  }

  /** A three-channel frame of a single pixel does not render for a
      1080 x 1920 portrait output: `int(1 * 0.5625)` keeps no column, and
      OpenCV refuses to resize the empty cut. */
  lemma SinglePixelDoesNotRender(f: Frame, s: UserSettings)
    requires f.shape == [1, 1, 3]
    requires s.settings.outputWidth == 1080 && s.settings.outputHeight == 1920
    ensures f.ImageShaped() && !Renders(f, s)
  {
    var target := 1080 as real / 1920 as real;
    assert IsPortraitOutput(s.settings);
    assert 1 as real / 1 as real > target;
    assert Trunc(1 as real * target) == 0;
    assert GenerationCut(1, 1, 1080, 1920, true) == Columns(0, 0);
    assert Apply(Columns(0, 0), 1, 1) == Region(0, 0, 1, 0);
    assert GeneratedShape(f.shape, s.settings) == [1, 0, 3];
  }

  /** The frames a thumbnail can be made of, in order. */
  function Renderable(frames: seq<Frame>, s: UserSettings): seq<Frame>
  {
    if frames == [] then []
    else
      var last := frames[|frames| - 1];
      Renderable(frames[..|frames| - 1], s) + (if Renders(last, s) then [last] else [])
  }

  /** The renderable frames are exactly the frames that render, none more
      often than in the input; there are none exactly when no frame
      renders. */
  lemma {:induction false} RenderableExact(frames: seq<Frame>, s: UserSettings)
    ensures forall f :: f in Renderable(frames, s) <==> f in frames && Renders(f, s)
    ensures |Renderable(frames, s)| <= |frames|
    ensures Renderable(frames, s) == [] <==> forall i :: 0 <= i < |frames| ==> !Renders(frames[i], s)
    decreases |frames|
  {
    if frames != [] {
      var init := frames[..|frames| - 1];
      RenderableExact(init, s);
      assert frames == init + [frames[|frames| - 1]];
      forall i | 0 <= i < |init| ensures init[i] == frames[i] { }
    }
  }

  /** The progress values reported while the first k of `total` frames are
      processed: `(i + 1) / total` for each index i in turn. */
  function ProgressValues(total: int, k: nat): (p: seq<real>)
    requires total != 0 || k == 0
    ensures |p| == k
  {
    if k == 0 then [] else ProgressValues(total, k - 1) + [k as real / total as real]
  }

  /** The value reported for index i. */
  lemma {:induction false} ProgressAt(total: int, k: nat, i: nat)
    requires total != 0 && i < k
    ensures ProgressValues(total, k)[i] == (i + 1) as real / total as real
  {
    if i < k - 1 {
      ProgressAt(total, k - 1, i);
    }
  }

  /** A later index reports more. */
  lemma ProgressStep(total: int, i: nat, j: nat)
    requires 0 <= i < j < total
    ensures ProgressValues(total, total)[i] < ProgressValues(total, total)[j]
  {
    ProgressAt(total, total, i);
    ProgressAt(total, total, j);
    CompareQuotients(i + 1, total, j + 1, total);
    assert (j + 1) * total - (i + 1) * total == (j - i) * total;
  }

  /** Every index reports a value in (0, 1]. */
  lemma ProgressBounded(total: int, i: nat)
    requires 0 <= i < total
    ensures 0.0 < ProgressValues(total, total)[i] <= 1.0
  {
    ProgressAt(total, total, i);
    CompareQuotients(i + 1, total, total, total);
    assert total * total - (i + 1) * total == (total - i - 1) * total;
  }

  /** Over a positive total the reported progress rises strictly, stays in
      (0, 1] and ends at exactly 1. */
  lemma ProgressRises(total: int)
    requires total > 0
    ensures var p := ProgressValues(total, total);
            (forall i, j :: 0 <= i < j < total ==> p[i] < p[j])
            && (forall i :: 0 <= i < total ==> 0.0 < p[i] <= 1.0)
            && p[total - 1] == 1.0
  {
    forall i, j | 0 <= i < j < total
      ensures ProgressValues(total, total)[i] < ProgressValues(total, total)[j]
    {
      ProgressStep(total, i, j);
    }
    forall i | 0 <= i < total
      ensures 0.0 < ProgressValues(total, total)[i] <= 1.0
    {
      ProgressBounded(total, i);
    }
    ProgressAt(total, total, total - 1);
  }

  /** `extract_thumbnails(frames, settings, progress_callback)`: no frames
      is an InsufficientFramesError and no settings an InvalidSettingsError.
      Otherwise the first min(len(frames), thumbnail_count) frames (a
      Python slice) are processed in order; before each the callback, when
      there is one (`listening`), receives the progress; a frame whose
      thumbnail fails is skipped; no thumbnail at all is a
      ThumbnailExtractionError. `measure` gives the measurements of each
      frame's cut image. */
  method ExtractThumbnails(frames: seq<Frame>, settings: Option<UserSettings>,
                           measure: Frame -> ImageStats, listening: bool)
    returns (r: Result<seq<Thumbnail>>, progress: seq<real>)
    ensures frames == [] ==> r == Err(InsufficientFramesError) && progress == []
    ensures frames != [] && settings.None? ==> r == Err(InvalidSettingsError) && progress == []
    ensures frames != [] && settings.Some? ==>
              var total := MinInt(|frames|, settings.value.settings.thumbnailCount);
              var processed := SliceTo(frames, total);
              progress == (if listening then ProgressValues(total, |processed|) else [])
              && (r.Ok? <==> Renderable(processed, settings.value) != [])
              && (r.Err? ==> r.error == ThumbnailExtractionError)
              && (r.Ok? ==> |r.value| == |Renderable(processed, settings.value)|
                            && forall k :: 0 <= k < |r.value| ==>
                                 fresh(r.value[k])
                                 && MadeFrom(r.value[k], Renderable(processed, settings.value)[k], settings.value,
                                             measure(Renderable(processed, settings.value)[k])))
  {
    progress := [];
    if frames == [] {
      return Err(InsufficientFramesError), progress;
    }
    if settings.None? {
      return Err(InvalidSettingsError), progress;
    }
    var s := settings.value;
    var total := MinInt(|frames|, s.settings.thumbnailCount);
    var processed := SliceTo(frames, total);
    var thumbnails: seq<Thumbnail> := [];
    var i := 0;
    while i < |processed|
      invariant 0 <= i <= |processed|
      invariant progress == (if listening then ProgressValues(total, i) else [])
      invariant |thumbnails| == |Renderable(processed[..i], s)|
      invariant forall k :: 0 <= k < |thumbnails| ==>
                  fresh(thumbnails[k])
                  && MadeFrom(thumbnails[k], Renderable(processed[..i], s)[k], s, measure(Renderable(processed[..i], s)[k]))
    {
      var frame := processed[i];
      if listening {
        progress := progress + [(i + 1) as real / total as real];
      }
      var t := GenerateThumbnail(frame, s, measure(frame));
      assert processed[..i + 1] == processed[..i] + [frame];
      if t.Ok? {
        thumbnails := thumbnails + [t.value];
      }
      i := i + 1;
    }
    assert processed[..i] == processed;
    if thumbnails == [] {
      return Err(ThumbnailExtractionError), progress;
    }
    return Ok(thumbnails), progress;
  }

  // ---------------------------------------------------------------------
  // Saving

  /** What the file system reports during one `save_thumbnail`: whether
      the directory could be created, the free space `shutil.disk_usage`
      reports (none when it fails), whether the write-permission probe
      succeeds, and whether the image write succeeds. */
  datatype SaveEnv = SaveEnv(mkdirOk: bool, free: Option<int>, writable: bool, written: bool)

  /** `_check_disk_space(directory, required_bytes)`: twice the required
      bytes must be free; when the free space cannot be read the check
      passes. */
  predicate HasDiskSpace(free: Option<int>, required: int)
  {
    free.None? || free.value >= required * 2
  }

  /** The outcome of `save_thumbnail` for a thumbnail of the given image
      shape: an error kind, or whether the write succeeded. The pixel count
      reads the first two dimensions; three bytes per pixel are needed. */
  function SaveVerdict(e: SaveEnv, shape: seq<int>): Result<bool>
  {
    if !e.mkdirOk then Err(FileSaveError)
    else if |shape| < 2 then Err(FileSaveError)
    else if !HasDiskSpace(e.free, shape[1] * shape[0] * 3) then Err(DiskSpaceError)
    else if !e.writable then Err(FilePermissionError)
    else Ok(e.written)
  }

  /** `save_thumbnail` raises DiskSpaceError exactly when less than twice
      three bytes per pixel are known to be free, FilePermissionError
      exactly when there is room but the directory is not writable, and
      otherwise only FileSaveError; when it gets to the write it reports
      the write's success. */
  lemma SaveVerdictCases(e: SaveEnv, shape: seq<int>)
    ensures var r := SaveVerdict(e, shape);
            (r == Err(DiskSpaceError)
             <==> e.mkdirOk && |shape| >= 2 && e.free.Some? && e.free.value < 6 * (shape[0] * shape[1]))
            && (r == Err(FilePermissionError)
                <==> e.mkdirOk && |shape| >= 2 && HasDiskSpace(e.free, shape[1] * shape[0] * 3) && !e.writable)
            && (r.Ok? <==> e.mkdirOk && |shape| >= 2 && HasDiskSpace(e.free, shape[1] * shape[0] * 3) && e.writable)
            && (r.Ok? ==> r.value == e.written)
            && (r.Err? ==> r.error == DiskSpaceError || r.error == FilePermissionError || r.error == FileSaveError)
  {
    if e.mkdirOk && |shape| >= 2 {
      assert shape[1] * shape[0] * 3 * 2 == 6 * (shape[0] * shape[1]);
    }
  }

  /** `save_thumbnail(thumbnail, file_path)`: the outcome is `SaveVerdict`;
      a successful write records the path in the thumbnail, which nothing
      else changes. */
  method SaveThumbnail(t: Thumbnail, path: string, e: SaveEnv) returns (r: Result<bool>)
    modifies t`filePath
    ensures r == SaveVerdict(e, t.shape)
    ensures t.filePath == if r == Ok(true) then Some(path) else old(t.filePath)
  {
    r := SaveVerdict(e, t.shape);
    if r.Ok? {
      // With overwriting on, whether the file exists already does not matter.
      var saved := t.Save(Some(path), true, {}, e.written);
      r := Ok(saved);
    }
  }

  /** What the file system reports before a batch: whether the output
      directory could be created and whether it is writable. */
  datatype BatchEnv = BatchEnv(mkdirOk: bool, writable: bool)

  /** What a batch needs of one thumbnail: its image shape and its file
      name. */
  datatype Entry = Entry(shape: seq<int>, name: string)

  /** The file name of the thumbnail at index i of a batch:
      `get_output_filename` of its settings with the index and its frame's
      timestamp. */
  function FileName(t: Thumbnail, i: int): string
  {
    OutputFilename(t.userSettings.settings, i, Some(t.sourceFrame.timestamp))
  }

  /** The batch entry of the thumbnail at index i. */
  function EntryOf(t: Thumbnail, i: int): Entry
    reads t
  {
    Entry(t.shape, FileName(t, i))
  }

  /** The entries of a list of thumbnails. */
  function Entries(ts: seq<Thumbnail>): (es: seq<Entry>)
    reads ts
    ensures |es| == |ts| && forall i :: 0 <= i < |ts| ==> es[i] == EntryOf(ts[i], i)
  {
    seq(|ts|, i reads ts requires 0 <= i < |ts| => EntryOf(ts[i], i))
  }

  /** `output_path / filename`. */
  function Join(dir: string, name: string): string { dir + "/" + name }

  /** Whether the i-th save of a batch writes its file. */
  predicate Written(es: seq<Entry>, env: nat -> SaveEnv, i: nat)
    requires i < |es|
  {
    SaveVerdict(env(i), es[i].shape) == Ok(true)
  }

  /** The paths the first k saves of a batch write, in order. */
  function SavedPaths(dir: string, es: seq<Entry>, env: nat -> SaveEnv, k: nat): seq<string>
    requires k <= |es|
  {
    if k == 0 then []
    else SavedPaths(dir, es, env, k - 1) + (if Written(es, env, k - 1) then [Join(dir, es[k - 1].name)] else [])
  }

  /** How many of the first k saves of a batch fail: an exception or a
      refused write each count once. */
  function Failures(es: seq<Entry>, env: nat -> SaveEnv, k: nat): nat
    requires k <= |es|
  {
    if k == 0 then 0 else Failures(es, env, k - 1) + (if Written(es, env, k - 1) then 0 else 1)
  }

  /** `save_thumbnails_batch(thumbnails, output_directory)`: nothing to save
      gives no paths; a directory that cannot be created or written is a
      DirectoryError; otherwise every thumbnail is saved in turn and more
      than half failing is a BatchSaveError. */
  function BatchSave(dir: string, es: seq<Entry>, b: BatchEnv, env: nat -> SaveEnv): Result<seq<string>>
  {
    if es == [] then Ok([])
    else if !b.mkdirOk || !b.writable then Err(DirectoryError)
    else if Failures(es, env, |es|) as real > |es| as real * 0.5 then Err(BatchSaveError)
    else Ok(SavedPaths(dir, es, env, |es|))
  }

  /** The indices of the first k saves that write their file. */
  function WrittenIndices(es: seq<Entry>, env: nat -> SaveEnv, k: nat): seq<nat>
    requires k <= |es|
  {
    if k == 0 then []
    else WrittenIndices(es, env, k - 1) + (if Written(es, env, k - 1) then [k - 1] else [])
  }

  /** The written indices rise strictly, are exactly the saves below k that
      write, and together with the failures account for every save. */
  lemma {:induction false} WrittenIndicesExact(es: seq<Entry>, env: nat -> SaveEnv, k: nat)
    requires k <= |es|
    ensures var ix := WrittenIndices(es, env, k);
            (forall i, j :: 0 <= i < j < |ix| ==> ix[i] < ix[j])
            && (forall i: nat :: i in ix <==> i < k && Written(es, env, i))
            && |ix| + Failures(es, env, k) == k
  {
    if k > 0 {
      WrittenIndicesExact(es, env, k - 1);
      var ix := WrittenIndices(es, env, k - 1);
      forall i | 0 <= i < |ix| ensures ix[i] < k - 1 {
        assert ix[i] in ix;
      }
    }
  }

  /** The saved paths are the paths of the written indices, in the same
      order. */
  lemma {:induction false} SavedPathsExact(dir: string, es: seq<Entry>, env: nat -> SaveEnv, k: nat)
    requires k <= |es|
    ensures var ix := WrittenIndices(es, env, k);
            |SavedPaths(dir, es, env, k)| == |ix|
            && forall j :: 0 <= j < |ix| ==> ix[j] < k && SavedPaths(dir, es, env, k)[j] == Join(dir, es[ix[j]].name)
  {
    if k > 0 {
      SavedPathsExact(dir, es, env, k - 1);
    }
  }

  /** A batch over a usable directory succeeds exactly when at least half
      of its saves write their file, and then returns their paths; the
      errors are those of the directory and the failure rate only. */
  lemma BatchSaveOutcome(dir: string, es: seq<Entry>, b: BatchEnv, env: nat -> SaveEnv)
    ensures var r := BatchSave(dir, es, b, env);
            var saved := SavedPaths(dir, es, env, |es|);
            (r.Err? ==> r.error == DirectoryError || r.error == BatchSaveError)
            && (r == Err(DirectoryError) <==> es != [] && !(b.mkdirOk && b.writable))
            && (es != [] && b.mkdirOk && b.writable ==> (r.Ok? <==> 2 * |saved| >= |es|))
            && (r.Ok? ==> r.value == saved)
  {
    WrittenIndicesExact(es, env, |es|);
    SavedPathsExact(dir, es, env, |es|);
  }

  /** No two positions of the list hold the same thumbnail. */
  predicate Distinct(ts: seq<Thumbnail>)
  {
    forall i, j :: 0 <= i < j < |ts| ==> ts[i] != ts[j]
  }

  /** Every field of the thumbnails other than the file path is as it was
      in the earlier state. */
  twostate predicate OnlyPathsChanged(ts: seq<Thumbnail>)
    reads ts
  {
    forall k :: 0 <= k < |ts| ==>
      ts[k].shape == old(ts[k].shape) && ts[k].diversityScore == old(ts[k].diversityScore)
      && ts[k].totalScore == old(ts[k].totalScore) && ts[k].isSelected == old(ts[k].isSelected)
      && ts[k].metadata == old(ts[k].metadata)
  }

  /** The file path of each of the thumbnails after the first k saves of a
      batch: the path written, or the one it had. */
  twostate predicate PathsRecorded(ts: seq<Thumbnail>, dir: string, es: seq<Entry>, env: nat -> SaveEnv, k: nat)
    requires |es| == |ts|
    reads ts
  {
    forall j :: 0 <= j < |ts| ==>
      ts[j].filePath == if j < k && Written(es, env, j) then Some(Join(dir, es[j].name))
                        else old(ts[j].filePath)
  }

  /** One pass of the loop of `save_thumbnails_batch`: the i-th thumbnail
      is saved under its own file name in the directory; the path is
      recorded exactly when the file was written. */
  method SaveNext(t: Thumbnail, i: nat, dir: string, env: nat -> SaveEnv, es: seq<Entry>)
    returns (path: string, ok: bool)
    requires i < |es| && t.shape == es[i].shape
    modifies t`filePath
    ensures path == Join(dir, es[i].name) && (ok <==> Written(es, env, i))
    ensures t.filePath == if ok then Some(path) else old(t.filePath)
  {
    path := Join(dir, es[i].name);
    var r := SaveThumbnail(t, path, env(i));
    ok := r == Ok(true);
  }

  /** The loop of `save_thumbnails_batch`: saves every thumbnail in turn
      under its own file name, collecting the paths written and counting
      the saves that raise or report failure. */
  method SaveEach(ts: seq<Thumbnail>, dir: string, env: nat -> SaveEnv, es: seq<Entry>)
    returns (saved: seq<string>, failed: nat)
    requires |es| == |ts| && forall k :: 0 <= k < |ts| ==> es[k].shape == ts[k].shape
    modifies ts
    ensures saved == SavedPaths(dir, es, env, |ts|) && failed == Failures(es, env, |ts|)
    ensures OnlyPathsChanged(ts)
    ensures Distinct(ts) ==> PathsRecorded(ts, dir, es, env, |ts|)
  {
    saved, failed := [], 0;
    var i := 0;
    while i < |ts|
      invariant 0 <= i <= |ts|
      invariant saved == SavedPaths(dir, es, env, i) && failed == Failures(es, env, i)
      invariant forall k :: 0 <= k < |ts| ==> es[k].shape == ts[k].shape
      invariant OnlyPathsChanged(ts)
      invariant Distinct(ts) ==> PathsRecorded(ts, dir, es, env, i)
    {
      label before:
      var path, ok := SaveNext(ts[i], i, dir, env, es);
      if ok {
        saved := saved + [path];
      } else {
        failed := failed + 1;
      }
      if Distinct(ts) {
        forall k | 0 <= k < |ts| && k != i
          ensures ts[k].filePath == old@before(ts[k].filePath)
        {
          assert ts[k] != ts[i];
        }
      }
      i := i + 1;
    }
  }

  /** `save_thumbnails_batch(thumbnails, output_directory)`: the result is
      `BatchSave` of the thumbnails' entries. Only file paths change: when
      the thumbnails are distinct, each one whose file was written records
      its path and the others keep theirs. */
  method SaveThumbnailsBatch(ts: seq<Thumbnail>, dir: string, b: BatchEnv, env: nat -> SaveEnv)
    returns (r: Result<seq<string>>)
    modifies ts
    ensures r == BatchSave(dir, old(Entries(ts)), b, env)
    ensures OnlyPathsChanged(ts)
    ensures Distinct(ts) ==>
              forall i :: 0 <= i < |ts| ==>
                ts[i].filePath == if b.mkdirOk && b.writable && Written(old(Entries(ts)), env, i)
                                  then Some(Join(dir, old(Entries(ts))[i].name)) else old(ts[i].filePath)
  {
    var es := Entries(ts);
    if ts == [] {
      return Ok([]);
    }
    if !b.mkdirOk || !b.writable {
      return Err(DirectoryError);
    }
    var saved, failed := SaveEach(ts, dir, env, es);
    if failed as real > |ts| as real * 0.5 {
      return Err(BatchSaveError);
    }
    return Ok(saved);
  }

  // ---------------------------------------------------------------------
  // Creating the job

  /** `create_extraction_job(frames, settings)`: a job for the first
      frame's video with the settings, holding every frame in order. With
      no frames the video is None, which `ThumbnailExtractionJob.create`
      refuses; that refusal, missing settings and a blank identifier are
      all reported as ThumbnailExtractionError. The identifier (a fresh
      UUID in the source) and the clock are given. */
  method CreateExtractionJob(frames: seq<Frame>, settings: Option<UserSettings>, jobId: string,
                             createdAt: real) returns (r: Result<ExtractionJob>)
    ensures r.Err? <==> frames == [] || settings.None? || Text.IsBlank(jobId)
    ensures r.Err? ==> r.error == ThumbnailExtractionError
    ensures r.Ok? ==> fresh(r.value) && r.value.jobId == jobId && r.value.status == JobStatus.Created
                      && r.value.videoFile == Some(frames[0].video) && r.value.userSettings == settings
                      && r.value.extractedFrames == frames && r.value.generatedThumbnails == []
  {
    if frames == [] || settings.None? {
      return Err(ThumbnailExtractionError);
    }
    var created := Create(jobId, frames[0].video, settings.value, createdAt, false, false);
    if created.Err? {
      return Err(ThumbnailExtractionError);
    }
    var job := created.value;
    var i := 0;
    while i < |frames|
      invariant 0 <= i <= |frames|
      invariant job.extractedFrames == frames[..i]
      invariant job.jobId == jobId && job.status == JobStatus.Created && job.generatedThumbnails == []
      invariant job.videoFile == Some(frames[0].video) && job.userSettings == settings
    {
      job.AddExtractedFrame(frames[i]);
      i := i + 1;
    }
    assert frames[..i] == frames;
    return Ok(job);
  }
}
