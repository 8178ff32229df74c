/**
 The unit conversion at the heart of the VOC-to-YOLO converter: an absolute-pixel
 bounding box and the image size become a centre/size box expressed as fractions
 of the image size.

 Coordinates are modelled as mathematical reals. The script reads them with
 `float(...)` and divides in IEEE doubles; the model idealises that arithmetic
 as exact, so the round trips below hold exactly rather than within rounding.
 Image sizes are integers, as the script reads them with `int(...)`.
 */
module Geometry {

  /** A PASCAL VOC box in absolute pixels, as found under `<bndbox>`. */
  datatype VocBox = VocBox(xmin: real, xmax: real, ymin: real, ymax: real)

  /** A YOLO box: centre and size, each divided by the image width or height. */
  datatype YoloBox = YoloBox(xCenter: real, yCenter: real, width: real, height: real)

  /** Normalises `b` against a `w` x `h` image. Python raises ZeroDivisionError when
      either size is zero, so that is the one thing demanded of the caller; negative
      sizes divide like any other number and are admitted. Scaling each result back
      by the image size gives the box's pixel centre and pixel extent. */
  function Normalize(b: VocBox, w: int, h: int): (y: YoloBox)
    requires w != 0 && h != 0
    ensures y.xCenter * (w as real) == (b.xmin + b.xmax) / 2.0
    ensures y.yCenter * (h as real) == (b.ymin + b.ymax) / 2.0
    ensures y.width * (w as real) == b.xmax - b.xmin
    ensures y.height * (h as real) == b.ymax - b.ymin
  {
    YoloBox(
      ((b.xmin + b.xmax) / 2.0) / (w as real),
      ((b.ymin + b.ymax) / 2.0) / (h as real),
      (b.xmax - b.xmin) / (w as real),
      (b.ymax - b.ymin) / (h as real))
  }

  /** The inverse conversion, from normalised centre/size back to pixel corners.
      The script never performs it; the round-trip lemmas below use it to show
      that Normalize loses nothing. */
  function Denormalize(y: YoloBox, w: int, h: int): (b: VocBox)
    ensures b.xmin + b.xmax == 2.0 * y.xCenter * (w as real)
    ensures b.xmax - b.xmin == y.width * (w as real)
    ensures b.ymin + b.ymax == 2.0 * y.yCenter * (h as real)
    ensures b.ymax - b.ymin == y.height * (h as real)
  {
    VocBox(
      (y.xCenter - y.width / 2.0) * (w as real),
      (y.xCenter + y.width / 2.0) * (w as real),
      (y.yCenter - y.height / 2.0) * (h as real),
      (y.yCenter + y.height / 2.0) * (h as real))
  }

  /** Normalising and then scaling back recovers the original corners exactly. */
  lemma DenormalizeNormalize(b: VocBox, w: int, h: int)
    requires w != 0 && h != 0
    ensures Denormalize(Normalize(b, w, h), w, h) == b
  {
  }

  /** Scaling a normalised box to pixels and normalising again is the identity,
      so Normalize is a bijection on boxes for every non-degenerate image size. */
  lemma NormalizeDenormalize(y: YoloBox, w: int, h: int)
    requires w != 0 && h != 0
    ensures Normalize(Denormalize(y, w, h), w, h) == y
  {
  }

  /** The box lies within a `w` x `h` image and its corners are ordered. */
  predicate InsideImage(b: VocBox, w: int, h: int)
  {
    && 0.0 <= b.xmin <= b.xmax <= w as real
    && 0.0 <= b.ymin <= b.ymax <= h as real
  }

  /** All four normalised values lie in the closed unit interval. */
  predicate InUnitRange(y: YoloBox)
  {
    && 0.0 <= y.xCenter <= 1.0
    && 0.0 <= y.yCenter <= 1.0
    && 0.0 <= y.width <= 1.0
    && 0.0 <= y.height <= 1.0
  }

  /** The normalised box's edges are ordered and lie in the unit square. */
  predicate EdgesInUnitSquare(y: YoloBox)
  {
    && 0.0 <= y.xCenter - y.width / 2.0 <= y.xCenter + y.width / 2.0 <= 1.0
    && 0.0 <= y.yCenter - y.height / 2.0 <= y.yCenter + y.height / 2.0 <= 1.0
  }

  /** A pixel quantity between 0 and the image extent is a fraction in [0, 1]. */
  lemma FractionInUnit(a: real, extent: real)
    requires 0.0 < extent
    requires 0.0 <= a <= extent
    ensures 0.0 <= a / extent <= 1.0
  {
    assert a / extent * extent == a;
  }

  /** A box inside the image normalises to values in [0, 1]. */
  lemma NormalizeInUnitRange(b: VocBox, w: int, h: int)
    requires w > 0 && h > 0
    requires InsideImage(b, w, h)
    ensures InUnitRange(Normalize(b, w, h))
  {
    var W, H := w as real, h as real;
    FractionInUnit((b.xmin + b.xmax) / 2.0, W);
    FractionInUnit(b.xmax - b.xmin, W);
    FractionInUnit((b.ymin + b.ymax) / 2.0, H);
    FractionInUnit(b.ymax - b.ymin, H);
  }

  /** Scaling by a positive extent preserves order in both directions. */
  lemma ScalePreservesOrder(a: real, b: real, extent: real)
    requires 0.0 < extent
    ensures a <= b <==> a * extent <= b * extent
  {
    assert (b - a) * extent == b * extent - a * extent;
  }

  /** One axis of the no-clamping property: an interval lies within [0, extent]
      exactly when its scaled-down image lies within [0, 1]. */
  lemma AxisInsideIff(lo: real, hi: real, extent: real, l: real, r: real)
    requires 0.0 < extent
    requires l * extent == lo && r * extent == hi
    ensures (0.0 <= lo <= hi <= extent) <==> (0.0 <= l <= r <= 1.0)
  {
    ScalePreservesOrder(0.0, l, extent);
    ScalePreservesOrder(l, r, extent);
    ScalePreservesOrder(r, 1.0, extent);
  }

  /** Nothing is clamped: the normalised edges stay in the unit square exactly
      when the pixel box stays inside the image, so a box that overhangs the image
      produces edges outside the unit square. */
  lemma InsideImageIffEdgesInUnitSquare(b: VocBox, w: int, h: int)
    requires w > 0 && h > 0
    ensures InsideImage(b, w, h) <==> EdgesInUnitSquare(Normalize(b, w, h))
  {
    var y := Normalize(b, w, h);
    DenormalizeNormalize(b, w, h);
    var c := Denormalize(y, w, h);
    assert c == b;
    AxisInsideIff(b.xmin, b.xmax, w as real, y.xCenter - y.width / 2.0, y.xCenter + y.width / 2.0);
    AxisInsideIff(b.ymin, b.ymax, h as real, y.yCenter - y.height / 2.0, y.yCenter + y.height / 2.0);
  }

  /** Box (0, 10, 0, 20) on a 100 x 200 image. */
  lemma WorkedExample()
    ensures Normalize(VocBox(0.0, 10.0, 0.0, 20.0), 100, 200) == YoloBox(0.05, 0.05, 0.1, 0.1)
  {
  }
}
