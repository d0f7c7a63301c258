/** Canvas geometry shared by the mapper variants: pixel offsets, canvas sizes, the data-to-pixel
    transform with its inverted y axis, and the 10 % visibility window on x. */
module Canvas {

  /** A position on the canvas in pixels, origin top-left, y growing downwards. */
  datatype Offset = Offset(x: real, y: real)

  /** The canvas extent in pixels. */
  datatype Size = Size(width: real, height: real)

  /** The label text whose length, in text sizes, estimates the pixel width of one x label. */
  const LabelSample: string := "111.111"

  /** Maps the data point (x, y) onto a canvas of `size` that shows the data rectangle
      [xMin, xMax] x [yMin, yMax]; data y grows upwards, canvas y downwards. */
  function ToCanvas(x: real, y: real, size: Size, xMin: real, xMax: real, yMin: real, yMax: real): (r: Offset)
    requires xMax != xMin && yMax != yMin
    ensures r.x * (xMax - xMin) == (x - xMin) * size.width
    ensures r.y * (yMax - yMin) == (yMax - y) * size.height
  {
    Offset((x - xMin) / (xMax - xMin) * size.width, (yMax - y) / (yMax - yMin) * size.height)
  }

  /** The top-left data corner lands on the canvas origin, the bottom-right one on the far corner. */
  lemma ToCanvasCorners(size: Size, xMin: real, xMax: real, yMin: real, yMax: real)
    requires xMax != xMin && yMax != yMin
    ensures ToCanvas(xMin, yMax, size, xMin, xMax, yMin, yMax) == Offset(0.0, 0.0)
    ensures ToCanvas(xMax, yMin, size, xMin, xMax, yMin, yMax) == Offset(size.width, size.height)
  {
    var o := ToCanvas(xMax, yMin, size, xMin, xMax, yMin, yMax);
    ScaleCancels(xMax - xMin, size.width, o.x);
    ScaleCancels(yMax - yMin, size.height, o.y);
  }

  /** Each coordinate on its own: the left and right data edges map to the left and right canvas
      edges, the top and bottom data edges to the top and bottom canvas edges. */
  lemma ToCanvasEdges(x: real, y: real, size: Size, xMin: real, xMax: real, yMin: real, yMax: real)
    requires xMax != xMin && yMax != yMin
    ensures var r := ToCanvas(x, y, size, xMin, xMax, yMin, yMax);
      && (x == xMin ==> r.x == 0.0) && (x == xMax ==> r.x == size.width)
      && (y == yMax ==> r.y == 0.0) && (y == yMin ==> r.y == size.height)
  {
    var r := ToCanvas(x, y, size, xMin, xMax, yMin, yMax);
    if x == xMin { ScaleCancels(xMax - xMin, 0.0, r.x); }
    if x == xMax { ScaleCancels(xMax - xMin, size.width, r.x); }
    if y == yMax { ScaleCancels(yMax - yMin, 0.0, r.y); }
    if y == yMin { ScaleCancels(yMax - yMin, size.height, r.y); }
  }

  /** `r * d == d * w` with `d != 0` forces `r == w`. */
  lemma ScaleCancels(d: real, w: real, r: real)
    requires d != 0.0 && r * d == d * w
    ensures r == w
  {
    assert (r - w) * d == 0.0;
  }

  /** A point inside the shown data rectangle lands inside the canvas. */
  lemma ToCanvasInBounds(x: real, y: real, size: Size, xMin: real, xMax: real, yMin: real, yMax: real)
    requires xMin < xMax && yMin < yMax && 0.0 <= size.width && 0.0 <= size.height
    requires xMin <= x <= xMax && yMin <= y <= yMax
    ensures var r := ToCanvas(x, y, size, xMin, xMax, yMin, yMax);
      0.0 <= r.x <= size.width && 0.0 <= r.y <= size.height
  {
    var r := ToCanvas(x, y, size, xMin, xMax, yMin, yMax);
    FractionOfWidth(x - xMin, xMax - xMin, size.width, r.x, 0.0, 1.0);
    FractionOfWidth(yMax - y, yMax - yMin, size.height, r.y, 0.0, 1.0);
  }

  /** If `r * d == a * w` and `a` lies between `lo * d` and `hi * d`, then `r` lies between
      `lo * w` and `hi * w` (for positive `d` and non-negative `w`). */
  lemma FractionOfWidth(a: real, d: real, w: real, r: real, lo: real, hi: real)
    requires d > 0.0 && w >= 0.0 && r * d == a * w
    requires lo * d <= a <= hi * d
    ensures lo * w <= r <= hi * w
  {
    var f := a / d;
    assert a == f * d;
    MulMonotone(lo, f, d);
    MulMonotone(f, hi, d);
    assert r * d == (f * w) * d;
    ScaleCancels(d, f * w, r);
    assert lo * w <= f * w <= hi * w;
  }

  /** Scaling by a positive factor preserves strict order, so the order of products decides
      the order of the factors. */
  lemma MulMonotone(u: real, v: real, d: real)
    requires d > 0.0
    ensures u * d <= v * d ==> u <= v
  {
    if u > v {
      assert (u - v) * d > 0.0;
    }
  }

  /** The visibility test of the mappers: x lies strictly inside [xMin, xMax] widened by a
      tenth of its width on either side. */
  predicate InWindow(x: real, xMin: real, xMax: real)
  {
    xMax + (xMax - xMin) / 10.0 > x && x > xMin - (xMax - xMin) / 10.0
  }

  /** Every x within [xMin, xMax] passes the window test when the range is non-degenerate. */
  lemma InWindowWhenInRange(x: real, xMin: real, xMax: real)
    requires xMin < xMax && xMin <= x <= xMax
    ensures InWindow(x, xMin, xMax)
  {
  }

  /** A range that is empty or reversed lets no x through: the widened bounds meet or cross. */
  lemma InWindowNeverWhenEmpty(x: real, xMin: real, xMax: real)
    requires xMax <= xMin
    ensures !InWindow(x, xMin, xMax)
  {
    assert xMax + (xMax - xMin) / 10.0 <= xMin - (xMax - xMin) / 10.0;
  }

  /** A visible point lands at most a tenth of the canvas width beyond either side edge. */
  lemma InWindowOnCanvas(x: real, y: real, size: Size, xMin: real, xMax: real, yMin: real, yMax: real)
    requires xMin < xMax && yMax != yMin && 0.0 <= size.width
    requires InWindow(x, xMin, xMax)
    ensures var r := ToCanvas(x, y, size, xMin, xMax, yMin, yMax);
      -size.width / 10.0 <= r.x <= size.width * 11.0 / 10.0
  {
    var r := ToCanvas(x, y, size, xMin, xMax, yMin, yMax);
    FractionOfWidth(x - xMin, xMax - xMin, size.width, r.x, -0.1, 1.1);
  }
}
