/** `PolygonChart`: the chart's remembered state (the four viewport limits, the canvas size and
    the label counts derived from it), the gestures that change it, and the chunk rule that
    decides which canvas offsets of the visible points are drawn. */
module Chart {
  import opened Numerics
  import opened Canvas
  import opened Collections
  import AbstractPointMapper

  /** The four viewport limits `xMinLim`, `xMaxLim`, `yMinLim`, `yMaxLim`. */
  datatype Viewport = Viewport(xMin: real, xMax: real, yMin: real, yMax: real)

  /** Both axes of the viewport have a non-zero width. */
  predicate NonDegenerate(v: Viewport)
  {
    v.xMax != v.xMin && v.yMax != v.yMin
  }

  /** The limits a chart starts with. */
  const InitialViewport := Viewport(0.0, 10.0, 0.0, 10.0)

  /** The canvas size a chart assumes before its first draw. */
  const InitialCanvasSize := Size(10.0, 10.0)

  /** How many visible points one chunk holds. */
  const ChunkSize: nat := 100

  // ---------------------------------------------------------------------------------------
  // Label counts

  /** Text sizes for which both label-count divisions are defined. */
  predicate TextSizeOk(textSize: real)
  {
    textSize != 0.0 && Trunc(3.0 * textSize) != 0
  }

  /** `xLabelsCount`: the nearest whole number of sample labels that fit across the width. */
  function XLabelsCount(width: real, textSize: real): (n: int)
    requires textSize != 0.0
    ensures n as real - 0.5 <= width / (|LabelSample| as real * textSize) < n as real + 0.5
  {
    RoundToInt(width / (|LabelSample| as real * textSize))
  }

  /** `yLabelsCount`: the nearest whole number of label rows, each the integer part of three
      text sizes high, that fit down the height. */
  function YLabelsCount(height: real, textSize: real): (n: int)
    requires Trunc(3.0 * textSize) != 0
    ensures n as real - 0.5 <= height / Trunc(3.0 * textSize) as real < n as real + 0.5
  {
    RoundToInt(height / Trunc(3.0 * textSize) as real)
  }

  // ---------------------------------------------------------------------------------------
  // The transform gesture

  /** The data x under the gesture centre, read off the current viewport. */
  function AnchorX(v: Viewport, center: Offset, size: Size): real
    requires size.width != 0.0
  {
    center.x / size.width * (v.xMax - v.xMin) + v.xMin
  }

  /** The data y under the gesture centre; canvas y grows downwards, data y upwards. */
  function AnchorY(v: Viewport, center: Offset, size: Size): real
    requires size.height != 0.0
  {
    (size.height - center.y) / size.height * (v.yMax - v.yMin) + v.yMin
  }

  /** The lower bound after zooming by `zoom` about the anchor p. */
  function ZoomedMin(p: real, lo: real, zoom: real): real
    requires zoom != 0.0
  {
    p - (p - lo) / zoom
  }

  /** The upper bound after zooming by `zoom` about the anchor p. */
  function ZoomedMax(p: real, hi: real, zoom: real): real
    requires zoom != 0.0
  {
    p + (hi - p) / zoom
  }

  /** A pan of `d` pixels across a canvas extent, in the data units of a range of width `span`. */
  function PanShift(d: real, extent: real, span: real): real
    requires extent != 0.0
  {
    (d / extent) * span
  }

  /** The limits after one transform gesture: every bound moves towards (zoom > 1) or away
      from (zoom < 1) the anchor by the zoom factor, then both bounds of an axis shift by the
      pan converted to data units with the widths from before the gesture. */
  function Transformed(v: Viewport, center: Offset, pan: Offset, zoom: real, size: Size): Viewport
    requires zoom != 0.0 && size.width != 0.0 && size.height != 0.0
  {
    var xSize := v.xMax - v.xMin;
    var ySize := v.yMax - v.yMin;
    var xPoint := AnchorX(v, center, size);
    var yPoint := AnchorY(v, center, size);
    Viewport(
      ZoomedMin(xPoint, v.xMin, zoom) - PanShift(pan.x, size.width, xSize),
      ZoomedMax(xPoint, v.xMax, zoom) - PanShift(pan.x, size.width, xSize),
      ZoomedMin(yPoint, v.yMin, zoom) + PanShift(pan.y, size.height, ySize),
      ZoomedMax(yPoint, v.yMax, zoom) + PanShift(pan.y, size.height, ySize))
  }

  /** Reading the anchor off the viewport inverts the data-to-canvas mapping: the anchor is
      drawn exactly at the gesture centre. */
  lemma AnchorUnderCenter(v: Viewport, center: Offset, size: Size)
    requires NonDegenerate(v) && size.width != 0.0 && size.height != 0.0
    ensures ToCanvas(AnchorX(v, center, size), AnchorY(v, center, size), size, v.xMin, v.xMax, v.yMin, v.yMax)
            == center
  {
    var xSize := v.xMax - v.xMin;
    var ySize := v.yMax - v.yMin;
    var r := ToCanvas(AnchorX(v, center, size), AnchorY(v, center, size), size, v.xMin, v.xMax, v.yMin, v.yMax);
    assert (AnchorX(v, center, size) - v.xMin) * size.width == center.x * xSize;
    ScaleCancels(xSize, center.x, r.x);
    assert v.yMax - AnchorY(v, center, size) == center.y / size.height * ySize;
    assert (v.yMax - AnchorY(v, center, size)) * size.height == center.y * ySize;
    ScaleCancels(ySize, center.y, r.y);
  }

  /** A gesture with zoom 1 and no pan leaves all four limits where they were. */
  lemma TransformIdentity(v: Viewport, center: Offset, size: Size)
    requires size.width != 0.0 && size.height != 0.0
    ensures Transformed(v, center, Offset(0.0, 0.0), 1.0, size) == v
  {
  }

  /** Each axis's new width is its old width divided by the zoom, whatever the pan. */
  lemma TransformWidths(v: Viewport, center: Offset, pan: Offset, zoom: real, size: Size)
    requires zoom != 0.0 && size.width != 0.0 && size.height != 0.0
    ensures var w := Transformed(v, center, pan, zoom, size);
      && w.xMax - w.xMin == (v.xMax - v.xMin) / zoom
      && w.yMax - w.yMin == (v.yMax - v.yMin) / zoom
  {
    var xPoint := AnchorX(v, center, size);
    var yPoint := AnchorY(v, center, size);
    DivAdd(v.xMax - xPoint, xPoint - v.xMin, zoom);
    DivAdd(v.yMax - yPoint, yPoint - v.yMin, zoom);
  }

  /** Dividing a sum divides each term. */
  lemma DivAdd(a: real, b: real, z: real)
    requires z != 0.0
    ensures a / z + b / z == (a + b) / z
  {
  }

  /** The pan moves both bounds of an axis by the same amount: the x bounds by
      `-(pan.x / width) * xSize`, the y bounds by `+(pan.y / height) * ySize`, relative to the
      same gesture without pan. */
  lemma TransformPanShifts(v: Viewport, center: Offset, pan: Offset, zoom: real, size: Size)
    requires zoom != 0.0 && size.width != 0.0 && size.height != 0.0
    ensures var w := Transformed(v, center, pan, zoom, size);
      var z := Transformed(v, center, Offset(0.0, 0.0), zoom, size);
      var dx := -(pan.x / size.width) * (v.xMax - v.xMin);
      var dy := (pan.y / size.height) * (v.yMax - v.yMin);
      w == Viewport(z.xMin + dx, z.xMax + dx, z.yMin + dy, z.yMax + dy)
  {
    var w := Transformed(v, center, pan, zoom, size);
    var z := Transformed(v, center, Offset(0.0, 0.0), zoom, size);
    NoPanNoShift(size.width, v.xMax - v.xMin);
    NoPanNoShift(size.height, v.yMax - v.yMin);
    var sx := PanShift(pan.x, size.width, v.xMax - v.xMin);
    var sy := PanShift(pan.y, size.height, v.yMax - v.yMin);
    var dx := -(pan.x / size.width) * (v.xMax - v.xMin);
    assert dx == -sx;
    assert w.xMin == z.xMin + dx && w.xMax == z.xMax + dx;
    assert w.yMin == z.yMin + sy && w.yMax == z.yMax + sy;
  }

  /** A zero pan shifts nothing. */
  lemma NoPanNoShift(extent: real, span: real)
    requires extent != 0.0
    ensures PanShift(0.0, extent, span) == 0.0
  {
    assert 0.0 / extent == 0.0;
  }

  /** Scaling the shown range about a point p by `zoom` keeps p at the same canvas fraction. */
  lemma ScaledAboutKeepsFraction(p: real, lo: real, hi: real, zoom: real)
    requires zoom != 0.0 && hi != lo
    ensures var lo' := p - (p - lo) / zoom;
      var hi' := p + (hi - p) / zoom;
      && hi' != lo'
      && (p - lo') / (hi' - lo') == (p - lo) / (hi - lo)
      && (hi' - p) / (hi' - lo') == (hi - p) / (hi - lo)
  {
    var lo' := p - (p - lo) / zoom;
    var hi' := p + (hi - p) / zoom;
    DivAdd(hi - p, p - lo, zoom);
    assert hi' - lo' == (hi - lo) / zoom;
    QuotientOfScaled(p - lo, hi - lo, zoom);
    QuotientOfScaled(hi - p, hi - lo, zoom);
  }

  /** Dividing numerator and denominator by the same non-zero factor keeps the quotient. */
  lemma QuotientOfScaled(a: real, d: real, z: real)
    requires d != 0.0 && z != 0.0
    ensures d / z != 0.0 && (a / z) / (d / z) == a / d
  {
    var q := a / d;
    assert a == q * d;
    assert a / z == q * (d / z);
  }

  /** Without pan, the data point under the gesture centre before the gesture is still drawn
      at the gesture centre afterwards. */
  lemma TransformKeepsAnchor(v: Viewport, center: Offset, zoom: real, size: Size)
    requires NonDegenerate(v) && zoom != 0.0 && size.width != 0.0 && size.height != 0.0
    ensures var w := Transformed(v, center, Offset(0.0, 0.0), zoom, size);
      && NonDegenerate(w)
      && ToCanvas(AnchorX(v, center, size), AnchorY(v, center, size), size, w.xMin, w.xMax, w.yMin, w.yMax)
         == center
  {
    var w := Transformed(v, center, Offset(0.0, 0.0), zoom, size);
    var xPoint := AnchorX(v, center, size);
    var yPoint := AnchorY(v, center, size);
    NoPanNoShift(size.width, v.xMax - v.xMin);
    NoPanNoShift(size.height, v.yMax - v.yMin);
    assert w.xMin == xPoint - (xPoint - v.xMin) / zoom && w.xMax == xPoint + (v.xMax - xPoint) / zoom;
    assert w.yMin == yPoint - (yPoint - v.yMin) / zoom && w.yMax == yPoint + (v.yMax - yPoint) / zoom;
    ScaledAboutKeepsFraction(xPoint, v.xMin, v.xMax, zoom);
    ScaledAboutKeepsFraction(yPoint, v.yMin, v.yMax, zoom);
    AnchorUnderCenter(v, center, size);
  }

  /** A positive zoom keeps each axis ordered: `xMin < xMax` and `yMin < yMax` survive. */
  lemma TransformKeepsOrder(v: Viewport, center: Offset, pan: Offset, zoom: real, size: Size)
    requires zoom > 0.0 && size.width != 0.0 && size.height != 0.0
    requires v.xMin < v.xMax && v.yMin < v.yMax
    ensures var w := Transformed(v, center, pan, zoom, size);
      w.xMin < w.xMax && w.yMin < w.yMax
  {
    TransformWidths(v, center, pan, zoom, size);
  }

  // ---------------------------------------------------------------------------------------
  // Double tap

  /** The x values of the points, as `maxOfOrNull { it.x }` sees them. */
  function XsOf(points: seq<AbstractPointMapper.Point>): (xs: seq<real>)
    ensures |xs| == |points| && forall i :: 0 <= i < |points| ==> xs[i] == points[i].x
  {
    seq(|points|, i requires 0 <= i < |points| => points[i].x)
  }

  /** The y values of the points. */
  function YsOf(points: seq<AbstractPointMapper.Point>): (ys: seq<real>)
    ensures |ys| == |points| && forall i :: 0 <= i < |points| ==> ys[i] == points[i].y
  {
    seq(|points|, i requires 0 <= i < |points| => points[i].y)
  }

  /** The limits a double tap sets: the least and greatest x and y, or 0 and 10 on an axis
      without values. */
  function ResetViewport(xs: seq<real>, ys: seq<real>): (v: Viewport)
    ensures xs == [] ==> v.xMin == 0.0 && v.xMax == 10.0
    ensures ys == [] ==> v.yMin == 0.0 && v.yMax == 10.0
    ensures xs != [] ==> v.xMin in xs && v.xMax in xs
    ensures ys != [] ==> v.yMin in ys && v.yMax in ys
    ensures forall i :: 0 <= i < |xs| ==> v.xMin <= xs[i] <= v.xMax
    ensures forall i :: 0 <= i < |ys| ==> v.yMin <= ys[i] <= v.yMax
  {
    Viewport(OrElse(MinOrNull(xs), 0.0), OrElse(MaxOrNull(xs), 10.0),
             OrElse(MinOrNull(ys), 0.0), OrElse(MaxOrNull(ys), 10.0))
  }

  /** After a double tap every point is visible, provided the x values are not all equal. */
  lemma ResetShowsAllPoints(m: AbstractPointMapper.PointMapper)
    ensures var v := ResetViewport(XsOf(m.pointsList), YsOf(m.pointsList));
      v.xMin < v.xMax ==> m.PointsOnCanvas(v.xMin, v.xMax) == m.pointsList
  {
    var v := ResetViewport(XsOf(m.pointsList), YsOf(m.pointsList));
    if v.xMin < v.xMax {
      AbstractPointMapper.PointsOnCanvasKeepsAll(m, v.xMin, v.xMax);
    }
  }

  /** A double tap does not widen a constant axis: when every x is the same, the reset x
      range has zero width. */
  lemma {:induction false} ResetConstantIsDegenerate(xs: seq<real>, ys: seq<real>)
    requires xs != [] && forall i :: 0 <= i < |xs| ==> xs[i] == xs[0]
    ensures ResetViewport(xs, ys).xMin == ResetViewport(xs, ys).xMax == xs[0]
  {
    var v := ResetViewport(xs, ys);
    var i :| 0 <= i < |xs| && xs[i] == v.xMin;
    var j :| 0 <= j < |xs| && xs[j] == v.xMax;
  }

  /** After a double tap on points whose x values are all equal, no point is visible, so the
      chunk pass of the next draw maps no point. */
  lemma ResetConstantShowsNothing(m: AbstractPointMapper.PointMapper)
    requires m.pointsList != []
    requires forall i :: 0 <= i < |m.pointsList| ==> m.pointsList[i].x == m.pointsList[0].x
    ensures var v := ResetViewport(XsOf(m.pointsList), YsOf(m.pointsList));
      m.PointsOnCanvas(v.xMin, v.xMax) == []
  {
    var xs := XsOf(m.pointsList);
    ResetConstantIsDegenerate(xs, YsOf(m.pointsList));
    var v := ResetViewport(xs, YsOf(m.pointsList));
    AbstractPointMapper.NothingVisibleWhenEmpty(m, v.xMin, v.xMax);
  }

  // ---------------------------------------------------------------------------------------
  // The chunk rule

  /** The canvas offsets of the given points under viewport v on a canvas of `size`; no
      point means no division, whatever the viewport. */
  function OffsetsOf(points: seq<AbstractPointMapper.Point>, size: Size, v: Viewport): (r: seq<Offset>)
    requires points == [] || NonDegenerate(v)
    ensures |r| == |points|
    ensures forall i :: 0 <= i < |points| ==> r[i] == ToCanvas(points[i].x, points[i].y, size, v.xMin, v.xMax, v.yMin, v.yMax)
  {
    if points == [] then []
    else seq(|points|, i requires 0 <= i < |points| => ToCanvas(points[i].x, points[i].y, size, v.xMin, v.xMax, v.yMin, v.yMax))
  }

  /** Mapping a slice of the points gives the same slice of the mapped points. */
  lemma OffsetsOfSlice(points: seq<AbstractPointMapper.Point>, size: Size, v: Viewport, lo: nat, hi: nat)
    requires (points == [] || NonDegenerate(v)) && lo <= hi <= |points|
    ensures OffsetsOf(points[lo..hi], size, v) == OffsetsOf(points, size, v)[lo..hi]
  {
  }

  /** The chunk starting at `start` contributes what its points' offsets contribute. */
  lemma ChunkStep(points: seq<AbstractPointMapper.Point>, size: Size, v: Viewport, start: nat)
    requires start < |points| && NonDegenerate(v)
    ensures var offs := OffsetsOf(points, size, v);
      var end := ChunkEnd(|points|, start);
      Chunks(offs, start) == [Contribution(OffsetsOf(points[start..end], size, v))] + Chunks(offs, start + ChunkSize)
  {
    OffsetsOfSlice(points, size, v, start, ChunkEnd(|points|, start));
  }

  /** The square of the pixel distance between two offsets. */
  function SquaredDistance(a: Offset, b: Offset): real
  {
    (b.x - a.x) * (b.x - a.x) + (b.y - a.y) * (b.y - a.y)
  }

  /** `hypot(dx, dy) > chunk.size / 5` between the first and last offset of a chunk, with
      integer division, compared through squares (both sides are non-negative). */
  predicate Spread(chunk: seq<Offset>)
    requires chunk != []
  {
    var k := (|chunk| / 5) as real;
    SquaredDistance(chunk[0], chunk[|chunk| - 1]) > k * k
  }

  /** What one chunk adds to the drawn list: all of it when spread out, otherwise its first
      and last offset only. */
  function Contribution(chunk: seq<Offset>): (r: seq<Offset>)
    requires chunk != []
    ensures r != [] && r[0] == chunk[0] && r[|r| - 1] == chunk[|chunk| - 1]
    ensures |r| <= |chunk| + 1 && (|chunk| >= 2 ==> |r| <= |chunk|)
  {
    if Spread(chunk) then chunk else [chunk[0], chunk[|chunk| - 1]]
  }

  /** Where the chunk starting at `start` ends. */
  function ChunkEnd(n: nat, start: nat): nat
  {
    if start + ChunkSize < n then start + ChunkSize else n
  }

  /** The contributions of the chunks of `offs` from index `start` on, in order. */
  function Chunks(offs: seq<Offset>, start: nat): (r: seq<seq<Offset>>)
    ensures start >= |offs| ==> r == []
    ensures start < |offs| ==> |r| == (|offs| - start + ChunkSize - 1) / ChunkSize
    decreases |offs| - start
  {
    if start >= |offs| then []
    else [Contribution(offs[start..ChunkEnd(|offs|, start)])] + Chunks(offs, start + ChunkSize)
  }

  /** The drawn list: the contributions of all chunks, concatenated in chunk order. */
  function Decimated(offs: seq<Offset>): (r: seq<Offset>)
    ensures r == [] <==> offs == []
  {
    Flatten(Chunks(offs, 0))
  }

  /** Every chunk from `start` on is spread out. */
  predicate EveryChunkSpread(offs: seq<Offset>, start: nat)
    decreases |offs| - start
  {
    start < |offs| ==> Spread(offs[start..ChunkEnd(|offs|, start)]) && EveryChunkSpread(offs, start + ChunkSize)
  }

  /** When every chunk is spread out, nothing is dropped: the drawn list is the full list. */
  lemma {:induction false} DecimatedKeepsAllWhenSpread(offs: seq<Offset>, start: nat)
    requires start <= |offs| && EveryChunkSpread(offs, start)
    ensures Flatten(Chunks(offs, start)) == offs[start..]
    decreases |offs| - start
  {
    if start < |offs| {
      var end := ChunkEnd(|offs|, start);
      if start + ChunkSize < |offs| {
        DecimatedKeepsAllWhenSpread(offs, start + ChunkSize);
      }
      assert offs[start..] == offs[start..end] + offs[end..];
    }
  }

  /** Decimation only selects: every drawn offset is an offset of a visible point. */
  lemma {:induction false} DecimatedFromInput(offs: seq<Offset>, start: nat)
    ensures forall o :: o in Flatten(Chunks(offs, start)) ==> o in offs
    decreases |offs| - start
  {
    if start < |offs| {
      var chunk := offs[start..ChunkEnd(|offs|, start)];
      DecimatedFromInput(offs, start + ChunkSize);
      var rest := Flatten(Chunks(offs, start + ChunkSize));
      assert Flatten(Chunks(offs, start)) == Contribution(chunk) + rest;
      forall o | o in Contribution(chunk)
        ensures o in offs
      {
        assert o in chunk;
      }
    }
  }

  /** At most one offset more than the input is drawn: a chunk never contributes more than
      its size, except a final chunk of one point, which contributes that point twice. */
  lemma {:induction false} DecimatedLength(offs: seq<Offset>, start: nat)
    requires start < |offs|
    ensures |Flatten(Chunks(offs, start))| <= |offs| - start + 1
    decreases |offs| - start
  {
    if start + ChunkSize < |offs| {
      DecimatedLength(offs, start + ChunkSize);
    }
  }

  /** The drawn list starts at the first visible point and ends at the last one. */
  lemma {:induction false} DecimatedEndpoints(offs: seq<Offset>, start: nat)
    requires start < |offs|
    ensures var d := Flatten(Chunks(offs, start));
      d != [] && d[0] == offs[start] && d[|d| - 1] == offs[|offs| - 1]
    decreases |offs| - start
  {
    var chunk := offs[start..ChunkEnd(|offs|, start)];
    var c := Contribution(chunk);
    var rest := Flatten(Chunks(offs, start + ChunkSize));
    assert Flatten(Chunks(offs, start)) == c + rest;
    if start + ChunkSize < |offs| {
      DecimatedEndpoints(offs, start + ChunkSize);
    } else {
      assert Chunks(offs, start + ChunkSize) == [];
    }
  }

  /** The offset of every point of a chunk, in order, as a spread-out chunk builds them. */
  method AllOffsets(chunk: seq<AbstractPointMapper.Point>, size: Size, v: Viewport) returns (c: seq<Offset>)
    requires NonDegenerate(v)
    ensures c == OffsetsOf(chunk, size, v)
  {
    c := [];
    var j := 0;
    while j < |chunk|
      invariant 0 <= j <= |chunk|
      invariant c == OffsetsOf(chunk, size, v)[..j]
    {
      c := c + [ToCanvas(chunk[j].x, chunk[j].y, size, v.xMin, v.xMax, v.yMin, v.yMax)];
      j := j + 1;
    }
  }

  /** What one chunk of visible points contributes under viewport v on a canvas of `size`:
      the offsets of its first and last point decide whether it is spread out. */
  method ChunkContribution(chunk: seq<AbstractPointMapper.Point>, size: Size, v: Viewport) returns (c: seq<Offset>)
    requires NonDegenerate(v) && chunk != []
    ensures c == Contribution(OffsetsOf(chunk, size, v))
  {
    ghost var offs := OffsetsOf(chunk, size, v);
    var first := ToCanvas(chunk[0].x, chunk[0].y, size, v.xMin, v.xMax, v.yMin, v.yMax);
    var last := ToCanvas(chunk[|chunk| - 1].x, chunk[|chunk| - 1].y, size, v.xMin, v.xMax, v.yMin, v.yMax);
    var dx := last.x - first.x;
    var dy := last.y - first.y;
    var k := (|chunk| / 5) as real;
    assert offs[0] == first && offs[|offs| - 1] == last;
    assert Spread(offs) == (dx * dx + dy * dy > k * k);
    if dx * dx + dy * dy > k * k {
      c := AllOffsets(chunk, size, v);
    } else {
      c := [first, last];
    }
  }

  /** Splits the visible points into chunks of at most `ChunkSize`, in order, and produces
      each chunk's contribution: all of its offsets, or its first and last one. Viewport v
      needs non-zero widths only when there is some point to map. */
  method ChunkedList(list: seq<AbstractPointMapper.Point>, size: Size, v: Viewport) returns (chunks: seq<seq<Offset>>)
    requires list == [] || NonDegenerate(v)
    ensures chunks == Chunks(OffsetsOf(list, size, v), 0)
  {
    ghost var offs := OffsetsOf(list, size, v);
    chunks := [];
    var start: nat := 0;
    while start < |list|
      invariant |offs| == |list|
      invariant chunks + Chunks(offs, start) == Chunks(offs, 0)
    {
      var end := ChunkEnd(|list|, start);
      var c := ChunkContribution(list[start..end], size, v);
      ChunkStep(list, size, v, start);
      assert chunks + [c] + Chunks(offs, start + ChunkSize) == chunks + Chunks(offs, start);
      chunks := chunks + [c];
      start := start + ChunkSize;
    }
  }

  // ---------------------------------------------------------------------------------------
  // The chart

  class PolygonChart {
    const mapper: AbstractPointMapper.PointMapper
    const textSize: real
    var xMinLim: real
    var xMaxLim: real
    var yMinLim: real
    var yMaxLim: real
    var canvasSize: Size
    var xLabelsCount: int
    var yLabelsCount: int
    var offsetList: seq<Offset>

    /** The label counts always match the current canvas size. */
    predicate Valid()
      reads this
    {
      && TextSizeOk(textSize)
      && xLabelsCount == XLabelsCount(canvasSize.width, textSize)
      && yLabelsCount == YLabelsCount(canvasSize.height, textSize)
    }

    function Limits(): Viewport
      reads this
    {
      Viewport(xMinLim, xMaxLim, yMinLim, yMaxLim)
    }

    /** A draw pass divides by the widths of the limits only when some point is visible. */
    predicate CanDraw()
      reads this
    {
      mapper.PointsOnCanvas(xMinLim, xMaxLim) == [] || NonDegenerate(Limits())
    }

    constructor (mapper: AbstractPointMapper.PointMapper, textSize: real)
      requires TextSizeOk(textSize)
      ensures Valid() && this.mapper == mapper && this.textSize == textSize
      ensures Limits() == InitialViewport && canvasSize == InitialCanvasSize && offsetList == []
    {
      this.mapper := mapper;
      this.textSize := textSize;
      xMinLim, xMaxLim, yMinLim, yMaxLim := 0.0, 10.0, 0.0, 10.0;
      canvasSize := InitialCanvasSize;
      xLabelsCount := XLabelsCount(InitialCanvasSize.width, textSize);
      yLabelsCount := YLabelsCount(InitialCanvasSize.height, textSize);
      offsetList := [];
    }

    /** The transform-gesture handler: all four limits are recomputed from the widths and the
        anchor taken before any of them is assigned. */
    method Transform(center: Offset, pan: Offset, zoom: real, size: Size)
      requires zoom != 0.0 && size.width != 0.0 && size.height != 0.0
      modifies this`xMinLim, this`xMaxLim, this`yMinLim, this`yMaxLim
      ensures Limits() == Transformed(old(Limits()), center, pan, zoom, size)
    {
      var v := Limits();
      var xSize := xMaxLim - xMinLim;
      var ySize := yMaxLim - yMinLim;
      var xPoint := AnchorX(v, center, size);
      var yPoint := AnchorY(v, center, size);
      xMaxLim := ZoomedMax(xPoint, v.xMax, zoom) - PanShift(pan.x, size.width, xSize);
      xMinLim := ZoomedMin(xPoint, v.xMin, zoom) - PanShift(pan.x, size.width, xSize);
      yMaxLim := ZoomedMax(yPoint, v.yMax, zoom) + PanShift(pan.y, size.height, ySize);
      yMinLim := ZoomedMin(yPoint, v.yMin, zoom) + PanShift(pan.y, size.height, ySize);
    }

    /** The double-tap handler: the limits jump to the extent of the points. */
    method DoubleTap()
      modifies this`xMinLim, this`xMaxLim, this`yMinLim, this`yMaxLim
      ensures Limits() == ResetViewport(XsOf(mapper.pointsList), YsOf(mapper.pointsList))
    {
      var points := mapper.pointsList;
      xMaxLim := OrElse(MaxOrNull(XsOf(points)), 10.0);
      xMinLim := OrElse(MinOrNull(XsOf(points)), 0.0);
      yMinLim := OrElse(MinOrNull(YsOf(points)), 0.0);
      yMaxLim := OrElse(MaxOrNull(YsOf(points)), 10.0);
    }

    /** The start of a draw pass: a new canvas size is stored and the label counts are
        recomputed from it; an unchanged size leaves everything as it was. */
    method Resize(size: Size)
      requires Valid()
      modifies this`canvasSize, this`xLabelsCount, this`yLabelsCount
      ensures Valid() && canvasSize == size
      ensures old(canvasSize) == size ==> xLabelsCount == old(xLabelsCount) && yLabelsCount == old(yLabelsCount)
    {
      if canvasSize != size {
        canvasSize := size;
        xLabelsCount := XLabelsCount(canvasSize.width, textSize);
        yLabelsCount := YLabelsCount(canvasSize.height, textSize);
      }
    }

    /** The canvas offsets of the visible points under the current limits and canvas size. */
    function VisibleOffsets(): (r: seq<Offset>)
      reads this
      requires CanDraw()
    {
      OffsetsOf(mapper.PointsOnCanvas(xMinLim, xMaxLim), canvasSize, Limits())
    }

    /** With no visible point a draw pass needs no division, whatever the limits, and the
        drawn list is empty. */
    lemma DrawsNothingWhenHidden()
      requires mapper.PointsOnCanvas(xMinLim, xMaxLim) == []
      ensures CanDraw() && VisibleOffsets() == [] && Decimated(VisibleOffsets()) == []
    {
    }

    /** Collecting the chunk results: `offsetList` is cleared, then every chunk's offsets are
        appended, chunk by chunk. */
    method CollectOffsets(chunks: seq<seq<Offset>>)
      modifies this`offsetList
      ensures offsetList == Flatten(chunks)
    {
      offsetList := [];
      var k := 0;
      while k < |chunks|
        invariant 0 <= k <= |chunks|
        invariant offsetList == Flatten(chunks[..k])
      {
        var j := 0;
        while j < |chunks[k]|
          invariant 0 <= j <= |chunks[k]|
          invariant offsetList == Flatten(chunks[..k]) + chunks[k][..j]
        {
          offsetList := offsetList + [chunks[k][j]];
          j := j + 1;
        }
        FlattenAppend(chunks[..k], [chunks[k]]);
        assert chunks[..k + 1] == chunks[..k] + [chunks[k]];
        k := k + 1;
      }
      assert chunks[..k] == chunks;
    }

    /** One render pass over the points: chunk, decimate and collect; the drawn list is the
        decimation of the visible offsets. */
    method Render()
      requires CanDraw()
      modifies this`offsetList
      ensures offsetList == Decimated(VisibleOffsets())
    {
      var chunks := ChunkedList(mapper.PointsOnCanvas(xMinLim, xMaxLim), canvasSize, Limits());
      CollectOffsets(chunks);
    }
  }
}
