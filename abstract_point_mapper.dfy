/** `AbstractPointMapper`: the mapper base class whose points are objects that remember the
    last canvas offset computed for them. A subclass supplies the `checkErrors` hook, which
    runs once when the mapper is built, before any point exists. */
module AbstractPointMapper {
  import opened Errors
  import opened Canvas
  import opened Collections

  datatype Axis = Vertical | Horizontal

  /** A data point with a cache of its last computed canvas offset. */
  class Point {
    const x: real
    const y: real
    var pointOffset: Offset

    constructor (x: real, y: real)
      ensures this.x == x && this.y == y && pointOffset == Offset(0.0, 0.0)
    {
      this.x := x;
      this.y := y;
      pointOffset := Offset(0.0, 0.0);
    }

    /** Computes the canvas offset of this point, stores it in `pointOffset` and returns it. */
    method PointOffset(canvasSize: Size, xMin: real, xMax: real, yMin: real, yMax: real) returns (r: Offset)
      requires xMax != xMin && yMax != yMin
      modifies this
      ensures r == ToCanvas(x, y, canvasSize, xMin, xMax, yMin, yMax)
      ensures pointOffset == r
    {
      pointOffset := Offset((x - xMin) / (xMax - xMin) * canvasSize.width,
                            (yMax - y) / (yMax - yMin) * canvasSize.height);
      return pointOffset;
    }
  }

  /** The points `List(n) { Point(xs[it], ys[it]) }` creates, or what `gridList` creates: the
      i-th object carries the i-th pair and no two indices share an object. */
  predicate PairedFrom(points: seq<Point>, xs: seq<real>, ys: seq<real>)
  {
    && |points| == |xs| <= |ys|
    && (forall i :: 0 <= i < |points| ==> points[i].x == xs[i] && points[i].y == ys[i])
    && (forall i, j :: 0 <= i < j < |points| ==> points[i] != points[j])
  }

  /** The values `min + i * (max - min) / n` for i in [0, n): the grid positions of `gridList`. */
  function GridValues(n: nat, min: real, max: real): (v: seq<real>)
    ensures |v| == n
  {
    if n == 0 then []
    else
      var labelStep := (max - min) / n as real;
      seq(n, i requires 0 <= i < n => min + i as real * labelStep)
  }

  /** The grid starts at `min`, is evenly spaced, and when `max > min` stays strictly below
      `max`: the last slot boundary (`max` itself) is not included. */
  lemma GridValuesSpan(n: nat, min: real, max: real)
    requires n > 0
    ensures var v := GridValues(n, min, max);
      && v[0] == min
      && (forall i :: 0 <= i < n - 1 ==> v[i + 1] - v[i] == (max - min) / n as real)
      && (min < max ==> forall i :: 0 <= i < n ==> min <= v[i] < max)
  {
    var v := GridValues(n, min, max);
    var labelStep := (max - min) / n as real;
    if min < max {
      assert labelStep > 0.0;
      assert n as real * labelStep == max - min;
      forall i | 0 <= i < n
        ensures min <= v[i] < max
      {
        assert v[i] == min + i as real * labelStep;
        assert i as real * labelStep < n as real * labelStep;
      }
    }
  }

  class PointMapper {
    const pointsList: seq<Point>

    constructor (points: seq<Point>)
      ensures pointsList == points
    {
      pointsList := points;
    }

    /** Builds a mapper: the subclass's `checkErrors` verdict is consulted first, then one
        fresh point is created per x value, failing when the y values run out. */
    static method Create(xList: seq<real>, yList: seq<real>, checkErrors: Outcome) returns (r: Result<PointMapper>)
      ensures r.Ok? <==> checkErrors.Pass? && |xList| <= |yList|
      ensures checkErrors.Fail? ==> r == Err(checkErrors.error)
      ensures checkErrors.Pass? && |yList| < |xList| ==> r == Err(IndexOutOfRange)
      ensures r.Ok? ==> fresh(r.value) && PairedFrom(r.value.pointsList, xList, yList)
      ensures r.Ok? ==> forall i :: 0 <= i < |xList| ==>
        fresh(r.value.pointsList[i]) && r.value.pointsList[i].pointOffset == Offset(0.0, 0.0)
    {
      if checkErrors.Fail? {
        return Err(checkErrors.error);
      }
      if |yList| < |xList| {
        return Err(IndexOutOfRange);
      }
      var points: seq<Point> := [];
      var i := 0;
      while i < |xList|
        invariant 0 <= i <= |xList|
        invariant PairedFrom(points, xList[..i], yList)
        invariant forall j :: 0 <= j < i ==> fresh(points[j]) && points[j].pointOffset == Offset(0.0, 0.0)
      {
        var p := new Point(xList[i], yList[i]);
        points := points + [p];
        i := i + 1;
      }
      assert xList[..i] == xList;
      var m := new PointMapper(points);
      return Ok(m);
    }

    /** `pointsOnCanvas`: the points whose x lies inside the 10 % widened x range, in order. */
    function PointsOnCanvas(xMin: real, xMax: real): (r: seq<Point>)
      ensures forall i :: 0 <= i < |r| ==> r[i] in pointsList && InWindow(r[i].x, xMin, xMax)
      ensures forall i :: 0 <= i < |pointsList| && InWindow(pointsList[i].x, xMin, xMax) ==> pointsList[i] in r
      ensures IsSubsequence(r, pointsList)
    {
      var keep := (p: Point) => InWindow(p.x, xMin, xMax);
      FilterIndexed(pointsList, keep);
      FilterIsSubsequence(pointsList, keep);
      Filter(pointsList, keep)
    }

    /** `offsetList123`: maps the visible points one by one, in order; each visible point's
        cache then holds the offset returned for it, and no other point is touched. With no
        visible point nothing is mapped, so the limits may have zero width. */
    method OffsetList123(rectSize: Size, xMinLim: real, xMaxLim: real, yMinLim: real, yMaxLim: real)
      returns (r: seq<Offset>)
      requires PointsOnCanvas(xMinLim, xMaxLim) == [] || (xMaxLim != xMinLim && yMaxLim != yMinLim)
      modifies set p | p in PointsOnCanvas(xMinLim, xMaxLim)
      ensures var vis := PointsOnCanvas(xMinLim, xMaxLim);
        && |r| == |vis|
        && forall i :: 0 <= i < |vis| ==>
             r[i] == ToCanvas(vis[i].x, vis[i].y, rectSize, xMinLim, xMaxLim, yMinLim, yMaxLim)
             && vis[i].pointOffset == r[i]
    {
      var vis := PointsOnCanvas(xMinLim, xMaxLim);
      r := [];
      var i := 0;
      while i < |vis|
        invariant 0 <= i <= |vis|
        invariant |r| == i
        invariant forall j :: 0 <= j < i ==>
          r[j] == ToCanvas(vis[j].x, vis[j].y, rectSize, xMinLim, xMaxLim, yMinLim, yMaxLim)
          && vis[j].pointOffset == r[j]
      {
        var o := vis[i].PointOffset(rectSize, xMinLim, xMaxLim, yMinLim, yMaxLim);
        r := r + [o];
        i := i + 1;
      }
    }

    /** `gridList`: `maxOfLabels` fresh points on the grid values; a vertical grid carries
        the value in y with x = 0, a horizontal one in x with y = 0. */
    method GridList(maxOfLabels: int, min: real, max: real, axis: Axis) returns (r: seq<Point>)
      requires maxOfLabels >= 0
      ensures |r| == maxOfLabels
      ensures axis == Vertical ==>
        PairedFrom(r, seq(maxOfLabels, _ => 0.0), GridValues(maxOfLabels, min, max))
      ensures axis == Horizontal ==>
        PairedFrom(r, GridValues(maxOfLabels, min, max), seq(maxOfLabels, _ => 0.0))
      ensures forall i :: 0 <= i < |r| ==> fresh(r[i]) && r[i].pointOffset == Offset(0.0, 0.0)
    {
      var values := GridValues(maxOfLabels, min, max);
      var zeros := seq(maxOfLabels, _ => 0.0);
      r := [];
      var i := 0;
      while i < maxOfLabels
        invariant 0 <= i <= maxOfLabels
        invariant axis == Vertical ==> PairedFrom(r, zeros[..i], values)
        invariant axis == Horizontal ==> PairedFrom(r, values[..i], zeros)
        invariant forall j :: 0 <= j < i ==> fresh(r[j]) && r[j].pointOffset == Offset(0.0, 0.0)
      {
        var p;
        match axis {
          case Vertical => p := new Point(0.0, values[i]);
          case Horizontal => p := new Point(values[i], 0.0);
        }
        r := r + [p];
        i := i + 1;
      }
      assert zeros[..i] == zeros && values[..i] == values;
    }
  }

  /** A zero-width or reversed x range shows no point at all. */
  lemma NothingVisibleWhenEmpty(m: PointMapper, xMin: real, xMax: real)
    requires xMax <= xMin
    ensures m.PointsOnCanvas(xMin, xMax) == []
  {
  }

  /** When every point's x lies in a non-degenerate [xMin, xMax], no point is culled. */
  lemma PointsOnCanvasKeepsAll(m: PointMapper, xMin: real, xMax: real)
    requires xMin < xMax
    requires forall i :: 0 <= i < |m.pointsList| ==> xMin <= m.pointsList[i].x <= xMax
    ensures m.PointsOnCanvas(xMin, xMax) == m.pointsList
  {
    var keep := (p: Point) => InWindow(p.x, xMin, xMax);
    FilterAll(m.pointsList, keep);
  }
}
