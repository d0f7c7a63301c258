/** `PointListMapper`: an immutable mapper built in one of three list modes (plain floats,
    time series, multi series) that validates its arrays once, pairs x and y values into points
    and turns them into canvas offsets, visible points and grid positions. */
module PointListMapper {
  import opened Errors
  import opened Numerics
  import opened Canvas
  import opened Collections

  datatype ListMode = Float | TimeSeries | MultiSeries

  /** The precision to which x grid positions are rounded. */
  const Precise: real := 0.001

  /** A data point; `PointOffset` places it on the canvas. */
  datatype Point = Point(x: real, y: real) {

    function PointOffset(canvasSize: Size, xMin: real, xMax: real, yMin: real, yMax: real): (r: Offset)
      requires xMax != xMin && yMax != yMin
      ensures r == ToCanvas(x, y, canvasSize, xMin, xMax, yMin, yMax)
      ensures x == xMin ==> r.x == 0.0
      ensures x == xMax ==> r.x == canvasSize.width
      ensures y == yMax ==> r.y == 0.0
      ensures y == yMin ==> r.y == canvasSize.height
      ensures xMin < xMax && yMin < yMax && 0.0 <= canvasSize.width && 0.0 <= canvasSize.height
              && xMin <= x <= xMax && yMin <= y <= yMax
              ==> 0.0 <= r.x <= canvasSize.width && 0.0 <= r.y <= canvasSize.height
    {
      ToCanvasEdges(x, y, canvasSize, xMin, xMax, yMin, yMax);
      if xMin < xMax && yMin < yMax && 0.0 <= canvasSize.width && 0.0 <= canvasSize.height
         && xMin <= x <= xMax && yMin <= y <= yMax
      then
        ToCanvasInBounds(x, y, canvasSize, xMin, xMax, yMin, yMax);
        ToCanvas(x, y, canvasSize, xMin, xMax, yMin, yMax)
      else
        ToCanvas(x, y, canvasSize, xMin, xMax, yMin, yMax)
    }
  }

  /** Every multi-series row has `n` values; a row of any other length fails the check. */
  function CheckRows(rows: seq<seq<real>>, n: nat): (r: Outcome)
    ensures r.Pass? <==> forall i :: 0 <= i < |rows| ==> |rows[i]| == n
    ensures r.Fail? ==> r.error == SizeMismatch
  {
    if rows == [] then Pass
    else if |rows[0]| != n then Fail(SizeMismatch)
    else CheckRows(rows[1..], n)
  }

  /** `checkErrors`: the length validation run when a mapper is built. */
  function CheckErrors(xList: seq<real>, yList: seq<real>, dateList: seq<Long>,
                       multiList: seq<seq<real>>, mode: ListMode): (r: Outcome)
    ensures r.Fail? ==> r.error == SizeMismatch
    ensures mode == Float ==> (r.Pass? <==> |xList| == |yList|)
    ensures mode == TimeSeries ==> (r.Pass? <==> |xList| == |dateList|)
    ensures mode == MultiSeries ==> (r.Pass? <==> forall i :: 0 <= i < |multiList| ==> |multiList[i]| == |dateList|)
  {
    match mode
    case Float => if |xList| != |yList| then Fail(SizeMismatch) else Pass
    case TimeSeries => if |xList| != |dateList| then Fail(SizeMismatch) else Pass
    case MultiSeries => CheckRows(multiList, |dateList|)
  }

  /** `List(xList.size) { Point(xList[it], yList[it]) }`: pairs the values index by index,
      failing when the y values run out first. */
  function PairUp(xList: seq<real>, yList: seq<real>): (r: Result<seq<Point>>)
    ensures r.Ok? <==> |xList| <= |yList|
    ensures r.Err? ==> r.error == IndexOutOfRange
    ensures r.Ok? ==> |r.value| == |xList|
    ensures r.Ok? ==> forall i :: 0 <= i < |xList| ==> r.value[i].x == xList[i] && r.value[i].y == yList[i]
  {
    if |yList| < |xList| then Err(IndexOutOfRange)
    else Ok(seq(|xList|, i requires 0 <= i < |xList| => Point(xList[i], yList[i])))
  }

  /** A built mapper: the constructor arguments and the `pointsList` paired from them. */
  datatype Mapper = Mapper(xList: seq<real>, yList: seq<real>, dateList: seq<Long>,
                           multiList: seq<seq<real>>, mode: ListMode, pointsList: seq<Point>)
  {
    /** The state a successful construction leaves: the arrays passed validation and
        `pointsList` pairs x and y values index by index. */
    predicate Valid()
    {
      CheckErrors(xList, yList, dateList, multiList, mode).Pass?
      && PairUp(xList, yList) == Ok(pointsList)
    }

    /** `pointsOnCanvas`: the points whose x lies inside the 10 % widened x range, in order. */
    function PointsOnCanvas(xMin: real, xMax: real): (r: seq<Point>)
      ensures forall p :: p in r <==> p in pointsList && InWindow(p.x, xMin, xMax)
      ensures forall p :: multiset(r)[p] == if InWindow(p.x, xMin, xMax) then multiset(pointsList)[p] else 0
      ensures IsSubsequence(r, pointsList)
    {
      var keep := (p: Point) => InWindow(p.x, xMin, xMax);
      FilterExactly(pointsList, keep);
      FilterCount(pointsList, keep);
      FilterIsSubsequence(pointsList, keep);
      Filter(pointsList, keep)
    }

    /** `canvasPoints`: the same filter again; the y limits it takes play no part. */
    function CanvasPoints(xMin: real, xMax: real, yMin: real, yMax: real): (r: seq<Point>)
      ensures r == PointsOnCanvas(xMin, xMax)
    {
      var keep := (p: Point) => InWindow(p.x, xMin, xMax);
      Filter(pointsList, keep)
    }

    /** `offsetList`: the canvas offset of every visible point, in the order of the points;
        with no visible point nothing is mapped, so the limits may have zero width. */
    function OffsetList(rectSize: Size, xMinLim: real, xMaxLim: real, yMinLim: real, yMaxLim: real): (r: seq<Offset>)
      requires PointsOnCanvas(xMinLim, xMaxLim) == [] || (xMaxLim != xMinLim && yMaxLim != yMinLim)
      ensures var vis := PointsOnCanvas(xMinLim, xMaxLim);
        |r| == |vis| && forall i :: 0 <= i < |r| ==>
          r[i] == ToCanvas(vis[i].x, vis[i].y, rectSize, xMinLim, xMaxLim, yMinLim, yMaxLim)
    {
      var vis := PointsOnCanvas(xMinLim, xMaxLim);
      if vis == [] then []
      else seq(|vis|, i requires 0 <= i < |vis| => vis[i].PointOffset(rectSize, xMinLim, xMaxLim, yMinLim, yMaxLim))
    }
  }

  /** The primary constructor: `checkErrors` runs first, then `pointsList` is built. */
  function Create(xList: seq<real>, yList: seq<real>, dateList: seq<Long>,
                  multiList: seq<seq<real>>, mode: ListMode): (r: Result<Mapper>)
    ensures CheckErrors(xList, yList, dateList, multiList, mode).Fail? ==> r == Err(SizeMismatch)
    ensures r.Ok? <==> CheckErrors(xList, yList, dateList, multiList, mode).Pass? && |xList| <= |yList|
    ensures r.Err? ==> r.error == SizeMismatch || r.error == IndexOutOfRange
    ensures r.Ok? ==> r.value.Valid()
    ensures r.Ok? ==> r.value == Mapper(xList, yList, dateList, multiList, mode, r.value.pointsList)
  {
    match CheckErrors(xList, yList, dateList, multiList, mode)
    case Fail(e) => Err(e)
    case Pass =>
      match PairUp(xList, yList)
      case Err(e) => Err(e)
      case Ok(points) => Ok(Mapper(xList, yList, dateList, multiList, mode, points))
  }

  /** `PointListMapper(xList, yList)`: plain float mode. */
  function FromFloats(xList: seq<real>, yList: seq<real>): (r: Result<Mapper>)
    ensures r.Ok? <==> |xList| == |yList|
    ensures r.Err? ==> r.error == SizeMismatch
    ensures r.Ok? ==> r.value.mode == Float && |r.value.pointsList| == |xList|
    ensures r.Ok? ==> forall i :: 0 <= i < |xList| ==> r.value.pointsList[i] == Point(xList[i], yList[i])
  {
    Create(xList, yList, [], [], Float)
  }

  /** `PointListMapper(xList, dateList)`: time-series mode. Its y values are empty, so pairing
      fails for every non-empty x list that passes validation. */
  function FromTimeSeries(xList: seq<real>, dateList: seq<Long>): (r: Result<Mapper>)
    ensures r.Ok? <==> xList == [] && dateList == []
    ensures |xList| != |dateList| ==> r == Err(SizeMismatch)
    ensures |xList| == |dateList| && xList != [] ==> r == Err(IndexOutOfRange)
    ensures r.Ok? ==> r.value.pointsList == []
  {
    Create(xList, [], dateList, [], TimeSeries)
  }

  /** `PointListMapper(multiList, dateList)`: multi-series mode; its x list is empty, so its
      points list is too. */
  function FromMultiSeries(multiList: seq<seq<real>>, dateList: seq<Long>): (r: Result<Mapper>)
    ensures r.Ok? <==> forall i :: 0 <= i < |multiList| ==> |multiList[i]| == |dateList|
    ensures r.Err? ==> r.error == SizeMismatch
    ensures r.Ok? ==> r.value.pointsList == []
  {
    Create([], [], dateList, multiList, MultiSeries)
  }

  /** A zero-width x range shows no point, so `offsetList` maps nothing, whatever the y limits. */
  lemma OffsetListEmptyWhenNothingVisible(m: Mapper, rectSize: Size, x: real, yMinLim: real, yMaxLim: real)
    ensures m.PointsOnCanvas(x, x) == []
    ensures m.OffsetList(rectSize, x, x, yMinLim, yMaxLim) == []
  {
  }

  /** When every point's x lies in a non-degenerate [xMin, xMax] (as when these are the least
      and greatest x), no point is culled. `AbstractPointMapper.PointsOnCanvasKeepsAll` states
      the same for the object-based variant, which has its own copy of the filter. */
  lemma PointsOnCanvasKeepsAll(m: Mapper, xMin: real, xMax: real)
    requires xMin < xMax
    requires forall i :: 0 <= i < |m.pointsList| ==> xMin <= m.pointsList[i].x <= xMax
    ensures m.PointsOnCanvas(xMin, xMax) == m.pointsList
  {
    var keep := (p: Point) => InWindow(p.x, xMin, xMax);
    FilterAll(m.pointsList, keep);
  }

  /** Every offset in `offsetList` lies within a tenth of the canvas width of the canvas. */
  lemma OffsetListInBand(m: Mapper, rectSize: Size, xMinLim: real, xMaxLim: real, yMinLim: real, yMaxLim: real)
    requires xMinLim < xMaxLim && yMaxLim != yMinLim && 0.0 <= rectSize.width
    ensures var r := m.OffsetList(rectSize, xMinLim, xMaxLim, yMinLim, yMaxLim);
      forall i :: 0 <= i < |r| ==> -rectSize.width / 10.0 <= r[i].x <= rectSize.width * 11.0 / 10.0
  {
    var vis := m.PointsOnCanvas(xMinLim, xMaxLim);
    var r := m.OffsetList(rectSize, xMinLim, xMaxLim, yMinLim, yMaxLim);
    forall i | 0 <= i < |r|
      ensures -rectSize.width / 10.0 <= r[i].x <= rectSize.width * 11.0 / 10.0
    {
      assert vis[i] in vis;
      InWindowOnCanvas(vis[i].x, vis[i].y, rectSize, xMinLim, xMaxLim, yMinLim, yMaxLim);
    }
  }

  /** `round`: cuts `value` down to a multiple of `precise`, towards zero. */
  function Round(value: real, precise: real): (r: real)
    requires precise != 0.0
    ensures Abs(value - r) < Abs(precise)
    ensures 0.0 <= value ==> 0.0 <= r <= value
    ensures value < 0.0 ==> value <= r <= 0.0
    ensures exists k: int :: r == Multiple(k, precise)
  {
    value - Rem(value, precise)
  }

  /** Pixel width estimated for one x label: the sample label's length in text sizes. */
  function TextWidth(textSize: real): (n: int)
    ensures n as real - 0.5 <= textSize * |LabelSample| as real < n as real + 0.5
  {
    RoundToInt(textSize * |LabelSample| as real)
  }

  /** How many x labels `xGridList` places across the canvas width. */
  function XMaxOfLabels(textSize: real, width: real): (n: int)
    requires TextWidth(textSize) != 0
    ensures n as real - 0.5 <= width / TextWidth(textSize) as real < n as real + 0.5
  {
    RoundToInt(width / TextWidth(textSize) as real)
  }

  /** `maxOfLabels` positions, one per slot of the x range, each placed half a slot past the
      slot start, with every term rounded to `Precise`; y is 1. */
  function XGridPositions(n: nat, xMinLim: real, xMaxLim: real): (r: seq<Point>)
    ensures |r| == n && forall i :: 0 <= i < n ==> r[i].y == 1.0
    ensures n > 0 ==> var step := (xMaxLim - xMinLim) / n as real;
      && r[0].x == Round(xMinLim, Precise) + Round(step / 2.0, Precise)
      && forall i :: 0 <= i < n - 1 ==> r[i + 1].x - r[i].x == Round(step, Precise)
  {
    if n == 0 then []
    else
      var labelStep := (xMaxLim - xMinLim) / n as real;
      var first := Round(xMinLim, Precise) + Round(labelStep / 2.0, Precise);
      var gap := Round(labelStep, Precise);
      StepsAreEven(first, gap, n);
      seq(n, i requires 0 <= i < n => Point(first + Multiple(i, gap), 1.0))
  }

  /** Consecutive terms of `first + i * gap` differ by `gap`. */
  lemma StepsAreEven(first: real, gap: real, n: nat)
    ensures forall i: int :: 0 <= i < n - 1 ==> (first + Multiple(i + 1, gap)) - (first + Multiple(i, gap)) == gap
  {
    forall i: int | 0 <= i < n - 1
      ensures (first + Multiple(i + 1, gap)) - (first + Multiple(i, gap)) == gap
    {
      assert Multiple(i + 1, gap) == Multiple(i, gap) + gap;
    }
  }

  /** `xGridList`: the grid positions for as many labels as fit across the canvas width. */
  function XGridList(textSize: real, rectSize: Size, xMinLim: real, xMaxLim: real): (r: seq<Point>)
    requires TextWidth(textSize) != 0 && XMaxOfLabels(textSize, rectSize.width) >= 0
    ensures var n := XMaxOfLabels(textSize, rectSize.width);
      |r| == n && forall i :: 0 <= i < n ==> r[i].y == 1.0
    ensures var n := XMaxOfLabels(textSize, rectSize.width);
      n > 0 ==> var step := (xMaxLim - xMinLim) / n as real;
        && r[0].x == Round(xMinLim, Precise) + Round(step / 2.0, Precise)
        && forall i :: 0 <= i < n - 1 ==> r[i + 1].x - r[i].x == Round(step, Precise)
  {
    XGridPositions(XMaxOfLabels(textSize, rectSize.width), xMinLim, xMaxLim)
  }

  /** How many y intervals `yGridList` divides the y range into. */
  function YMaxOfLabels(textSize: real, height: real): (n: int)
    requires textSize * 3.0 != 0.0
    ensures n as real - 0.5 <= height / (textSize * 3.0) < n as real + 0.5
  {
    RoundToInt(height / (textSize * 3.0))
  }

  /** n steps of a n-th of the range lead from its start to its end. */
  lemma StepsReachEnd(lo: real, hi: real, n: int)
    requires n > 0
    ensures lo + n as real * ((hi - lo) / n as real) == hi
  {
    var step := (hi - lo) / n as real;
    assert n as real * step == hi - lo;
  }

  /** n + 1 evenly spaced positions from yMin to yMax inclusive; x is 1. */
  function YGridPositions(n: int, yMinLim: real, yMaxLim: real): (r: seq<Point>)
    requires n > 0
    ensures |r| == n + 1
    ensures forall i :: 0 <= i <= n ==> r[i].x == 1.0
    ensures r[0].y == yMinLim && r[n].y == yMaxLim
    ensures forall i :: 0 <= i < n ==> r[i + 1].y - r[i].y == (yMaxLim - yMinLim) / n as real
  {
    var labelStep := (yMaxLim - yMinLim) / n as real;
    StepsReachEnd(yMinLim, yMaxLim, n);
    seq(n + 1, i requires 0 <= i <= n => Point(1.0, yMinLim + i as real * labelStep))
  }

  /** `yGridList`: the grid positions for as many label rows as fit down the canvas height; a
      count of -1 asks for no position at all. */
  function YGridList(textSize: real, rectSize: Size, yMinLim: real, yMaxLim: real): (r: seq<Point>)
    requires textSize * 3.0 != 0.0
    requires YMaxOfLabels(textSize, rectSize.height) > 0 || YMaxOfLabels(textSize, rectSize.height) == -1
    ensures YMaxOfLabels(textSize, rectSize.height) == -1 ==> r == []
    ensures var n := YMaxOfLabels(textSize, rectSize.height);
      n > 0 ==>
      && |r| == n + 1
      && (forall i :: 0 <= i <= n ==> r[i].x == 1.0)
      && r[0].y == yMinLim && r[n].y == yMaxLim
      && forall i :: 0 <= i < n ==> r[i + 1].y - r[i].y == (yMaxLim - yMinLim) / n as real
  {
    var n := YMaxOfLabels(textSize, rectSize.height);
    if n == -1 then [] else YGridPositions(n, yMinLim, yMaxLim)
  }

  /** A negative text size can round the row count to -1; the grid then has no position. */
  lemma YGridListNoRows()
    ensures YMaxOfLabels(-10.0, 30.0) == -1
    ensures YGridList(-10.0, Size(10.0, 30.0), 0.0, 1.0) == []
  {
    assert 30.0 / (-10.0 * 3.0) == -1.0;
  }
}
