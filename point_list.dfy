/** `PointList`: paired x/y lists with two mutable `Limits` objects that decide where the
    points land on the canvas. Its x mapping divides x by the x range without first
    subtracting `xLimits.min`. */
module PointList {
  import opened Errors
  import opened Canvas
  import opened Collections

  /** A mutable value range; both bounds may be reassigned at any time. */
  class Limits {
    var min: real
    var max: real

    constructor (min: real, max: real)
      ensures this.min == min && this.max == max
    {
      this.min := min;
      this.max := max;
    }

    /** `size()`: the width of the range, the amount `min` must grow by to reach `max`. */
    function Size(): (r: real)
      reads this
      ensures min + r == max
    {
      max - min
    }
  }

  datatype Point = Point(x: real, y: real) {

    /** `pointOffset`: x as a fraction of the x range's width, y measured down from
        `yLimits.max` as a fraction of the y range's width. */
    function PointOffset(canvasSize: Size, xLimits: Limits, yLimits: Limits): (r: Offset)
      reads xLimits, yLimits
      requires xLimits.Size() != 0.0 && yLimits.Size() != 0.0
      ensures r.x * xLimits.Size() == x * canvasSize.width
      ensures x == 0.0 ==> r.x == 0.0
      ensures r.y == ToCanvas(x, y, canvasSize, xLimits.min, xLimits.max, yLimits.min, yLimits.max).y
      ensures y == yLimits.max ==> r.y == 0.0
      ensures y == yLimits.min ==> r.y == canvasSize.height
    {
      ToCanvasEdges(x, y, canvasSize, xLimits.min, xLimits.max, yLimits.min, yLimits.max);
      Offset(x / xLimits.Size() * canvasSize.width, (yLimits.max - y) / yLimits.Size() * canvasSize.height)
    }
  }

  /** Against the mapping that subtracts the lower bound, this x pixel sits
      `xLimits.min / xLimits.Size() * width` further right; the two agree only when
      `xLimits.min` is zero (on a canvas of non-zero width). */
  lemma PointOffsetShift(p: Point, canvasSize: Size, xLimits: Limits, yLimits: Limits)
    requires xLimits.Size() != 0.0 && yLimits.Size() != 0.0
    ensures var r := p.PointOffset(canvasSize, xLimits, yLimits);
      var std := ToCanvas(p.x, p.y, canvasSize, xLimits.min, xLimits.max, yLimits.min, yLimits.max);
      && r.x - std.x == xLimits.min / xLimits.Size() * canvasSize.width
      && (canvasSize.width != 0.0 ==> (r.x == std.x <==> xLimits.min == 0.0))
  {
    var d := xLimits.Size();
    var r := p.PointOffset(canvasSize, xLimits, yLimits);
    var std := ToCanvas(p.x, p.y, canvasSize, xLimits.min, xLimits.max, yLimits.min, yLimits.max);
    assert r.x == p.x / d * canvasSize.width;
    assert std.x == (p.x - xLimits.min) / d * canvasSize.width;
    assert p.x / d - (p.x - xLimits.min) / d == xLimits.min / d;
    assert r.x - std.x == (p.x / d - (p.x - xLimits.min) / d) * canvasSize.width;
    if canvasSize.width != 0.0 && xLimits.min != 0.0 {
      assert xLimits.min / d != 0.0;
    }
  }

  /** The limits of the secondary constructor: the least and greatest value, or 0 and 100
      when there are no values. */
  function DefaultBounds(values: seq<real>): (b: (real, real))
    ensures values == [] ==> b == (0.0, 100.0)
    ensures values != [] ==> b.0 in values && b.1 in values
    ensures forall i :: 0 <= i < |values| ==> b.0 <= values[i] <= b.1
  {
    (OrElse(MinOrNull(values), 0.0), OrElse(MaxOrNull(values), 100.0))
  }

  class PointList {
    const xList: seq<real>
    const yList: seq<real>
    var xLimits: Limits
    var yLimits: Limits
    const pointsList: seq<Point>

    /** `pointsList` pairs the two lists index by index. */
    predicate Valid()
    {
      && |pointsList| == |xList| <= |yList|
      && forall i :: 0 <= i < |xList| ==> pointsList[i] == Point(xList[i], yList[i])
    }

    constructor (xList: seq<real>, yList: seq<real>, xLimits: Limits, yLimits: Limits)
      requires |xList| <= |yList|
      ensures Valid()
      ensures this.xList == xList && this.yList == yList
      ensures this.xLimits == xLimits && this.yLimits == yLimits
    {
      this.xList := xList;
      this.yList := yList;
      this.xLimits := xLimits;
      this.yLimits := yLimits;
      pointsList := seq(|xList|, i requires 0 <= i < |xList| => Point(xList[i], yList[i]));
    }

    /** The primary constructor: building `pointsList` reads past the end of `yList` when it
        is the shorter list. */
    static method Create(xList: seq<real>, yList: seq<real>, xLimits: Limits, yLimits: Limits)
      returns (r: Result<PointList>)
      ensures r.Ok? <==> |xList| <= |yList|
      ensures r.Err? ==> r.error == IndexOutOfRange
      ensures r.Ok? ==> fresh(r.value) && r.value.Valid()
      ensures r.Ok? ==> r.value.xList == xList && r.value.yList == yList
      ensures r.Ok? ==> r.value.xLimits == xLimits && r.value.yLimits == yLimits
    {
      if |yList| < |xList| {
        return Err(IndexOutOfRange);
      }
      var pl := new PointList(xList, yList, xLimits, yLimits);
      return Ok(pl);
    }

    /** The secondary constructor: fresh limits spanning each list's values. */
    static method CreateWithDefaultLimits(xList: seq<real>, yList: seq<real>) returns (r: Result<PointList>)
      ensures r.Ok? <==> |xList| <= |yList|
      ensures r.Err? ==> r.error == IndexOutOfRange
      ensures r.Ok? ==> fresh(r.value) && fresh(r.value.xLimits) && fresh(r.value.yLimits)
      ensures r.Ok? ==> r.value.Valid() && r.value.xList == xList && r.value.yList == yList
      ensures r.Ok? ==> (r.value.xLimits.min, r.value.xLimits.max) == DefaultBounds(xList)
      ensures r.Ok? ==> (r.value.yLimits.min, r.value.yLimits.max) == DefaultBounds(yList)
    {
      var xb := DefaultBounds(xList);
      var yb := DefaultBounds(yList);
      var xLimits := new Limits(xb.0, xb.1);
      var yLimits := new Limits(yb.0, yb.1);
      r := Create(xList, yList, xLimits, yLimits);
    }

    /** `offsetList`: one offset per x value, each point placed under the current limits;
        with no x value nothing is mapped, so the limits may have zero width. */
    function OffsetList(rectSize: Size): (r: seq<Offset>)
      reads this, xLimits, yLimits
      requires Valid() && (xList == [] || (xLimits.Size() != 0.0 && yLimits.Size() != 0.0))
      ensures |r| == |xList|
      ensures forall i :: 0 <= i < |xList| ==>
        r[i] == Point(xList[i], yList[i]).PointOffset(rectSize, xLimits, yLimits)
    {
      var xl, yl := xLimits, yLimits;
      if xList == [] then []
      else
        seq(|xList|, i requires 0 <= i < |xList| && xl.Size() != 0.0 && yl.Size() != 0.0 reads xl, yl =>
          pointsList[i].PointOffset(rectSize, xl, yl))
    }

    /** Assigning `xLimits`: later offsets use the new x range; the points stay as they are. */
    method SetXLimits(limits: Limits)
      modifies this`xLimits
      ensures xLimits == limits && yLimits == old(yLimits)
    {
      xLimits := limits;
    }

    /** Assigning `yLimits`: later offsets use the new y range; the points stay as they are. */
    method SetYLimits(limits: Limits)
      modifies this`yLimits
      ensures yLimits == limits && xLimits == old(xLimits)
    {
      yLimits := limits;
    }
  }
}
