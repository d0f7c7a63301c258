/** The two subclasses of the abstract mapper: `FloatListMapper` for paired float arrays and
    `TimeSeriesListMapper` for Long dates against float values. Each supplies its own
    `checkErrors`, which the base class consults before it creates any point. */
module FloatListMapper {
  import opened Errors
  import opened Numerics
  import opened AbstractPointMapper

  /** `FloatListMapper.checkErrors`: the two arrays must have the same length. */
  function FloatCheckErrors(xList: seq<real>, yList: seq<real>): (r: Outcome)
    ensures r.Fail? <==> |xList| != |yList|
    ensures r.Fail? ==> r.error == SizeMismatch
  {
    if |xList| != |yList| then Fail(SizeMismatch) else Pass
  }

  /** `FloatListMapper(xList, yList)`: succeeds exactly for equal lengths, and then holds one
      fresh point per index. */
  method NewFloatListMapper(xList: seq<real>, yList: seq<real>) returns (r: Result<PointMapper>)
    ensures r.Ok? <==> |xList| == |yList|
    ensures r.Err? ==> r.error == SizeMismatch
    ensures r.Ok? ==> fresh(r.value) && PairedFrom(r.value.pointsList, xList, yList)
  {
    r := PointMapper.Create(xList, yList, FloatCheckErrors(xList, yList));
  }

  /** `Array(xList.size) { xList[it].toFloat() }`: each Long date as a number, in order. */
  function ToFloats(xList: seq<Long>): (r: seq<real>)
    ensures |r| == |xList|
    ensures forall i :: 0 <= i < |xList| ==> r[i] == xList[i] as int as real
  {
    seq(|xList|, i requires 0 <= i < |xList| => xList[i] as int as real)
  }

  /** `TimeSeriesListMapper.checkErrors` is still `TODO`, so it always throws. */
  const TimeSeriesCheckErrors: Outcome := Fail(NotImplemented)

  /** `TimeSeriesListMapper(xList, yList)`: the unimplemented check makes every construction
      fail, whatever the dates and values are. */
  method NewTimeSeriesListMapper(xList: seq<Long>, yList: seq<real>) returns (r: Result<PointMapper>)
    ensures r == Err(NotImplemented)
  {
    r := PointMapper.Create(ToFloats(xList), yList, TimeSeriesCheckErrors);
  }
}
