# SmartCharts core, modelled in Dafny

SmartCharts is a small Android line-chart component. Its core turns data points into canvas
pixels. Data x grows to the right and data y grows upwards; canvas y grows downwards from the
top-left corner. The core comes in several near-duplicate variants, and each is modelled as
written:

- `PointListMapper` (module `PointListMapper`): an immutable mapper built in one of three list
  modes (plain floats, time series, multi series). It checks the array lengths once, pairs x and
  y values into points, filters the points visible in the x range with a 10 % margin, maps them
  to canvas offsets, and produces x and y grid positions.
- `AbstractPointMapper` (module `AbstractPointMapper`): the same mapping, but each point is an
  object that caches its last computed offset in a mutable field. Subclasses supply a
  `checkErrors` hook (module `FloatListMapper`: `FloatListMapper` and `TimeSeriesListMapper`).
- `PointList` (module `PointList`): paired lists with two mutable `Limits` objects. Its x
  mapping divides x by the x range width without subtracting `xLimits.min`.
- `PolygonChart` (module `Chart`): the chart state. It holds the four viewport limits, the
  canvas size and the label counts derived from it. A transform gesture zooms about the gesture
  centre and pans. A double tap resets the limits to the data's extent. A draw pass splits the
  visible points into chunks of 100 and drops the inner points of chunks that barely move on
  screen.

Modules `Canvas`, `Numerics`, `Collections` and `Errors` hold what the variants share: the
data-to-pixel transform, Kotlin's numeric conversions, list filtering, and the error values.

Numbers: Kotlin `Float` is modelled as `real`. `roundToInt` is `Numerics.RoundToInt`, rounding
half up. `Float.toInt` is `Numerics.Trunc`, rounding toward zero. `Float %` is `Numerics.Rem`,
whose result takes the sign of the dividend. A divisor that can be zero becomes a `requires`.
Exceptions thrown during construction become an `Err` of `Errors.Error`:

- `SizeMismatch` is the `IndexOutOfBoundsException("Arrays should be same size")`.
- `IndexOutOfRange` is an array read past the end of `yList` while `pointsList` is built.
- `NotImplemented` is the `TODO()` in `TimeSeriesListMapper.checkErrors`.

The code does not behave as a design-level description of the chart would suggest in three
places. The model follows the code:

- A double tap on data whose x values (or y values) are all equal gives a zero-width range. The
  range is not widened. `Chart.ResetConstantIsDegenerate` states this. With equal x values
  the window test then passes no point, so the chunk pass of the next draw maps no point
  (`Chart.ResetConstantShowsNothing`); the chunk pass requires non-zero widths only when
  some point is visible (`Chart.PolygonChart.CanDraw`). The grid pass of the same draw still
  maps grid points with the zero-width limits; it is drawing code, see "## Left out".
- Label counts are not clamped to at least 1. The grid functions get the count as computed;
  the model requires it to be non-negative (for `PointListMapper.YGridList`, positive or -1:
  it divides by the count and builds count + 1 positions), see "## Left out".
- `PointList`'s x pixel is `x / (max - min) * width`. It is not `(x - min) / (max - min) * width`.
  `PointList.PointOffsetShift` states the difference.

Construction order matters in `PointListMapper`. `checkErrors` runs in `init`, before
`pointsList` is built. A time-series mapper has an empty `yList`, so once its lengths pass the
check, building `pointsList` fails for every non-empty `xList` (`PointListMapper.FromTimeSeries`).

## Model

| member | source | states |
|---|---|---|
| `Numerics.RoundToInt` | app/src/main/java/ru/voodster/smartcharts/Chart.kt:75 | the result is the integer nearest to the argument, within half a unit |
| `Numerics.Trunc` | app/src/main/java/ru/voodster/smartcharts/Chart.kt:76 | the result has the argument's sign and lies less than one unit from it, toward zero |
| `Numerics.Rem` | app/src/main/java/ru/voodster/smartcharts/PointListMapper.kt:272 | the dividend minus the remainder is a whole multiple of the divisor; the remainder is smaller than the divisor in magnitude and takes the sign of the dividend |
| `Canvas.ToCanvas` | app/src/main/java/ru/voodster/smartcharts/PointListMapper.kt:122-126 | the pixel x is the fraction of the x range that x sits at, times the width; the pixel y is the fraction of the y range down from yMax, times the height |
| `Canvas.ToCanvasCorners` | app/src/main/java/ru/voodster/smartcharts/AbstractPointMapper.kt:40-43 | (xMin, yMax) maps to (0, 0) and (xMax, yMin) maps to (width, height) |
| `Canvas.ToCanvasEdges` | app/src/main/java/ru/voodster/smartcharts/PointListMapper.kt:122-126 | each data edge maps to the matching canvas edge, one coordinate at a time |
| `Canvas.ToCanvasInBounds` | app/src/main/java/ru/voodster/smartcharts/PointListMapper.kt:122-126 | a point inside the limits lands inside [0, width] x [0, height] |
| `Canvas.InWindow` | app/src/main/java/ru/voodster/smartcharts/PointListMapper.kt:142-145 | the window test: x lies strictly between xMin and xMax each widened by a tenth of xMax - xMin, as both `pointsOnCanvas` filters compute it; its properties are the next three rows |
| `Canvas.InWindowWhenInRange` | app/src/main/java/ru/voodster/smartcharts/PointListMapper.kt:142-145 | every x in a non-degenerate [xMin, xMax] passes the 10 % window test |
| `Canvas.InWindowOnCanvas` | app/src/main/java/ru/voodster/smartcharts/PointListMapper.kt:142-145 | a point that passes the window test lands within a tenth of the width beyond either side edge |
| `Canvas.InWindowNeverWhenEmpty` | app/src/main/java/ru/voodster/smartcharts/AbstractPointMapper.kt:62-65 | when xMax <= xMin the widened bounds meet or cross, so no x passes the test |
| `Collections.Filter` | app/src/main/java/ru/voodster/smartcharts/PointListMapper.kt:143-145 | `filter` keeps only elements that pass and is never longer than its input; `Collections.FilterCount` gives how often each value is kept |
| `Collections.FilterExactly` | app/src/main/java/ru/voodster/smartcharts/PointListMapper.kt:143-145 | an element is in the filtered list exactly when it is in the input and passes |
| `Collections.FilterCount` | app/src/main/java/ru/voodster/smartcharts/PointListMapper.kt:143-145 | each value occurs in the filtered list as often as in the input when it passes, and never otherwise |
| `Collections.FilterIsSubsequence` | app/src/main/java/ru/voodster/smartcharts/PointListMapper.kt:143-145 | the filtered list keeps the input's order |
| `Collections.MaxOrNull` | app/src/main/java/ru/voodster/smartcharts/PointList.kt:28 | `maxOrNull` is null exactly on an empty list; otherwise it is an element and no element exceeds it |
| `Collections.MinOrNull` | app/src/main/java/ru/voodster/smartcharts/PointList.kt:27 | `minOrNull` is null exactly on an empty list; otherwise it is an element and no element is below it |
| `PointListMapper.Point.PointOffset` | app/src/main/java/ru/voodster/smartcharts/PointListMapper.kt:122-126 | the offset is the data-to-canvas mapping of the point; edges map to edges, and a point inside the limits lands on the canvas |
| `PointListMapper.CheckRows` | app/src/main/java/ru/voodster/smartcharts/PointListMapper.kt:84-88 | passes exactly when every multi-series row has the date list's length |
| `PointListMapper.CheckErrors` | app/src/main/java/ru/voodster/smartcharts/PointListMapper.kt:76-90 | per mode, passes exactly when the lengths agree; a failure is SizeMismatch |
| `PointListMapper.PairUp` | app/src/main/java/ru/voodster/smartcharts/PointListMapper.kt:133-135 | fails exactly when yList is shorter than xList; otherwise point i is (xList[i], yList[i]) |
| `PointListMapper.Create` | app/src/main/java/ru/voodster/smartcharts/PointListMapper.kt:96-135 | a failed check fails with SizeMismatch before any point is built; succeeds exactly when the check passes and yList is long enough, leaving a valid mapper over the given arrays |
| `PointListMapper.FromFloats` | app/src/main/java/ru/voodster/smartcharts/PointListMapper.kt:64-66 | succeeds exactly for equal lengths, with point i = (xList[i], yList[i]) |
| `PointListMapper.FromTimeSeries` | app/src/main/java/ru/voodster/smartcharts/PointListMapper.kt:68-70 | succeeds only for two empty arrays; unequal lengths give SizeMismatch, equal non-empty lengths give IndexOutOfRange |
| `PointListMapper.FromMultiSeries` | app/src/main/java/ru/voodster/smartcharts/PointListMapper.kt:71-73 | succeeds exactly when every row has the date list's length, and then has no points |
| `PointListMapper.Mapper.PointsOnCanvas` | app/src/main/java/ru/voodster/smartcharts/PointListMapper.kt:142-145 | exactly the points strictly inside the 10 %-widened x range, each as often as it occurs in the points, in their original order |
| `PointListMapper.Mapper.CanvasPoints` | app/src/main/java/ru/voodster/smartcharts/PointListMapper.kt:147-154 | gives the same list as `pointsOnCanvas`; the y limits play no part |
| `PointListMapper.Mapper.OffsetList` | app/src/main/java/ru/voodster/smartcharts/PointListMapper.kt:167-178 | one offset per visible point, element i mapping the i-th visible point; with no visible point any limits are accepted and the list is empty |
| `PointListMapper.OffsetListEmptyWhenNothingVisible` | app/src/main/java/ru/voodster/smartcharts/PointListMapper.kt:167-178 | with xMin == xMax no point is visible and `offsetList` is empty, whatever the y limits |
| `PointListMapper.PointsOnCanvasKeepsAll` | app/src/main/java/ru/voodster/smartcharts/PointListMapper.kt:142-145 | when every x lies in a non-degenerate [xMin, xMax], no point is culled |
| `PointListMapper.OffsetListInBand` | app/src/main/java/ru/voodster/smartcharts/PointListMapper.kt:168-178 | every offset's x lies between -width/10 and 11/10 of the width |
| `PointListMapper.Round` | app/src/main/java/ru/voodster/smartcharts/PointListMapper.kt:272 | the rounded value is a whole multiple of the precision, differs from the input by less than the precision, and lies between zero and the input |
| `PointListMapper.TextWidth` | app/src/main/java/ru/voodster/smartcharts/PointListMapper.kt:236 | the label width is the integer nearest to textSize times the length of "111.111", within half a unit |
| `PointListMapper.XMaxOfLabels` | app/src/main/java/ru/voodster/smartcharts/PointListMapper.kt:237 | the x label count is the integer nearest to width / textWidth, within half a unit |
| `PointListMapper.XGridList` | app/src/main/java/ru/voodster/smartcharts/PointListMapper.kt:230-248 | maxOfLabels points with y = 1, starting at round(xMin) + round(step/2) and spaced round(step) apart |
| `PointListMapper.YMaxOfLabels` | app/src/main/java/ru/voodster/smartcharts/PointListMapper.kt:261 | the y label count is the integer nearest to height / (3 * textSize), within half a unit |
| `PointListMapper.YGridList` | app/src/main/java/ru/voodster/smartcharts/PointListMapper.kt:260-264 | maxOfLabels + 1 points with x = 1, from yMin to yMax inclusive, evenly spaced; a count of -1 gives no point |
| `PointListMapper.YGridListNoRows` | app/src/main/java/ru/voodster/smartcharts/PointListMapper.kt:260-264 | text size -10 on a height of 30 rounds the count to -1, and the grid is then empty |
| `AbstractPointMapper.Point.constructor` | app/src/main/java/ru/voodster/smartcharts/AbstractPointMapper.kt:25-29 | a new point holds its values and its cached offset starts at (0, 0) |
| `AbstractPointMapper.Point.PointOffset` | app/src/main/java/ru/voodster/smartcharts/AbstractPointMapper.kt:39-45 | returns the mapped offset and leaves the cached field equal to it |
| `AbstractPointMapper.GridValues` | app/src/main/java/ru/voodster/smartcharts/AbstractPointMapper.kt:124-125 | gives exactly maxOfLabels values |
| `AbstractPointMapper.GridValuesSpan` | app/src/main/java/ru/voodster/smartcharts/AbstractPointMapper.kt:124-134 | the values start at min, are evenly spaced, and stay strictly below max when max > min |
| `AbstractPointMapper.PointMapper.Create` | app/src/main/java/ru/voodster/smartcharts/AbstractPointMapper.kt:19-54 | the subclass check decides first; then one fresh point per x value, failing with IndexOutOfRange when y values run out |
| `AbstractPointMapper.PointMapper.PointsOnCanvas` | app/src/main/java/ru/voodster/smartcharts/AbstractPointMapper.kt:62-65 | exactly the points strictly inside the 10 %-widened x range, in their original order |
| `AbstractPointMapper.PointMapper.OffsetList123` | app/src/main/java/ru/voodster/smartcharts/AbstractPointMapper.kt:80-90 | one offset per visible point, in order; each visible point's cache then holds its offset; with no visible point any limits are accepted |
| `AbstractPointMapper.PointMapper.GridList` | app/src/main/java/ru/voodster/smartcharts/AbstractPointMapper.kt:124-134 | maxOfLabels fresh points on the grid values: in y with x = 0 when vertical, in x with y = 0 when horizontal |
| `AbstractPointMapper.PointsOnCanvasKeepsAll` | app/src/main/java/ru/voodster/smartcharts/AbstractPointMapper.kt:62-65 | when every x lies in a non-degenerate [xMin, xMax], no point is culled |
| `AbstractPointMapper.NothingVisibleWhenEmpty` | app/src/main/java/ru/voodster/smartcharts/AbstractPointMapper.kt:62-65 | a zero-width or reversed x range shows no point, so the draw pass then chunks an empty list |
| `FloatListMapper.FloatCheckErrors` | app/src/main/java/ru/voodster/smartcharts/FloatListMapper.kt:7-9 | fails, with SizeMismatch, exactly when the lengths differ |
| `FloatListMapper.NewFloatListMapper` | app/src/main/java/ru/voodster/smartcharts/FloatListMapper.kt:5-9 | succeeds exactly for equal lengths, with one fresh point per index |
| `FloatListMapper.ToFloats` | app/src/main/java/ru/voodster/smartcharts/FloatListMapper.kt:15 | converts the Long dates element by element, keeping length and order |
| `FloatListMapper.NewTimeSeriesListMapper` | app/src/main/java/ru/voodster/smartcharts/FloatListMapper.kt:14-19 | always fails with NotImplemented |
| `PointList.Limits.Size` | app/src/main/java/ru/voodster/smartcharts/PointList.kt:76 | min plus the size is max |
| `PointList.Point.PointOffset` | app/src/main/java/ru/voodster/smartcharts/PointList.kt:65-69 | x pixel scales x itself by the range width, so x = 0 maps to 0; y pixel is 0 at yLimits.max and the height at yLimits.min |
| `PointList.PointOffsetShift` | app/src/main/java/ru/voodster/smartcharts/PointList.kt:67 | the x pixel sits min/size*width right of the mapping that subtracts min; the two agree exactly when min is 0 |
| `PointList.DefaultBounds` | app/src/main/java/ru/voodster/smartcharts/PointList.kt:25-34 | the least and greatest value of a list, or 0 and 100 for an empty list |
| `PointList.PointList.constructor` | app/src/main/java/ru/voodster/smartcharts/PointList.kt:17-39 | stores the lists and limits; point i is (xList[i], yList[i]) and there are as many points as x values |
| `PointList.PointList.Create` | app/src/main/java/ru/voodster/smartcharts/PointList.kt:17-39 | fails with IndexOutOfRange exactly when yList is shorter than xList |
| `PointList.PointList.CreateWithDefaultLimits` | app/src/main/java/ru/voodster/smartcharts/PointList.kt:25-34 | fresh limits span each list's least and greatest value, 0 and 100 when empty |
| `PointList.PointList.OffsetList` | app/src/main/java/ru/voodster/smartcharts/PointList.kt:41-43 | one offset per x value, element i mapping point i under the current limits; with no x value any limits are accepted |
| `PointList.PointList.SetXLimits` | app/src/main/java/ru/voodster/smartcharts/PointList.kt:20 | replaces the x limits and nothing else |
| `PointList.PointList.SetYLimits` | app/src/main/java/ru/voodster/smartcharts/PointList.kt:21 | replaces the y limits and nothing else |
| `Chart.XLabelsCount` | app/src/main/java/ru/voodster/smartcharts/Chart.kt:75 | the x label count is the nearest integer to width / (7 * textSize) |
| `Chart.YLabelsCount` | app/src/main/java/ru/voodster/smartcharts/Chart.kt:76 | the y label count is the nearest integer to height / trunc(3 * textSize) |
| `Chart.AnchorX` | app/src/main/java/ru/voodster/smartcharts/Chart.kt:149 | the data x under the gesture centre, read off the current x limits; `Chart.AnchorUnderCenter` proves it maps back to the centre |
| `Chart.AnchorY` | app/src/main/java/ru/voodster/smartcharts/Chart.kt:150-151 | the data y under the gesture centre, measured up from the bottom edge; `Chart.AnchorUnderCenter` proves it maps back to the centre |
| `Chart.Transformed` | app/src/main/java/ru/voodster/smartcharts/Chart.kt:147-159 | the four limits after one gesture: each bound zoomed about the anchor, then shifted by the pan in data units of the old widths; the next five rows state its properties |
| `Chart.AnchorUnderCenter` | app/src/main/java/ru/voodster/smartcharts/Chart.kt:147-151 | the anchor read off the limits is drawn exactly at the gesture centre |
| `Chart.TransformIdentity` | app/src/main/java/ru/voodster/smartcharts/Chart.kt:146-160 | zoom 1 with no pan leaves all four limits unchanged |
| `Chart.TransformWidths` | app/src/main/java/ru/voodster/smartcharts/Chart.kt:152-159 | each new width is the old width divided by the zoom |
| `Chart.TransformPanShifts` | app/src/main/java/ru/voodster/smartcharts/Chart.kt:152-159 | pan shifts both x bounds by -(pan.x/width)*xSize and both y bounds by (pan.y/height)*ySize |
| `Chart.ScaledAboutKeepsFraction` | app/src/main/java/ru/voodster/smartcharts/Chart.kt:152-159 | zooming about a point keeps that point at the same fraction of the range |
| `Chart.TransformKeepsAnchor` | app/src/main/java/ru/voodster/smartcharts/Chart.kt:147-159 | without pan, the data point under the gesture centre stays under it |
| `Chart.TransformKeepsOrder` | app/src/main/java/ru/voodster/smartcharts/Chart.kt:147-159 | a positive zoom keeps xMin < xMax and yMin < yMax |
| `Chart.ResetViewport` | app/src/main/java/ru/voodster/smartcharts/Chart.kt:119-128 | the limits become the least and greatest x and y, each a data value, or 0 and 10 without points |
| `Chart.ResetShowsAllPoints` | app/src/main/java/ru/voodster/smartcharts/Chart.kt:119-128 | after a double tap every point is visible, unless all x values are equal |
| `Chart.ResetConstantIsDegenerate` | app/src/main/java/ru/voodster/smartcharts/Chart.kt:119-128 | when every x is equal, a double tap gives a zero-width x range |
| `Chart.ResetConstantShowsNothing` | app/src/main/java/ru/voodster/smartcharts/Chart.kt:85-88 | after a double tap on points with equal x values no point is visible, so the chunk pass maps no point |
| `Chart.OffsetsOf` | app/src/main/java/ru/voodster/smartcharts/Chart.kt:97-99 | one offset per point, element i mapping point i; no point needs no division, whatever the limits |
| `Chart.Spread` | app/src/main/java/ru/voodster/smartcharts/Chart.kt:89-94 | the `dist > chunk.size/5` test: the squared distance between the first and last offset exceeds the square of size/5 with integer division |
| `Chart.Contribution` | app/src/main/java/ru/voodster/smartcharts/Chart.kt:94-104 | a chunk adds all its offsets when spread out, else its first and last; either way the result starts and ends with the chunk's ends and is no longer than the chunk unless the chunk has one offset |
| `Chart.Chunks` | app/src/main/java/ru/voodster/smartcharts/Chart.kt:88-104 | the contributions of consecutive chunks of 100, one per chunk: ceil((n - start)/100) of them |
| `Chart.Decimated` | app/src/main/java/ru/voodster/smartcharts/Chart.kt:88-106 | the drawn list is the chunk contributions concatenated in order; it is empty exactly when no offset is visible |
| `Chart.DecimatedKeepsAllWhenSpread` | app/src/main/java/ru/voodster/smartcharts/Chart.kt:94-100 | when every chunk is spread out, every visible offset is drawn, in order |
| `Chart.DecimatedFromInput` | app/src/main/java/ru/voodster/smartcharts/Chart.kt:88-106 | every drawn offset is the offset of a visible point |
| `Chart.DecimatedLength` | app/src/main/java/ru/voodster/smartcharts/Chart.kt:88-106 | at most one more offset is drawn than there are visible points |
| `Chart.DecimatedEndpoints` | app/src/main/java/ru/voodster/smartcharts/Chart.kt:88-106 | the drawn list starts at the first visible point and ends at the last |
| `Chart.PolygonChart.constructor` | app/src/main/java/ru/voodster/smartcharts/Chart.kt:65-79 | limits start at 0..10 on both axes, the canvas at 10 x 10, and the label counts match it |
| `Chart.PolygonChart.Transform` | app/src/main/java/ru/voodster/smartcharts/Chart.kt:146-160 | the new limits are the gesture's transform of the old ones, using widths taken before any assignment |
| `Chart.PolygonChart.DoubleTap` | app/src/main/java/ru/voodster/smartcharts/Chart.kt:119-128 | the limits become the reset viewport of the points |
| `Chart.PolygonChart.Resize` | app/src/main/java/ru/voodster/smartcharts/Chart.kt:163-167 | the label counts match the new canvas size, and stay as they were when the size is unchanged |
| `Chart.PolygonChart.DrawsNothingWhenHidden` | app/src/main/java/ru/voodster/smartcharts/Chart.kt:85-88 | with no visible point a draw pass is possible whatever the limits, and the drawn list is empty |
| `Chart.AllOffsets` | app/src/main/java/ru/voodster/smartcharts/Chart.kt:97-99 | a spread-out chunk yields the offset of each of its points, in order, under the current limits |
| `Chart.ChunkContribution` | app/src/main/java/ru/voodster/smartcharts/Chart.kt:89-104 | a chunk contributes all its offsets when its ends are more than size/5 pixels apart, else its first and last |
| `Chart.ChunkedList` | app/src/main/java/ru/voodster/smartcharts/Chart.kt:85-106 | the chunk results are those of consecutive chunks of 100 visible points, in order; the limits need non-zero widths only when some point is visible |
| `Chart.PolygonChart.CollectOffsets` | app/src/main/java/ru/voodster/smartcharts/Chart.kt:132-139 | the offset list is cleared and then holds every chunk's offsets, chunk by chunk |
| `Chart.PolygonChart.Render` | app/src/main/java/ru/voodster/smartcharts/Chart.kt:85-139 | the drawn list is the decimation of the visible offsets; with zero-width limits and no visible point it is empty |

## Left out

- Drawing: the Compose surface, `drawPoints`, the grid lines and the grid pass that maps each grid point with `pointOffset` (with a zero-width range, as after a double tap on constant data, it divides by zero, which is float behaviour), label text drawn with `Paint`, theme colours, previews, and the `draw` toggle. These are rendering calls into libraries that are not part of this model.
- `"%.2f"` label formatting, because it is a call to `String.format`.
- Coroutines: `scope.async`, `await`, `cancel` and `LaunchedEffect` in `Chart.kt`. `testOffsetList`, `deferedList` and `offsetSequence` in `PointListMapper.kt`. `offsetSequence` and the `LaunchedEffect`-based `offsetList` in `AbstractPointMapper.kt`. Only the sequential order of the chunk results is modelled: chunks are collected in order, as if each deferred result were awaited in turn.
- Logging (`Log.d`) and `MainActivity.kt`, which is start-up code with random demo data.
- IEEE float behaviour: rounding error, NaN and infinity. Where the code would divide by zero, the model has a `requires` instead.
- `hypot(dx, dy) > chunk.size / 5` is compared through squares. Both sides are non-negative, so the two tests agree on reals.
- `Chart.ChunkContribution`: does not write the points' cached `pointOffset` fields the way `pointOffset` does during the draw pass. The chart never reads those caches.
- `Chart.kt` calls a five-argument `canvasPoints` that `AbstractPointMapper` does not declare. The model uses the mapper's visible-point filter with the current x limits, because that is what its predicate computes.
- `AbstractPointMapper` is abstract but is instantiated directly in the preview, and its `init` calls `checkErrors` before the subclass's own fields are assigned. The model treats `checkErrors` as a check on the constructor arguments, decided before any point is created.
- `Chart.PolygonChart.Transform` reads each limit's old value from a copy of the viewport taken before the first assignment. The source reads the field itself, but each field is read only by its own assignment, before it is overwritten, so the values are the same.
- `PointListMapper.XGridList` and `AbstractPointMapper.PointMapper.GridList`: require a non-negative label count. For a negative count the source's `List(n)` throws `IllegalArgumentException`; the model does not represent that failure.
- `PointListMapper.YGridList`: requires a count that is positive or -1. The source builds `List(count + 1)`, so -1 gives an empty list (modelled) and a count below -1 throws `IllegalArgumentException` (not modelled). A count of 0 divides by zero, which is float behaviour.
