# TrailGrade trail-analysis engine in Dafny

This project models the analysis core of TrailGrade, a hiking-trail grader.

- **Point walk.** An ordered list of GeoJSON features (RFC 7946) becomes a list of points. Each point carries latitude, longitude, elevation and the cumulative great-circle distance from the start of the trail.
- **Whole-trail metrics.** The points give:
  - the length in km;
  - the elevation gain and loss;
  - the minimum and maximum elevation;
  - a variance metric, which is the sample variance, or the standard deviation when the variance exceeds 80;
  - the average slope;
  - the maximum slope, with a 5 m noise floor.
- **Segments.** The trail is cut into segments of a target length. Each segment recomputes its own metrics and gets a terrain label.
- **Difficulty ratings.** The analyzer turns the metrics into cardio, technical and overall ratings on a 1-10 scale. Accessibility and weather vulnerability are placeholders that compute nothing.

Modules, one per file:

- `numerics.dfy` (`Numerics`):
  - `min`, `max` and `abs` over reals;
  - Python's `round` (half to even);
  - `Option`;
  - `MathOps`, which carries the two transcendental operations the engine borrows from the platform: the haversine distance and the square root inside `statistics.stdev`. They are function values, not definitions. The predicate `MathOps.Sound` states the only facts the proofs use:
    - a distance is never negative;
    - identical coordinates are 0 apart;
    - the square root of a non-negative number is non-negative.
- `point.dfy` (`Points`): the `Point` record.
- `profile.dfy` (`Profiles`): the climb/descent sums that the trail and the segment loops both compute.
- `segment.dfy` (`Segments`): the `TrailSegment` class and its metric loops.
- `analysis.dfy` (`Analysis`): the pure scoring functions.
- `trail.dfy` (`Trails`):
  - the feature walk;
  - the whole-trail metrics;
  - the segmentation loop;
  - the `Trail` class and its analysis summary.

Every attribute of `Trail` and `TrailSegment` is assigned once, by the constructor, so they are `const` fields. The constructors run the same loops the source runs. Each loop is a method proved against a specification function; for example, `CalculateElevationUpDown` is proved equal to `Gain`/`Loss`, and `CreateSegments` is proved to satisfy `IsSegmentation`. The properties are then proved about those functions.

Three behaviours of the code are kept exactly as written:

- **Segment length.** It is the trail-absolute cumulative distance of the segment's last point, divided by 1000. It is not the span from the segment's own first point (`SegmentLengthIsTrailAbsolute`).
- **Segment maximum slope.** It skips only pairs with zero run. It has no 5 m noise floor, unlike the whole-trail maximum (`SegmentSlopeHasNoNoiseFloor`).
- **Two slope formulas.** The segment computes `|rise| / run * 100`. The whole trail computes `|rise / run| * 100`.

## Model

| member | source | states |
|---|---|---|
| Numerics.Round | core/analysis.py:47 | Python `round`: the result is within 1/2 of its argument, and an exact tie goes to the even neighbour |
| Numerics.RoundMonotone | core/analysis.py:143 | rounding preserves order |
| Profiles.GainOf | core/segment.py:27-37 | the climb total over a prefix is non-negative, and 0 for at most one point |
| Profiles.LossOf | core/segment.py:39-49 | the descent total over a prefix is non-negative, and 0 for at most one point |
| Profiles.GainLossTelescopeUpTo | core/trail.py:394-409 | gain minus loss over the first n points equals the elevation of point n-1 minus that of point 0 |
| Profiles.GainLossTelescope | core/trail.py:394-409 | gain minus loss over a non-empty list equals the last elevation minus the first |
| Segments.SegmentLength | core/segment.py:19-25 | 0 for at most one point; otherwise the last point's trail-absolute distance in km |
| Segments.SegmentLengthIsTrailAbsolute | core/segment.py:25 | a segment from 1000 m to 1500 m has length 1.5 km, not 0.5 km |
| Segments.SegmentAvgSlope | core/segment.py:51-59 | 0 for zero length; otherwise slope times length in metres equals gain times 100; non-negative for positive length and non-negative gain |
| Segments.SegmentMaxSlopeOf | core/segment.py:61-81 | the result is non-negative, is at least `abs(rise)/run*100` for every pair with non-zero run, and is 0 or one of those slopes |
| Segments.CalculateElevationGain | core/segment.py:27-37 | the accumulator loop returns the sum of positive changes (`Gain`) |
| Segments.CalculateElevationLoss | core/segment.py:39-49 | the accumulator loop returns the sum of descents (`Loss`) |
| Segments.CalculateMaxSlope | core/segment.py:61-81 | the running-maximum loop returns `SegmentMaxSlope`, skipping only zero-run pairs |
| Segments.TerrainType | core/segment.py:83-91 | "steep" iff the average slope is > 15, "moderate" iff it is in (8, 15], "flat" iff it is <= 8 |
| Segments.TrailSegment.constructor | core/segment.py:8-17 | the constructor keeps the id and points; start and end are the first and last point; every metric field holds its definition's value (`Valid`) |
| Segments.TrailSegment.ToDict | core/segment.py:93-107 | the record holds the id, the start and end points' coordinates, the stored metrics and the terrain label of the average slope |
| Segments.ValidSegmentMetrics | core/segment.py:8-49 | a constructed segment has non-negative gain, loss and maximum slope; gain minus loss is end elevation minus start elevation; it has exactly one of the three labels |
| Analysis.Factor | core/analysis.py:23-36 | `min(1, x/cap)`: at most 1; 1 at or beyond the cap; equal to x/cap below it; non-negative for non-negative x |
| Analysis.ToScale | core/analysis.py:47 | always in 1..10; for a score in [0, 1] equal to `round(9s) + 1` |
| Analysis.CardioScore | core/analysis.py:38-44 | for non-negative inputs the weighted score lies in [0, 1] |
| Analysis.CardioIntensity | core/analysis.py:15-47 | an integer in 1..10 for any input |
| Analysis.TechnicalScore | core/analysis.py:57-67 | for non-negative inputs the 0.6/0.4 weighted score lies in [0, 1] |
| Analysis.TechnicalDifficulty | core/analysis.py:49-70 | an integer in 1..10 for any input |
| Analysis.Accessibility | core/analysis.py:72-78 | no value (`None`), never a number |
| Analysis.WeatherVulnerability | core/analysis.py:80-86 | no value (`None`), never a number |
| Analysis.CombineOverall | core/analysis.py:135-143 | in 1..10; for ratings in 1..10 it lies between their minimum and maximum and within 1/2 of 0.6 cardio + 0.4 technical |
| Analysis.OverallDifficulty | core/analysis.py:125-143 | in 1..10, between the cardio and the technical rating; it reads only those two ratings, not accessibility or weather |
| Analysis.Ratings | core/trail.py:510-515 | the cardio, technical and overall ratings lie in 1..10; accessibility and weather are `None` |
| Analysis.FactorMonotone | core/analysis.py:23-36 | a larger input never gives a smaller factor |
| Analysis.ToScaleMonotone | core/analysis.py:47 | a larger score never gives a smaller rating |
| Analysis.CardioMonotone | core/analysis.py:15-47 | metrics that are no smaller never give an easier cardio rating |
| Analysis.TechnicalMonotone | core/analysis.py:49-70 | metrics that are no smaller never give an easier technical rating |
| Analysis.CombineOverallMonotone | core/analysis.py:136-143 | larger cardio and technical ratings never give a smaller overall rating |
| Analysis.RatingsMonotone | core/analysis.py:15-143 | a trail that is longer, climbs more, is steeper or rougher never rates easier on cardio, technical or overall |
| Analysis.CardioSaturate | core/analysis.py:23-47 | raising gain, length, average slope or variance beyond its cardio cap (1500 m, 20 km, 15 %, 100) leaves the cardio rating unchanged |
| Analysis.TechnicalSaturate | core/analysis.py:57-70 | raising maximum slope or variance beyond its technical cap (67 %, 200) leaves the technical rating unchanged |
| Analysis.RatingsSaturate | core/analysis.py:23-64 | raising an input beyond its cap (1500 m, 20 km, 15 %, 67 %, and 200 for the variance, which feeds both scores) leaves all ratings unchanged |
| Analysis.CardioAtCapsIsTen | core/analysis.py:39-47 | the cardio weights sum to 1: all inputs at their caps rate 10 |
| Trails.UsablePositionsFilter | core/trail.py:256-257 | a position is kept exactly when it has at least three numbers; no more positions come out than go in |
| Trails.UsablePositionsStep | core/trail.py:283-284 | one more coordinate adds that position iff it has an elevation |
| Trails.WalkExtend | core/trail.py:259-279 | emitting a point one hop beyond the last extends a walk by one position |
| Trails.WalkPosition | core/trail.py:284-302 | one position: skipped if shorter than 3, else a point `(lat, lon, ele)` one haversine hop beyond the previous coordinates, which then become this position's |
| Trails.WalkCoordinates | core/trail.py:283-302 | the loop over one coordinate list extends the walk by its usable positions; the previous coordinates carry over from before |
| Trails.WalkLines | core/trail.py:254-279 | a MultiLineString walks its lines in order with no reset between lines |
| Trails.ExtractPoints | core/trail.py:242-302 | the points are the walk of all usable positions of all features in order: first distance 0, each later one a haversine hop beyond its predecessor across lines and features; other geometries emit nothing |
| Trails.WalkMonotoneFrom | core/trail.py:259-264 | with a sound haversine, cumulative distance never decreases from point i to point j |
| Trails.WalkDistancesNonDecreasing | core/trail.py:242-302 | with a sound haversine, walk distances start at 0 and are non-decreasing |
| Trails.WalkRepeatAddsNothing | core/trail.py:259-264 | a position repeating its predecessor's coordinates adds no distance |
| Trails.TrailLength | core/trail.py:386-392 | 0 for no points; otherwise the last point's distance in km |
| Trails.CalculateElevationUpDown | core/trail.py:394-409 | the loop's increase is `Gain`; the absolute value of its non-positive sum is `Loss` |
| Trails.SquaredDeviations | core/trail.py:421 | a sum of squared deviations is non-negative |
| Trails.SampleVariance | core/trail.py:421 | the sample variance (n - 1 denominator) is non-negative |
| Trails.SampleStdev | core/trail.py:425 | with a sound square root the standard deviation is non-negative |
| Trails.ElevationVariance | core/trail.py:411-427 | 0 for at most one point; the variance when it is <= 80; the standard deviation when it is > 80; non-negative with a sound square root |
| Trails.SumOfConstant | core/trail.py:421 | the sum of n copies of c is n * c |
| Trails.DeviationsFromConstant | core/trail.py:421 | values all equal to c deviate from c by nothing |
| Trails.FlatTrailHasZeroVariance | core/trail.py:411-427 | a trail at constant elevation has variance metric 0 |
| Trails.RuggedTrailReportsStdev | core/trail.py:424-425 | elevations 0, 50, 100, 150, 200 have variance 6250 > 80, so the metric is its square root |
| Trails.MaxElevation | core/trail.py:429-434 | 0 for no points; otherwise at least every elevation and equal to one of them |
| Trails.MinElevation | core/trail.py:436-441 | 0 for no points; otherwise at most every elevation and equal to one of them |
| Trails.TrailAvgSlope | core/trail.py:443-449 | 0 for zero length or at most one point; otherwise slope times length in metres equals gain times 100 |
| Trails.TrailMaxSlopeOf | core/trail.py:451-472 | non-negative, at least `abs(rise/run)*100` for every pair with a run of at least 5 m, and 0 or one of those slopes |
| Trails.CalculateMaxSlope | core/trail.py:451-472 | the running-maximum loop returns `TrailMaxSlope`, skipping pairs with a run below 5 m or equal to 0 |
| Trails.TrailMaxSlopeOfAgrees | core/trail.py:465-466 | prefixes whose counted pairs and slopes coincide have the same maximum |
| Trails.TrailMaxSlopeIgnoresShortPairs | core/trail.py:465-466 | pairs closer than 5 m never affect the maximum slope |
| Trails.SegmentSlopeHasNoNoiseFloor | core/segment.py:74 | a 1 m run with a 1 m rise counts as 100 % for a segment, while the whole-trail maximum ignores it |
| Trails.StitchAppend | core/trail.py:498-500 | stitching one more list appends all but its first point |
| Trails.AppendSegment | core/trail.py:494-496 | the new segment is valid, is numbered by the counter and holds the buffer's points |
| Trails.LoopExtend | core/trail.py:485-493 | appending a point that neither meets the target nor ends the trail keeps the loop state |
| Trails.StitchClose | core/trail.py:493-500 | closing the buffer keeps the stitched lists equal to the points seen so far |
| Trails.ClosedAppend | core/trail.py:493-496 | appending a correctly closed list keeps every list correctly closed |
| Trails.LoopClose | core/trail.py:493-500 | closing a buffer of two or more points makes it the next list and reopens the buffer at the closing point |
| Trails.LoopDropShort | core/trail.py:493-500 | a one-point buffer that meets the target is dropped and reopened at the same point |
| Trails.LoopDone | core/trail.py:502 | after the last point, the closed lists split the trail |
| Trails.SegmentStep | core/trail.py:484-500 | one pass of the loop body preserves the loop state, the segment numbering and the segment/list correspondence |
| Trails.CreateSegments | core/trail.py:474-502 | no segments for fewer than 2 points; otherwise valid segments numbered 0, 1, 2, ... with at least 2 points each, consecutive ones sharing their boundary point, the first starting at the first point and the last ending at the last point, stitching back to the points, and each closed exactly where the distance reaches the target or the trail ends |
| Trails.StitchLength | core/trail.py:474-502 | k lists of two or more points stitch to at least k + 1 points |
| Trails.SegmentCountBound | core/trail.py:474-502 | a trail of n >= 2 points has between 1 and n - 1 segments |
| Trails.TwoPointTrailIsOneSegment | core/trail.py:474-502 | a two-point trail is one segment holding both points |
| Trails.TrailMetricsSound | core/trail.py:49-58 | with sound haversine and square root: length, gain, loss, variance metric and both slopes are non-negative; gain - loss is the net climb; min <= max elevation |
| Trails.Trail.constructor | core/trail.py:22-61 | the points are the walk of the features; every metric field holds its definition's value; the segments are a segmentation at the target length, which the source defaults to 0.5 km (`DefaultSegmentLength`) |
| Trails.Trail.AnalyzeTrail | core/trail.py:504-534 | the summary reports the stored metrics, `(min, max)` as range, the segment count and the ratings of the stored metrics |
| Trails.AnalysisSound | core/trail.py:504-534 | for a constructed trail with sound haversine and square root: non-negative length, gain, loss and slopes, gain - loss the net climb, an ordered range, 1..n-1 segments for n >= 2 points and none otherwise |

## Left out

- **File and library I/O.** The walk takes already-parsed features. Reading the file (`gpd.read_file`, `open`, `json.load`) and the geopandas fallback extraction, used when parsing fails, are not modelled.
- **Map rendering.** `get_location_coordinates`, `find_center`, `calculate_zoom`, `get_trail_as_map`, `get_map_name` and `__str__` build display output with folium and projection math. The trail name, which the source takes from the file name, is a constructor parameter.
- **Haversine trigonometry and the standard deviation's square root.** These are transcendental floating-point functions. They are passed in as `MathOps`, and only the facts in `MathOps.Sound` are assumed about them.
- **Floating point.** All metrics are Dafny `real`, so rounding error and overflow are not modelled. Python's `round` is modelled exactly, half to even, on reals.
- **Database persistence.** `store_analysis_results`, `save_to_database`, `connect_to_database` and the data scripts are SQL I/O.
- **`TrailAnalyzer.calculate_elevation_variance`.** It has no `self`, and the trail never calls it; the trail uses its own variance metric.
- **`hasattr` fallbacks in the analyzer.** The metrics are always present as fields of `TrailMetrics`.
- **Other parts of the repository.** This covers the analyzer's database handle, the web and HTTP layers, the front-end scripts, the path helpers in `utils`, the file-renaming script and the test drivers.
- **Trails.Trail.AnalyzeTrail:** the analyzer is not a separate object. The model computes the ratings directly from the stored metrics (`Trail.Metrics`), which are the only inputs the analyzer reads.
- **Segments.TrailSegment.ToDict:** requires `Valid()`. Every constructed segment satisfies it, and it lets the contract name the first and last points rather than the fields holding them.
