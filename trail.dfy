/**
 * The trail reducer (core/trail.py, class Trail): the walk that turns parsed
 * GeoJSON features into points with cumulative distances, the whole-trail
 * metrics, the segmentation loop and the analysis summary.
 */
module Trails {
  import opened Numerics
  import opened Points
  import opened Profiles
  import Segments
  import opened Analysis

  // ---------------------------------------------------------------------------
  // Input: already-parsed GeoJSON features (RFC 7946)
  // ---------------------------------------------------------------------------

  /** A GeoJSON position (section 3.1.1 of RFC 7946): [longitude, latitude, elevation, ...]. */
  type Position = seq<real>

  /**
   * The geometry of one feature: a LineString (section 3.1.4 of RFC 7946), a
   * MultiLineString (section 3.1.5), or any other type, which the walk ignores.
   */
  datatype Feature =
    | LineString(coordinates: seq<Position>)
    | MultiLineString(lines: seq<seq<Position>>)
    | Other

  /** The positions of a coordinate list that carry an elevation, in order. */
  function UsablePositions(coords: seq<Position>): seq<Position>
  {
    if coords == [] then []
    else
      var c := coords[|coords| - 1];
      UsablePositions(coords[..|coords| - 1]) + (if |c| >= 3 then [c] else [])
  }

  /**
   * Exactly the positions with at least three numbers survive, so a position
   * without an elevation emits no point.
   */
  lemma {:induction false} UsablePositionsFilter(coords: seq<Position>)
    ensures |UsablePositions(coords)| <= |coords|
    ensures forall c :: c in UsablePositions(coords) <==> c in coords && |c| >= 3
  {
    if coords != [] {
      var c := coords[|coords| - 1];
      assert coords == coords[..|coords| - 1] + [c];
      UsablePositionsFilter(coords[..|coords| - 1]);
    }
  }

  /** The usable positions of the lines of a MultiLineString, line after line. */
  function LinesPositions(lines: seq<seq<Position>>): seq<Position>
  {
    if lines == [] then []
    else LinesPositions(lines[..|lines| - 1]) + UsablePositions(lines[|lines| - 1])
  }

  function FeaturePositions(f: Feature): seq<Position>
  {
    match f
    case LineString(coords) => UsablePositions(coords)
    case MultiLineString(lines) => LinesPositions(lines)
    case Other => []
  }

  /** Every usable position of every feature, in document order. */
  function Positions(features: seq<Feature>): seq<Position>
  {
    if features == [] then []
    else Positions(features[..|features| - 1]) + FeaturePositions(features[|features| - 1])
  }

  // ---------------------------------------------------------------------------
  // The point walk (`extract_points`, JSON branch)
  // ---------------------------------------------------------------------------

  /** A point built from `[lon, lat, ele]`: latitude and longitude trade places. */
  predicate FromPosition(p: Point, c: Position)
  {
    |c| >= 3 && p.longitude == c[0] && p.latitude == c[1] && p.elevation == c[2]
  }

  /** Point k lies one great-circle hop (from point k-1) further along than point k-1. */
  predicate StepOk(points: seq<Point>, k: int, haversine: (real, real, real, real) -> real)
    requires 1 <= k < |points|
  {
    points[k].distanceFromStart
      == points[k - 1].distanceFromStart
         + haversine(points[k - 1].latitude, points[k - 1].longitude, points[k].latitude, points[k].longitude)
  }

  /**
   * `points` is what the walk emits for `positions`: one point per position,
   * the first at distance 0, each later one a haversine hop beyond its
   * predecessor, whether or not the two came from the same line or feature.
   */
  predicate IsWalk(points: seq<Point>, positions: seq<Position>, haversine: (real, real, real, real) -> real)
  {
    && |points| == |positions|
    && (forall k :: 0 <= k < |points| ==> FromPosition(points[k], positions[k]))
    && (|points| > 0 ==> points[0].distanceFromStart == 0.0)
    && (forall k :: 1 <= k < |points| ==> StepOk(points, k, haversine))
  }

  /** The walk's running state agrees with the points emitted so far. */
  predicate Tracks(points: seq<Point>, distanceSoFar: real, prevLat: Option<real>, prevLon: Option<real>)
  {
    if |points| == 0 then
      distanceSoFar == 0.0 && prevLat.None? && prevLon.None?
    else
      && distanceSoFar == Last(points).distanceFromStart
      && prevLat == Some(Last(points).latitude)
      && prevLon == Some(Last(points).longitude)
  }

  /** Emitting one more point, one hop beyond the last, extends a walk by one position. */
  lemma WalkExtend(points: seq<Point>, positions: seq<Position>, haversine: (real, real, real, real) -> real,
                   p: Point, c: Position)
    requires IsWalk(points, positions, haversine) && FromPosition(p, c)
    requires |points| == 0 ==> p.distanceFromStart == 0.0
    requires |points| > 0 ==> p.distanceFromStart == Last(points).distanceFromStart
                                + haversine(Last(points).latitude, Last(points).longitude, p.latitude, p.longitude)
    ensures IsWalk(points + [p], positions + [c], haversine)
  {
    var points', positions' := points + [p], positions + [c];
    forall k | 1 <= k < |points'| ensures StepOk(points', k, haversine) {
      if k < |points| {
        assert StepOk(points, k, haversine);
      }
    }
  }

  /** Positions in a prefix one longer: the new coordinate is kept iff it has an elevation. */
  lemma UsablePositionsStep(coords: seq<Position>, j: int)
    requires 0 <= j < |coords|
    ensures UsablePositions(coords[..j + 1])
            == UsablePositions(coords[..j]) + (if |coords[j]| >= 3 then [coords[j]] else [])
  {
    assert coords[..j + 1][..j] == coords[..j];
  }

  /**
   * One position of the inner `for coords in ...` loop: a position with fewer
   * than three numbers is skipped; any other becomes a point one hop beyond
   * the previous coordinates, if there are any.
   */
  method WalkPosition(
    c: Position, haversine: (real, real, real, real) -> real,
    points: seq<Point>, distanceSoFar: real, prevLat: Option<real>, prevLon: Option<real>,
    ghost walked: seq<Position>)
    returns (points': seq<Point>, distanceSoFar': real, prevLat': Option<real>, prevLon': Option<real>)
    requires IsWalk(points, walked, haversine) && Tracks(points, distanceSoFar, prevLat, prevLon)
    ensures IsWalk(points', walked + (if |c| >= 3 then [c] else []), haversine)
    ensures Tracks(points', distanceSoFar', prevLat', prevLon')
  {
    points', distanceSoFar', prevLat', prevLon' := points, distanceSoFar, prevLat, prevLon;
    if |c| >= 3 {
      var lon, lat, ele := c[0], c[1], c[2];
      if prevLat.Some? && prevLon.Some? {
        var dist := haversine(prevLat.value, prevLon.value, lat, lon);
        distanceSoFar' := distanceSoFar + dist;
      }
      var p := Point(lat, lon, ele, distanceSoFar');
      WalkExtend(points, walked, haversine, p, c);
      points' := points + [p];
      prevLat', prevLon' := Some(lat), Some(lon);
    } else {
      assert walked + [] == walked;
    }
  }

  /**
   * The inner `for coords in ...` loop that both geometry branches run; the
   * previous coordinates carry over from whatever was walked before.
   */
  method WalkCoordinates(
    coords: seq<Position>, haversine: (real, real, real, real) -> real,
    points: seq<Point>, distanceSoFar: real, prevLat: Option<real>, prevLon: Option<real>,
    ghost walked: seq<Position>)
    returns (points': seq<Point>, distanceSoFar': real, prevLat': Option<real>, prevLon': Option<real>)
    requires IsWalk(points, walked, haversine) && Tracks(points, distanceSoFar, prevLat, prevLon)
    ensures IsWalk(points', walked + UsablePositions(coords), haversine)
    ensures Tracks(points', distanceSoFar', prevLat', prevLon')
  {
    points', distanceSoFar', prevLat', prevLon' := points, distanceSoFar, prevLat, prevLon;
    for j := 0 to |coords|
      invariant IsWalk(points', walked + UsablePositions(coords[..j]), haversine)
      invariant Tracks(points', distanceSoFar', prevLat', prevLon')
    {
      UsablePositionsStep(coords, j);
      assert walked + UsablePositions(coords[..j + 1])
          == (walked + UsablePositions(coords[..j])) + (if |coords[j]| >= 3 then [coords[j]] else []);
      points', distanceSoFar', prevLat', prevLon' :=
        WalkPosition(coords[j], haversine, points', distanceSoFar', prevLat', prevLon', walked + UsablePositions(coords[..j]));
    }
    assert coords[..|coords|] == coords;
  }

  /** The lines of one MultiLineString, walked one after another. */
  method WalkLines(
    lines: seq<seq<Position>>, haversine: (real, real, real, real) -> real,
    points: seq<Point>, distanceSoFar: real, prevLat: Option<real>, prevLon: Option<real>,
    ghost walked: seq<Position>)
    returns (points': seq<Point>, distanceSoFar': real, prevLat': Option<real>, prevLon': Option<real>)
    requires IsWalk(points, walked, haversine) && Tracks(points, distanceSoFar, prevLat, prevLon)
    ensures IsWalk(points', walked + LinesPositions(lines), haversine)
    ensures Tracks(points', distanceSoFar', prevLat', prevLon')
  {
    points', distanceSoFar', prevLat', prevLon' := points, distanceSoFar, prevLat, prevLon;
    for l := 0 to |lines|
      invariant IsWalk(points', walked + LinesPositions(lines[..l]), haversine)
      invariant Tracks(points', distanceSoFar', prevLat', prevLon')
    {
      assert lines[..l + 1][..l] == lines[..l];
      assert walked + LinesPositions(lines[..l + 1]) == (walked + LinesPositions(lines[..l])) + UsablePositions(lines[l]);
      points', distanceSoFar', prevLat', prevLon' :=
        WalkCoordinates(lines[l], haversine, points', distanceSoFar', prevLat', prevLon', walked + LinesPositions(lines[..l]));
    }
    assert lines[..|lines|] == lines;
  }

  /** `extract_points`: the walk over every feature, in order. */
  method ExtractPoints(features: seq<Feature>, haversine: (real, real, real, real) -> real)
    returns (points: seq<Point>)
    ensures IsWalk(points, Positions(features), haversine)
  {
    points := [];
    var distanceSoFar := 0.0;
    var prevLat: Option<real>, prevLon: Option<real> := None, None;
    for i := 0 to |features|
      invariant IsWalk(points, Positions(features[..i]), haversine)
      invariant Tracks(points, distanceSoFar, prevLat, prevLon)
    {
      assert features[..i + 1][..i] == features[..i];
      assert Positions(features[..i + 1]) == Positions(features[..i]) + FeaturePositions(features[i]);
      match features[i]
      case MultiLineString(lines) =>
        points, distanceSoFar, prevLat, prevLon :=
          WalkLines(lines, haversine, points, distanceSoFar, prevLat, prevLon, Positions(features[..i]));
      case LineString(coords) =>
        points, distanceSoFar, prevLat, prevLon :=
          WalkCoordinates(coords, haversine, points, distanceSoFar, prevLat, prevLon, Positions(features[..i]));
      case Other =>
        assert Positions(features[..i]) + [] == Positions(features[..i]);
    }
    assert features[..|features|] == features;
  }

  lemma {:induction false} WalkMonotoneFrom(points: seq<Point>, positions: seq<Position>, math: MathOps, i: int, j: int)
    requires IsWalk(points, positions, math.haversine) && math.Sound()
    requires 0 <= i <= j < |points|
    ensures points[i].distanceFromStart <= points[j].distanceFromStart
    decreases j - i
  {
    if i < j {
      WalkMonotoneFrom(points, positions, math, i, j - 1);
      assert StepOk(points, j, math.haversine);
    }
  }

  /**
   * With a sound haversine, the cumulative distances of a walk start at 0 and
   * never decrease.
   */
  lemma WalkDistancesNonDecreasing(points: seq<Point>, positions: seq<Position>, math: MathOps)
    requires IsWalk(points, positions, math.haversine) && math.Sound()
    ensures forall i, j :: 0 <= i <= j < |points| ==> 0.0 <= points[i].distanceFromStart <= points[j].distanceFromStart
  {
    forall i, j | 0 <= i <= j < |points|
      ensures 0.0 <= points[i].distanceFromStart <= points[j].distanceFromStart
    {
      WalkMonotoneFrom(points, positions, math, 0, i);
      WalkMonotoneFrom(points, positions, math, i, j);
    }
  }

  /** Repeating a position adds no distance. */
  lemma WalkRepeatAddsNothing(points: seq<Point>, positions: seq<Position>, math: MathOps, k: int)
    requires IsWalk(points, positions, math.haversine) && math.Sound()
    requires 1 <= k < |points| && positions[k][..2] == positions[k - 1][..2]
    ensures points[k].distanceFromStart == points[k - 1].distanceFromStart
  {
    assert StepOk(points, k, math.haversine);
    assert positions[k][0] == positions[k][..2][0] && positions[k][1] == positions[k][..2][1];
    assert positions[k - 1][0] == positions[k - 1][..2][0] && positions[k - 1][1] == positions[k - 1][..2][1];
  }

  // ---------------------------------------------------------------------------
  // Whole-trail metrics
  // ---------------------------------------------------------------------------

  /** `calculate_trail_length`: the last point's cumulative distance, in km. */
  function TrailLength(points: seq<Point>): (km: real)
    ensures points == [] ==> km == 0.0
    ensures points != [] ==> km * 1000.0 == Last(points).distanceFromStart
  {
    if points == [] then 0.0 else Last(points).distanceFromStart / 1000.0
  }

  /**
   * `calculate_elevation_up_down`: climbs are added to one total, every other
   * change (zero included) to a non-positive one whose magnitude is returned.
   */
  method CalculateElevationUpDown(points: seq<Point>) returns (gain: real, loss: real)
    ensures gain == Gain(points) && loss == Loss(points)
  {
    var increase := 0.0;
    var decrease := 0.0;
    if |points| <= 1 {
      return increase, decrease;
    }
    for i := 1 to |points|
      invariant increase == GainOf(points, i)
      invariant decrease == -LossOf(points, i)
    {
      var elevDiff := points[i].elevation - points[i - 1].elevation;
      if elevDiff > 0.0 {
        increase := increase + elevDiff;
      } else {
        decrease := decrease + elevDiff;
      }
    }
    return increase, Abs(decrease);
  }

  /** The elevations of the points, in order. */
  function Elevations(points: seq<Point>): (elevations: seq<real>)
    ensures |elevations| == |points|
    ensures forall k :: 0 <= k < |points| ==> elevations[k] == points[k].elevation
  {
    seq(|points|, k requires 0 <= k < |points| => points[k].elevation)
  }

  function Sum(xs: seq<real>): real
  {
    if xs == [] then 0.0 else Sum(xs[..|xs| - 1]) + xs[|xs| - 1]
  }

  function Mean(xs: seq<real>): real
    requires |xs| > 0
  {
    Sum(xs) / |xs| as real
  }

  /** Sum of squared deviations of xs from c. */
  function SquaredDeviations(xs: seq<real>, c: real): (s: real)
    ensures s >= 0.0
  {
    if xs == [] then 0.0
    else
      var d := xs[|xs| - 1] - c;
      SquaredDeviations(xs[..|xs| - 1], c) + d * d
  }

  /** `statistics.variance`: the sample variance, with n - 1 in the denominator. */
  function SampleVariance(xs: seq<real>): (v: real)
    requires |xs| >= 2
    ensures v >= 0.0
  {
    SquaredDeviations(xs, Mean(xs)) / (|xs| - 1) as real
  }

  /** `statistics.stdev`: the square root of the sample variance. */
  function SampleStdev(xs: seq<real>, math: MathOps): (s: real)
    requires |xs| >= 2
    ensures math.Sound() ==> s >= 0.0
  {
    math.sqrt(SampleVariance(xs))
  }

  const VarianceThreshold: real := 80.0

  /**
   * `calculate_elevation_variance`: 0 for at most one point; otherwise the
   * sample variance, unless it exceeds 80, in which case the standard
   * deviation is reported instead.
   */
  function ElevationVariance(points: seq<Point>, math: MathOps): (v: real)
    ensures |points| <= 1 ==> v == 0.0
    ensures |points| >= 2 && SampleVariance(Elevations(points)) <= VarianceThreshold
            ==> v == SampleVariance(Elevations(points))
    ensures |points| >= 2 && SampleVariance(Elevations(points)) > VarianceThreshold
            ==> v == SampleStdev(Elevations(points), math)
    ensures math.Sound() ==> v >= 0.0
  {
    if |points| <= 1 then 0.0
    else
      var elevations := Elevations(points);
      var variance := SampleVariance(elevations);
      if variance > VarianceThreshold then SampleStdev(elevations, math) else variance
  }

  lemma {:induction false} SumOfConstant(xs: seq<real>, c: real)
    requires forall k :: 0 <= k < |xs| ==> xs[k] == c
    ensures Sum(xs) == |xs| as real * c
  {
    if xs != [] {
      SumOfConstant(xs[..|xs| - 1], c);
    }
  }

  lemma {:induction false} DeviationsFromConstant(xs: seq<real>, c: real)
    requires forall k :: 0 <= k < |xs| ==> xs[k] == c
    ensures SquaredDeviations(xs, c) == 0.0
  {
    if xs != [] {
      DeviationsFromConstant(xs[..|xs| - 1], c);
    }
  }

  /** A trail at one constant elevation has variance metric 0 (e.g. elevations 100, 100, 100, 100). */
  lemma FlatTrailHasZeroVariance(points: seq<Point>, math: MathOps)
    requires forall k :: 0 <= k < |points| ==> points[k].elevation == points[0].elevation
    ensures ElevationVariance(points, math) == 0.0
  {
    if |points| >= 2 {
      var xs := Elevations(points);
      SumOfConstant(xs, points[0].elevation);
      assert Mean(xs) == points[0].elevation;
      DeviationsFromConstant(xs, points[0].elevation);
    }
  }

  /**
   * Elevations 0, 50, 100, 150, 200 have sample variance 6250, above the
   * threshold, so the metric is the standard deviation and not the variance.
   */
  lemma RuggedTrailReportsStdev(points: seq<Point>, math: MathOps)
    requires |points| == 5
    requires points[0].elevation == 0.0 && points[1].elevation == 50.0 && points[2].elevation == 100.0
    requires points[3].elevation == 150.0 && points[4].elevation == 200.0
    ensures ElevationVariance(points, math) == math.sqrt(6250.0)
  {
    var xs := Elevations(points);
    var x1, x2, x3, x4 := [0.0], [0.0, 50.0], [0.0, 50.0, 100.0], [0.0, 50.0, 100.0, 150.0];
    assert xs == x4 + [200.0];
    assert x4 == x3 + [150.0] && x3 == x2 + [100.0] && x2 == x1 + [50.0] && x1 == [] + [0.0];
    assert Sum(x1) == 0.0 && Sum(x2) == 50.0 && Sum(x3) == 150.0 && Sum(x4) == 300.0;
    assert Sum(xs) == 500.0;
    assert Mean(xs) == 100.0;
    assert SquaredDeviations(x1, 100.0) == 10000.0;
    assert SquaredDeviations(x2, 100.0) == 12500.0;
    assert SquaredDeviations(x3, 100.0) == 12500.0;
    assert SquaredDeviations(x4, 100.0) == 15000.0;
    assert SquaredDeviations(xs, 100.0) == 25000.0;
    assert SampleVariance(xs) == 6250.0;
  }

  /** `calculate_max_elevation`: 0 for no points, else the highest elevation. */
  function MaxElevation(points: seq<Point>): (top: real)
    ensures points == [] ==> top == 0.0
    ensures forall k :: 0 <= k < |points| ==> points[k].elevation <= top
    ensures points != [] ==> exists k :: 0 <= k < |points| && points[k].elevation == top
  {
    if |points| == 0 then 0.0
    else if |points| == 1 then points[0].elevation
    else Max(MaxElevation(points[..|points| - 1]), Last(points).elevation)
  }

  /** `calculate_min_elevation`: 0 for no points, else the lowest elevation. */
  function MinElevation(points: seq<Point>): (bottom: real)
    ensures points == [] ==> bottom == 0.0
    ensures forall k :: 0 <= k < |points| ==> bottom <= points[k].elevation
    ensures points != [] ==> exists k :: 0 <= k < |points| && points[k].elevation == bottom
  {
    if |points| == 0 then 0.0
    else if |points| == 1 then points[0].elevation
    else Min(MinElevation(points[..|points| - 1]), Last(points).elevation)
  }

  /** `calculate_avg_slope`: gain over length (in metres), times 100; 0 if degenerate. */
  function TrailAvgSlope(lengthKm: real, gain: real, pointCount: nat): (pct: real)
    ensures lengthKm == 0.0 || pointCount <= 1 ==> pct == 0.0
    ensures lengthKm != 0.0 && pointCount >= 2 ==> pct * (lengthKm * 1000.0) == gain * 100.0
    ensures lengthKm > 0.0 && gain >= 0.0 ==> pct >= 0.0
  {
    if lengthKm == 0.0 || pointCount <= 1 then 0.0
    else (gain / (lengthKm * 1000.0)) * 100.0
  }

  /** Pairs closer than this many metres are treated as GPS jitter by the whole-trail maximum slope. */
  const MinHorizontalDistance: real := 5.0

  /** Pair k enters the whole-trail maximum slope: its run is neither below 5 m nor 0. */
  predicate Counted(points: seq<Point>, k: int)
    requires 1 <= k < |points|
  {
    !(Run(points, k) < MinHorizontalDistance || Run(points, k) == 0.0)
  }

  /** Slope of pair k as the trail code computes it: |rise / run| * 100. */
  function TrailPairSlope(points: seq<Point>, k: int): real
    requires 1 <= k < |points| && Run(points, k) != 0.0
  {
    Abs(Rise(points, k) / Run(points, k)) * 100.0
  }

  /** The largest counted pair slope among the first n points, or 0. */
  function TrailMaxSlopeOf(points: seq<Point>, n: nat): (m: real)
    requires n <= |points|
    ensures m >= 0.0
    ensures forall k :: 1 <= k < n && Counted(points, k) ==> TrailPairSlope(points, k) <= m
    ensures m == 0.0 || exists k :: 1 <= k < n && Counted(points, k) && m == TrailPairSlope(points, k)
  {
    if n <= 1 then 0.0
    else
      var m := TrailMaxSlopeOf(points, n - 1);
      if !Counted(points, n - 1) then m else Max(m, TrailPairSlope(points, n - 1))
  }

  function TrailMaxSlope(points: seq<Point>): real
  {
    TrailMaxSlopeOf(points, |points|)
  }

  /** `calculate_max_slope`: the steepest pair at least 5 m apart. */
  method CalculateMaxSlope(points: seq<Point>) returns (maxSlope: real)
    ensures maxSlope == TrailMaxSlope(points)
  {
    if |points| <= 1 {
      return 0.0;
    }
    maxSlope := 0.0;
    var minHorizontalDistance := MinHorizontalDistance;
    for i := 1 to |points|
      invariant maxSlope == TrailMaxSlopeOf(points, i)
    {
      var p1 := points[i - 1];
      var p2 := points[i];
      var distance := p2.distanceFromStart - p1.distanceFromStart;
      assert distance == Run(points, i) && p2.elevation - p1.elevation == Rise(points, i);
      if distance < minHorizontalDistance || distance == 0.0 {
        continue;
      }
      var slopePct := Abs((p2.elevation - p1.elevation) / distance) * 100.0;
      maxSlope := Max(maxSlope, slopePct);
    }
  }

  lemma {:induction false} TrailMaxSlopeOfAgrees(p: seq<Point>, q: seq<Point>, n: nat)
    requires n <= |p| == |q|
    requires forall k :: 1 <= k < |p| ==> (Counted(p, k) <==> Counted(q, k))
    requires forall k :: 1 <= k < |p| && Counted(p, k) && Counted(q, k) ==> TrailPairSlope(p, k) == TrailPairSlope(q, k)
    ensures TrailMaxSlopeOf(p, n) == TrailMaxSlopeOf(q, n)
  {
    if n > 1 {
      TrailMaxSlopeOfAgrees(p, q, n - 1);
    }
  }

  /**
   * Pairs closer than 5 m never affect the whole-trail maximum slope: two
   * point lists whose counted pairs coincide, with equal slopes, have the same
   * maximum, whatever their short pairs are.
   */
  lemma TrailMaxSlopeIgnoresShortPairs(p: seq<Point>, q: seq<Point>)
    requires |p| == |q|
    requires forall k :: 1 <= k < |p| ==> (Counted(p, k) <==> Counted(q, k))
    requires forall k :: 1 <= k < |p| && Counted(p, k) && Counted(q, k) ==> TrailPairSlope(p, k) == TrailPairSlope(q, k)
    ensures TrailMaxSlope(p) == TrailMaxSlope(q)
  {
    TrailMaxSlopeOfAgrees(p, q, |p|);
  }

  /**
   * The segment maximum slope has no 5 m floor: a 1 m run with a 1 m rise is
   * a 100 % slope for a segment, while the whole trail ignores that pair.
   */
  lemma SegmentSlopeHasNoNoiseFloor()
    ensures var pts := [Point(0.0, 0.0, 0.0, 0.0), Point(0.0, 0.0, 1.0, 1.0)];
            Segments.SegmentMaxSlope(pts) == 100.0 && TrailMaxSlope(pts) == 0.0
  {
    var pts := [Point(0.0, 0.0, 0.0, 0.0), Point(0.0, 0.0, 1.0, 1.0)];
    assert Run(pts, 1) == 1.0 && Rise(pts, 1) == 1.0;
    assert Segments.SegmentPairSlope(pts, 1) == 100.0;
    assert !Counted(pts, 1);
  }

  // ---------------------------------------------------------------------------
  // Segmentation (`create_segments`)
  // ---------------------------------------------------------------------------

  /** A list without its first element. */
  function DropFirst(s: seq<Point>): seq<Point>
  {
    if s == [] then [] else s[1..]
  }

  /** Concatenates consecutive pieces, counting each shared boundary point once. */
  function Stitch(pieces: seq<seq<Point>>): seq<Point>
  {
    if |pieces| == 0 then []
    else if |pieces| == 1 then pieces[0]
    else Stitch(pieces[..|pieces| - 1]) + DropFirst(pieces[|pieces| - 1])
  }

  lemma StitchAppend(pieces: seq<seq<Point>>, piece: seq<Point>)
    requires |pieces| >= 1
    ensures Stitch(pieces + [piece]) == Stitch(pieces) + DropFirst(piece)
  {
    assert (pieces + [piece])[..|pieces|] == pieces;
  }

  /** The point lists of a sequence of segments. */
  function Pieces(segments: seq<Segments.TrailSegment>): (pieces: seq<seq<Point>>)
    ensures |pieces| == |segments|
    ensures forall k :: 0 <= k < |segments| ==> pieces[k] == segments[k].points
  {
    seq(|segments|, k requires 0 <= k < |segments| => segments[k].points)
  }

  /** The segment length reached at point p, measured from segmentStart, meets the target. */
  predicate Reaches(p: Point, segmentStart: real, target: real)
  {
    (p.distanceFromStart - segmentStart) / 1000.0 >= target
  }

  /**
   * Where segment k's length is measured from: the distance of its first
   * point, except for the first segment, which measures from 0 unless the
   * trail's very first point already met the target on its own.
   */
  function SegmentStart(k: nat, piece: seq<Point>, points: seq<Point>, target: real): real
    requires |piece| >= 1 && |points| >= 1
  {
    if k > 0 then piece[0].distanceFromStart
    else if Reaches(points[0], 0.0, target) then points[0].distanceFromStart
    else 0.0
  }

  /**
   * A piece closed by the loop: at least two points, no interior point met
   * the target, and the last point met it unless the piece ends the trail.
   */
  predicate ClosedCorrectly(piece: seq<Point>, start: real, target: real, isFinal: bool)
  {
    && |piece| >= 2
    && (forall j :: 1 <= j < |piece| - 1 ==> !Reaches(piece[j], start, target))
    && (isFinal || Reaches(Last(piece), start, target))
  }

  /**
   * How the points of a trail are split into the point lists of its segments:
   * none for fewer than two points; otherwise each list has at least two
   * points, consecutive lists share their boundary point, the first starts at
   * the trail's first point, the last ends at its last point, stitching them
   * back together gives the trail, and each list was closed where the loop
   * closes it.
   */
  predicate IsSplit(pieces: seq<seq<Point>>, points: seq<Point>, target: real)
  {
    && (|points| < 2 ==> pieces == [])
    && (|points| >= 2 ==> |pieces| >= 1)
    && (forall k :: 0 <= k < |pieces| ==> |pieces[k]| >= 2)
    && (forall k :: 0 <= k < |pieces| - 1 ==> Last(pieces[k]) == pieces[k + 1][0])
    && (|points| >= 2 ==>
          && pieces[0][0] == points[0]
          && Last(pieces[|pieces| - 1]) == Last(points)
          && Stitch(pieces) == points
          && forall k :: 0 <= k < |pieces| ==>
               ClosedCorrectly(pieces[k], SegmentStart(k, pieces[k], points, target), target, k == |pieces| - 1))
  }

  /** Valid segments numbered 0, 1, 2, ... in order. */
  predicate Numbered(segments: seq<Segments.TrailSegment>)
  {
    forall k :: 0 <= k < |segments| ==> segments[k].Valid() && segments[k].segmentId == k
  }

  /** Builds segment number segmentId from a closed buffer and appends it. */
  method AppendSegment(segments: seq<Segments.TrailSegment>, segmentPoints: seq<Point>, segmentId: int)
    returns (segments': seq<Segments.TrailSegment>)
    requires Numbered(segments) && segmentId == |segments| && |segmentPoints| >= 1
    ensures Numbered(segments') && Pieces(segments') == Pieces(segments) + [segmentPoints]
  {
    var segment := new Segments.TrailSegment(segmentPoints, segmentId);
    segments' := segments + [segment];
    assert Pieces(segments') == Pieces(segments) + [segmentPoints];
  }

  /** What `create_segments` promises: valid segments numbered 0, 1, 2, ... that split the points. */
  predicate IsSegmentation(segments: seq<Segments.TrailSegment>, points: seq<Point>, target: real)
  {
    Numbered(segments) && IsSplit(Pieces(segments), points, target)
  }

  /**
   * The state of the segmentation loop after its first i points: the closed
   * point lists, the open buffer and the distance the open buffer's length is
   * measured from.
   */
  predicate LoopState(points: seq<Point>, target: real, i: int, pieces: seq<seq<Point>>,
                      buffer: seq<Point>, start: real)
  {
    && |points| >= 2
    && 0 <= i <= |points|
    && (forall k :: 0 <= k < |pieces| ==> |pieces[k]| >= 2)
    && (forall k :: 0 <= k < |pieces| - 1 ==> Last(pieces[k]) == pieces[k + 1][0])
    && (i == 0 ==> buffer == [] && start == 0.0 && pieces == [])
    && (i >= 1 ==> |buffer| >= 1 && Last(buffer) == points[i - 1])
    && (i >= 1 ==> start == SegmentStart(|pieces|, buffer, points, target))
    && (pieces == [] ==> buffer == points[..i])
    && (pieces != [] ==>
          && pieces[0][0] == points[0]
          && Last(pieces[|pieces| - 1]) == buffer[0]
          && Stitch(pieces) + buffer[1..] == points[..i])
    && (forall j :: 1 <= j < |buffer| ==> !Reaches(buffer[j], start, target))
    && (forall k :: 0 <= k < |pieces| ==>
          ClosedCorrectly(pieces[k], SegmentStart(k, pieces[k], points, target), target,
                          i == |points| && k == |pieces| - 1))
    && (i == |points| ==> pieces != [] && |buffer| == 1)
  }

  /** Appending point i to the buffer without closing it. */
  lemma LoopExtend(points: seq<Point>, target: real, i: int, pieces: seq<seq<Point>>, buffer: seq<Point>, start: real)
    requires LoopState(points, target, i, pieces, buffer, start) && i < |points|
    requires !Reaches(points[i], start, target) && i != |points| - 1
    ensures LoopState(points, target, i + 1, pieces, buffer + [points[i]], start)
  {
    assert points[..i + 1] == points[..i] + [points[i]];
    if pieces != [] {
      assert (buffer + [points[i]])[1..] == buffer[1..] + [points[i]];
    }
  }

  /** Closing the buffer keeps the stitched lists equal to the points seen so far. */
  lemma StitchClose(points: seq<Point>, i: int, pieces: seq<seq<Point>>, buffer: seq<Point>)
    requires 0 <= i < |points| && |buffer| >= 1
    requires pieces == [] ==> buffer == points[..i]
    requires pieces != [] ==> Stitch(pieces) + buffer[1..] == points[..i]
    ensures Stitch(pieces + [buffer + [points[i]]]) == points[..i + 1]
  {
    var piece := buffer + [points[i]];
    assert points[..i + 1] == points[..i] + [points[i]];
    if pieces != [] {
      StitchAppend(pieces, piece);
      assert DropFirst(piece) == buffer[1..] + [points[i]];
    } else {
      assert [piece][..0] == [];
    }
  }

  /** Appending a correctly closed list keeps every list correctly closed. */
  lemma ClosedAppend(points: seq<Point>, target: real, pieces: seq<seq<Point>>, piece: seq<Point>, isFinal: bool)
    requires |points| >= 1 && |piece| >= 1
    requires forall k :: 0 <= k < |pieces| ==> |pieces[k]| >= 1
    requires forall k :: 0 <= k < |pieces| ==>
               ClosedCorrectly(pieces[k], SegmentStart(k, pieces[k], points, target), target, false)
    requires ClosedCorrectly(piece, SegmentStart(|pieces|, piece, points, target), target, isFinal)
    ensures forall k :: 0 <= k < |pieces + [piece]| ==>
              ClosedCorrectly((pieces + [piece])[k], SegmentStart(k, (pieces + [piece])[k], points, target), target,
                              isFinal && k == |pieces|)
  {
    forall k | 0 <= k < |pieces + [piece]|
      ensures ClosedCorrectly((pieces + [piece])[k], SegmentStart(k, (pieces + [piece])[k], points, target), target,
                              isFinal && k == |pieces|)
    {
      if k < |pieces| {
        assert (pieces + [piece])[k] == pieces[k];
      }
    }
  }

  /** Closing a buffer of two or more points at point i into a new list. */
  lemma LoopClose(points: seq<Point>, target: real, i: int, pieces: seq<seq<Point>>, buffer: seq<Point>, start: real)
    requires LoopState(points, target, i, pieces, buffer, start) && i < |points|
    requires Reaches(points[i], start, target) || i == |points| - 1
    requires |buffer + [points[i]]| >= 2
    ensures LoopState(points, target, i + 1, pieces + [buffer + [points[i]]], [points[i]], points[i].distanceFromStart)
  {
    var piece := buffer + [points[i]];
    var pieces' := pieces + [piece];
    var n := |pieces|;
    assert pieces'[n] == piece && pieces'[..n] == pieces;
    StitchClose(points, i, pieces, buffer);
    assert start == SegmentStart(n, piece, points, target);
    assert ClosedCorrectly(piece, start, target, i + 1 == |points|);
    ClosedAppend(points, target, pieces, piece, i + 1 == |points|);
    assert pieces'[0][0] == points[0];
  }

  /** The very first point already meets the target: a one-point buffer is dropped and reopened. */
  lemma LoopDropShort(points: seq<Point>, target: real, i: int, pieces: seq<seq<Point>>, buffer: seq<Point>, start: real)
    requires LoopState(points, target, i, pieces, buffer, start) && i < |points|
    requires Reaches(points[i], start, target) || i == |points| - 1
    requires |buffer + [points[i]]| < 2
    ensures LoopState(points, target, i + 1, pieces, [points[i]], points[i].distanceFromStart)
  {
    assert points[..1] == [points[0]];
  }

  /** When the loop has seen every point, the closed lists split the trail. */
  lemma LoopDone(points: seq<Point>, target: real, pieces: seq<seq<Point>>, buffer: seq<Point>, start: real)
    requires LoopState(points, target, |points|, pieces, buffer, start)
    ensures IsSplit(pieces, points, target)
  {
    assert points[..|points|] == points;
    assert buffer[1..] == [];
  }

  /**
   * One pass of the `create_segments` loop, at point i: append the point to
   * the buffer; once the distance since the segment's start reaches the
   * target (in km) or the point is the trail's last, a buffer of two or more
   * points becomes the next segment, and the point opens the next buffer.
   */
  method SegmentStep(points: seq<Point>, segmentLength: real, i: int,
                     segments: seq<Segments.TrailSegment>, segmentPoints: seq<Point>, segmentId: int,
                     segmentStartDistance: real, ghost pieces: seq<seq<Point>>)
    returns (segments': seq<Segments.TrailSegment>, segmentPoints': seq<Point>, segmentId': int,
             segmentStartDistance': real, ghost pieces': seq<seq<Point>>)
    requires 0 <= i < |points|
    requires Numbered(segments) && segmentId == |segments| && Pieces(segments) == pieces
    requires LoopState(points, segmentLength, i, pieces, segmentPoints, segmentStartDistance)
    ensures Numbered(segments') && segmentId' == |segments'| && Pieces(segments') == pieces'
    ensures LoopState(points, segmentLength, i + 1, pieces', segmentPoints', segmentStartDistance')
  {
    var point := points[i];
    segments', segmentPoints', segmentId', segmentStartDistance', pieces' :=
      segments, segmentPoints + [point], segmentId, segmentStartDistance, pieces;
    var currentSegmentLength := (point.distanceFromStart - segmentStartDistance) / 1000.0;
    var isLastPoint := i == |points| - 1;
    if currentSegmentLength >= segmentLength || isLastPoint {
      if |segmentPoints'| >= 2 {
        LoopClose(points, segmentLength, i, pieces, segmentPoints, segmentStartDistance);
        segments' := AppendSegment(segments, segmentPoints', segmentId);
        segmentId' := segmentId + 1;
        pieces' := pieces + [segmentPoints'];
      } else {
        LoopDropShort(points, segmentLength, i, pieces, segmentPoints, segmentStartDistance);
      }
      segmentStartDistance' := point.distanceFromStart;
      segmentPoints' := [point];
    } else {
      LoopExtend(points, segmentLength, i, pieces, segmentPoints, segmentStartDistance);
    }
  }

  /** `create_segments`: the loop of SegmentStep over every point, numbering segments from 0. */
  method CreateSegments(points: seq<Point>, segmentLength: real) returns (segments: seq<Segments.TrailSegment>)
    ensures IsSegmentation(segments, points, segmentLength)
  {
    if |points| < 2 {
      return [];
    }
    segments := [];
    var segmentPoints: seq<Point> := [];
    var segmentId := 0;
    var segmentStartDistance := 0.0;
    ghost var pieces: seq<seq<Point>> := [];
    for i := 0 to |points|
      invariant Numbered(segments) && segmentId == |segments| && Pieces(segments) == pieces
      invariant LoopState(points, segmentLength, i, pieces, segmentPoints, segmentStartDistance)
    {
      segments, segmentPoints, segmentId, segmentStartDistance, pieces :=
        SegmentStep(points, segmentLength, i, segments, segmentPoints, segmentId, segmentStartDistance, pieces);
    }
    LoopDone(points, segmentLength, pieces, segmentPoints, segmentStartDistance);
  }

  lemma {:induction false} StitchLength(pieces: seq<seq<Point>>)
    requires forall k :: 0 <= k < |pieces| ==> |pieces[k]| >= 2
    ensures |pieces| > 0 ==> |Stitch(pieces)| >= |pieces| + 1
  {
    if |pieces| > 1 {
      StitchLength(pieces[..|pieces| - 1]);
    }
  }

  /** A trail of n >= 2 points has between 1 and n - 1 segments. */
  lemma SegmentCountBound(pieces: seq<seq<Point>>, points: seq<Point>, target: real)
    requires IsSplit(pieces, points, target) && |points| >= 2
    ensures 1 <= |pieces| <= |points| - 1
  {
    StitchLength(pieces);
  }

  /** A two-point trail is one segment holding both points. */
  lemma TwoPointTrailIsOneSegment(pieces: seq<seq<Point>>, points: seq<Point>, target: real)
    requires IsSplit(pieces, points, target) && |points| == 2
    ensures pieces == [points]
  {
    SegmentCountBound(pieces, points, target);
  }

  // ---------------------------------------------------------------------------
  // The trail object and its analysis summary
  // ---------------------------------------------------------------------------

  /** The dictionary `analyze_trail` returns. */
  datatype TrailAnalysis = TrailAnalysis(
    trailName: string,
    length: real,
    elevationGain: real,
    elevationLoss: real,
    elevationRange: (real, real),
    avgSlope: real,
    maxSlope: real,
    segmentCount: nat,
    difficultyRatings: DifficultyRatings)

  /**
   * Everything the whole-trail metrics promise for a walked trail: length,
   * gain, loss, variance metric, average and maximum slope are non-negative,
   * gain minus loss is the net elevation change, and the minimum elevation
   * does not exceed the maximum.
   */
  lemma TrailMetricsSound(points: seq<Point>, positions: seq<Position>, math: MathOps)
    requires IsWalk(points, positions, math.haversine) && math.Sound()
    ensures TrailLength(points) >= 0.0
    ensures Gain(points) >= 0.0 && Loss(points) >= 0.0
    ensures |points| >= 1 ==> Gain(points) - Loss(points) == Last(points).elevation - points[0].elevation
    ensures MinElevation(points) <= MaxElevation(points)
    ensures ElevationVariance(points, math) >= 0.0
    ensures TrailAvgSlope(TrailLength(points), Gain(points), |points|) >= 0.0
    ensures TrailMaxSlope(points) >= 0.0
  {
    WalkDistancesNonDecreasing(points, positions, math);
    if |points| >= 1 {
      GainLossTelescope(points);
    }
  }

  /** The target segment length, in km, that `__init__` uses when the caller gives none. */
  const DefaultSegmentLength: real := 0.5

  class Trail {
    const name: string
    const segmentLength: real
    const points: seq<Point>
    const length: real
    const elevationGain: real
    const elevationLoss: real
    const maxElevation: real
    const minElevation: real
    const elevationVariance: real
    const avgSlope: real
    const maxSlope: real
    const segments: seq<Segments.TrailSegment>

    /**
     * The points are the walk of the given positions, every metric attribute
     * holds its definition's value for those points, and the segments split
     * them at the target segment length.
     */
    ghost predicate Valid(positions: seq<Position>, math: MathOps)
    {
      && IsWalk(points, positions, math.haversine)
      && length == TrailLength(points)
      && elevationGain == Gain(points) && elevationLoss == Loss(points)
      && maxElevation == MaxElevation(points) && minElevation == MinElevation(points)
      && elevationVariance == ElevationVariance(points, math)
      && avgSlope == TrailAvgSlope(length, elevationGain, |points|)
      && maxSlope == TrailMaxSlope(points)
      && IsSegmentation(segments, points, segmentLength)
    }

    /**
     * `__init__` from already-parsed features: walk the points, then fill the
     * metrics in the source's order, then segment the trail. The name (taken
     * from the file name in the source) and the host's haversine and square
     * root are parameters; a caller that keeps the source's default passes
     * DefaultSegmentLength as segmentLength.
     */
    constructor (name: string, features: seq<Feature>, segmentLength: real, math: MathOps)
      ensures this.name == name && this.segmentLength == segmentLength
      ensures Valid(Positions(features), math)
    {
      var pts := ExtractPoints(features, math.haversine);
      var len := TrailLength(pts);
      var gain, loss := CalculateElevationUpDown(pts);
      var top := MaxElevation(pts);
      var bottom := MinElevation(pts);
      var variance := ElevationVariance(pts, math);
      var avg := TrailAvgSlope(len, gain, |pts|);
      var steepest := CalculateMaxSlope(pts);
      var segs := CreateSegments(pts, segmentLength);
      this.name := name;
      this.segmentLength := segmentLength;
      this.points := pts;
      this.length := len;
      this.elevationGain := gain;
      this.elevationLoss := loss;
      this.maxElevation := top;
      this.minElevation := bottom;
      this.elevationVariance := variance;
      this.avgSlope := avg;
      this.maxSlope := steepest;
      this.segments := segs;
    }

    /** The attributes the analyzer reads. */
    function Metrics(): TrailMetrics
    {
      TrailMetrics(length, elevationGain, avgSlope, elevationVariance, maxSlope)
    }

    /** `analyze_trail`: the stored metrics, the segment count and the five ratings. */
    function AnalyzeTrail(): (r: TrailAnalysis)
      ensures r.trailName == name && r.length == length
      ensures r.elevationGain == elevationGain && r.elevationLoss == elevationLoss
      ensures r.elevationRange == (minElevation, maxElevation)
      ensures r.avgSlope == avgSlope && r.maxSlope == maxSlope
      ensures r.segmentCount == |segments|
      ensures r.difficultyRatings == Ratings(Metrics())
      ensures 1 <= r.difficultyRatings.overallDifficulty <= 10
      ensures r.difficultyRatings.accessibility.None? && r.difficultyRatings.weatherVulnerability.None?
    {
      TrailAnalysis(
        name, length, elevationGain, elevationLoss,
        (minElevation, maxElevation), avgSlope, maxSlope,
        |segments|, Ratings(Metrics()))
    }
  }

  /**
   * What the analysis summary of a trail built from well-behaved haversine
   * and square root guarantees: non-negative length, gain, loss and slopes,
   * gain minus loss equal to the net climb from first to last point, an
   * ordered elevation range, and between 1 and n - 1 segments for n >= 2
   * points (none otherwise).
   */
  lemma AnalysisSound(t: Trail, positions: seq<Position>, math: MathOps)
    requires t.Valid(positions, math) && math.Sound()
    ensures var r := t.AnalyzeTrail();
      && r.length >= 0.0 && r.elevationGain >= 0.0 && r.elevationLoss >= 0.0
      && r.elevationRange.0 <= r.elevationRange.1
      && r.avgSlope >= 0.0 && r.maxSlope >= 0.0
      && (|t.points| >= 1 ==> r.elevationGain - r.elevationLoss == Last(t.points).elevation - t.points[0].elevation)
      && (|t.points| >= 2 ==> 1 <= r.segmentCount <= |t.points| - 1)
      && (|t.points| < 2 ==> r.segmentCount == 0)
  {
    TrailMetricsSound(t.points, positions, math);
    if |t.points| >= 2 {
      SegmentCountBound(Pieces(t.segments), t.points, t.segmentLength);
    }
  }
}
