/**
 * A trail segment with its own metrics (core/segment.py). Every attribute of
 * a `TrailSegment` is set once by its constructor and never changed, so the
 * fields are `const`.
 */
module Segments {
  import opened Numerics
  import opened Points
  import opened Profiles

  /**
   * Segment length in km: the cumulative, trail-absolute distance of the
   * segment's last point (not the span from the segment's own first point).
   */
  function SegmentLength(points: seq<Point>): (km: real)
    ensures |points| <= 1 ==> km == 0.0
    ensures |points| >= 2 ==> km * 1000.0 == Last(points).distanceFromStart
  {
    if |points| <= 1 then 0.0 else Last(points).distanceFromStart / 1000.0
  }

  /**
   * A segment from 1000 m to 1500 m along the trail is reported as 1.5 km
   * long, not as its 0.5 km span.
   */
  lemma SegmentLengthIsTrailAbsolute()
    ensures SegmentLength([Point(0.0, 0.0, 0.0, 1000.0), Point(0.0, 0.0, 0.0, 1500.0)]) == 1.5
  {
  }

  /** Segment average slope in percent: gain over length (in metres), times 100. */
  function SegmentAvgSlope(lengthKm: real, gain: real): (pct: real)
    ensures lengthKm == 0.0 ==> pct == 0.0
    ensures lengthKm != 0.0 ==> pct * (lengthKm * 1000.0) == gain * 100.0
    ensures lengthKm > 0.0 && gain >= 0.0 ==> pct >= 0.0
  {
    if lengthKm == 0.0 then 0.0
    else
      var lengthM := lengthKm * 1000.0;
      (gain / lengthM) * 100.0
  }

  /** Slope of pair k as the segment code computes it: |rise| / run * 100. */
  function SegmentPairSlope(points: seq<Point>, k: int): real
    requires 1 <= k < |points| && Run(points, k) != 0.0
  {
    (Abs(Rise(points, k)) / Run(points, k)) * 100.0
  }

  /**
   * The largest pair slope among the first n points, skipping only pairs with
   * zero run: no noise floor here.
   */
  function SegmentMaxSlopeOf(points: seq<Point>, n: nat): (m: real)
    requires n <= |points|
    ensures m >= 0.0
    ensures forall k :: 1 <= k < n && Run(points, k) != 0.0 ==> SegmentPairSlope(points, k) <= m
    ensures m == 0.0 || exists k :: 1 <= k < n && Run(points, k) != 0.0 && m == SegmentPairSlope(points, k)
  {
    if n <= 1 then 0.0
    else
      var m := SegmentMaxSlopeOf(points, n - 1);
      if Run(points, n - 1) == 0.0 then m else Max(m, SegmentPairSlope(points, n - 1))
  }

  function SegmentMaxSlope(points: seq<Point>): real
  {
    SegmentMaxSlopeOf(points, |points|)
  }

  /** `_calculate_elevation_gain`: sum of the positive consecutive elevation changes. */
  method CalculateElevationGain(points: seq<Point>) returns (gain: real)
    ensures gain == Gain(points)
  {
    if |points| <= 1 {
      return 0.0;
    }
    gain := 0.0;
    for i := 1 to |points|
      invariant gain == GainOf(points, i)
    {
      var elevDiff := points[i].elevation - points[i - 1].elevation;
      if elevDiff > 0.0 {
        gain := gain + elevDiff;
      }
    }
  }

  /** `_calculate_elevation_loss`: sum of the drops between consecutive points. */
  method CalculateElevationLoss(points: seq<Point>) returns (loss: real)
    ensures loss == Loss(points)
  {
    if |points| <= 1 {
      return 0.0;
    }
    loss := 0.0;
    for i := 1 to |points|
      invariant loss == LossOf(points, i)
    {
      var elevDiff := points[i - 1].elevation - points[i].elevation;
      if elevDiff > 0.0 {
        loss := loss + elevDiff;
      }
    }
  }

  /** `_calculate_max_slope`: the steepest consecutive pair, pairs with no run skipped. */
  method CalculateMaxSlope(points: seq<Point>) returns (maxSlope: real)
    ensures maxSlope == SegmentMaxSlope(points)
  {
    if |points| <= 1 {
      return 0.0;
    }
    maxSlope := 0.0;
    for i := 1 to |points|
      invariant maxSlope == SegmentMaxSlopeOf(points, i)
    {
      var p1 := points[i - 1];
      var p2 := points[i];
      var distance := p2.distanceFromStart - p1.distanceFromStart;
      if distance == 0.0 {
        continue;
      }
      var elevDiff := Abs(p2.elevation - p1.elevation);
      var slopePct := (elevDiff / distance) * 100.0;
      maxSlope := Max(maxSlope, slopePct);
    }
  }

  /** Coarse terrain label from the average slope. */
  function TerrainType(avgSlope: real): (terrain: string)
    ensures terrain == "steep" <==> avgSlope > 15.0
    ensures terrain == "moderate" <==> 8.0 < avgSlope <= 15.0
    ensures terrain == "flat" <==> avgSlope <= 8.0
  {
    if avgSlope > 15.0 then "steep"
    else if avgSlope > 8.0 then "moderate"
    else "flat"
  }

  /** The row `to_dict` hands to the persistence layer. */
  datatype SegmentRecord = SegmentRecord(
    segmentId: int,
    startLat: real, startLong: real,
    endLat: real, endLong: real,
    length: real,
    elevationGain: real, elevationLoss: real,
    avgSlope: real, maxSlope: real,
    terrainType: string)

  class TrailSegment {
    const segmentId: int
    const points: seq<Point>
    const startPoint: Point
    const endPoint: Point
    const length: real
    const elevationGain: real
    const elevationLoss: real
    const avgSlope: real
    const maxSlope: real

    /** Every attribute is the metric of `points` that `__init__` stores in it. */
    predicate Valid()
    {
      && |points| >= 1
      && startPoint == points[0]
      && endPoint == Last(points)
      && length == SegmentLength(points)
      && elevationGain == Gain(points)
      && elevationLoss == Loss(points)
      && avgSlope == SegmentAvgSlope(length, elevationGain)
      && maxSlope == SegmentMaxSlope(points)
    }

    /** `__init__`: needs at least one point (it reads `points[0]`). */
    constructor (points: seq<Point>, segmentId: int)
      requires |points| >= 1
      ensures Valid()
      ensures this.points == points && this.segmentId == segmentId
    {
      var length := SegmentLength(points);
      var gain := CalculateElevationGain(points);
      var loss := CalculateElevationLoss(points);
      var avg := SegmentAvgSlope(length, gain);
      var steepest := CalculateMaxSlope(points);
      this.segmentId := segmentId;
      this.points := points;
      this.startPoint := points[0];
      this.endPoint := points[|points| - 1];
      this.length := length;
      this.elevationGain := gain;
      this.elevationLoss := loss;
      this.avgSlope := avg;
      this.maxSlope := steepest;
    }

    /** `get_terrain_type`: the label of this segment's average slope. */
    function GetTerrainType(): (terrain: string)
    {
      TerrainType(avgSlope)
    }

    /** `to_dict`: the stored values, with the end points' coordinates spelled out. */
    function ToDict(): (r: SegmentRecord)
      requires Valid()
      ensures r.segmentId == segmentId
      ensures r.startLat == points[0].latitude && r.startLong == points[0].longitude
      ensures r.endLat == Last(points).latitude && r.endLong == Last(points).longitude
      ensures r.length == length && r.elevationGain == elevationGain && r.elevationLoss == elevationLoss
      ensures r.avgSlope == avgSlope && r.maxSlope == maxSlope
      ensures r.terrainType == TerrainType(avgSlope)
    {
      SegmentRecord(
        segmentId,
        startPoint.latitude, startPoint.longitude,
        endPoint.latitude, endPoint.longitude,
        length, elevationGain, elevationLoss, avgSlope, maxSlope,
        GetTerrainType())
    }
  }

  /**
   * What a constructed segment guarantees: non-negative gain, loss and maximum
   * slope, gain minus loss equal to the net elevation change from its start
   * point to its end point, and exactly one terrain label.
   */
  lemma ValidSegmentMetrics(s: TrailSegment)
    requires s.Valid()
    ensures s.elevationGain >= 0.0 && s.elevationLoss >= 0.0 && s.maxSlope >= 0.0
    ensures s.elevationGain - s.elevationLoss == s.endPoint.elevation - s.startPoint.elevation
    ensures s.GetTerrainType() in {"flat", "moderate", "steep"}
  {
    GainLossTelescope(s.points);
  }
}
