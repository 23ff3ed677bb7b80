/**
 * The elevation profile of a point list: the sums of climbs and descents
 * between consecutive points. The whole trail (core/trail.py) and each
 * segment (core/segment.py) compute these with their own loops; both loops
 * are proved against the functions defined here.
 */
module Profiles {
  import opened Numerics
  import opened Points

  /** Elevation change from point k-1 to point k. */
  function Rise(points: seq<Point>, k: int): real
    requires 1 <= k < |points|
  {
    points[k].elevation - points[k - 1].elevation
  }

  /** Along-trail distance from point k-1 to point k. */
  function Run(points: seq<Point>, k: int): real
    requires 1 <= k < |points|
  {
    points[k].distanceFromStart - points[k - 1].distanceFromStart
  }

  /** Sum of the positive consecutive elevation changes among the first n points. */
  function GainOf(points: seq<Point>, n: nat): (gain: real)
    requires n <= |points|
    ensures gain >= 0.0
    ensures n <= 1 ==> gain == 0.0
  {
    if n <= 1 then 0.0 else GainOf(points, n - 1) + Max(0.0, Rise(points, n - 1))
  }

  /** Sum of the magnitudes of the negative consecutive changes among the first n points. */
  function LossOf(points: seq<Point>, n: nat): (loss: real)
    requires n <= |points|
    ensures loss >= 0.0
    ensures n <= 1 ==> loss == 0.0
  {
    if n <= 1 then 0.0 else LossOf(points, n - 1) + Max(0.0, -Rise(points, n - 1))
  }

  function Gain(points: seq<Point>): real { GainOf(points, |points|) }
  function Loss(points: seq<Point>): real { LossOf(points, |points|) }

  /**
   * Climbs minus descents telescope to the net elevation change between the
   * first and the n-th point.
   */
  lemma {:induction false} GainLossTelescopeUpTo(points: seq<Point>, n: nat)
    requires 1 <= n <= |points|
    ensures GainOf(points, n) - LossOf(points, n) == points[n - 1].elevation - points[0].elevation
  {
    if n > 1 {
      GainLossTelescopeUpTo(points, n - 1);
    }
  }

  /** Over a whole non-empty point list: gain - loss == last elevation - first elevation. */
  lemma GainLossTelescope(points: seq<Point>)
    requires |points| >= 1
    ensures Gain(points) - Loss(points) == Last(points).elevation - points[0].elevation
  {
    GainLossTelescopeUpTo(points, |points|);
  }
}
