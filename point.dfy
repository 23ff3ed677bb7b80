/** One sampled trail position (core/point.py). */
module Points {

  /**
   * A 3-D sample: latitude and longitude in degrees, elevation in metres, and
   * the cumulative along-trail distance in metres from the trail's first point.
   */
  datatype Point = Point(latitude: real, longitude: real, elevation: real, distanceFromStart: real)

  /** The last element of a non-empty point list (Python's `points[-1]`). */
  function Last(points: seq<Point>): Point
    requires |points| > 0
  {
    points[|points| - 1]
  }
}
