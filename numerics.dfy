/**
 * Arithmetic helpers shared by the trail engine: Python's `min`, `max`, `abs`
 * and `round` over reals, an Option type for "not computed" values, and the
 * two transcendental operations (great-circle distance and square root) that
 * the engine takes from the host platform.
 */
module Numerics {

  datatype Option<+T> = None | Some(value: T)

  function Min(a: real, b: real): real { if a <= b then a else b }
  function Max(a: real, b: real): real { if a >= b then a else b }
  function Abs(x: real): real { if x < 0.0 then -x else x }

  function MinInt(a: int, b: int): int { if a <= b then a else b }
  function MaxInt(a: int, b: int): int { if a >= b then a else b }

  /**
   * Python's built-in `round` on a float: the nearest integer, and on an
   * exact tie (a fractional part of one half) the even neighbour.
   */
  function Round(x: real): (r: int)
    ensures x - 0.5 <= r as real <= x + 0.5
    ensures (r as real - x == 0.5 || x - r as real == 0.5) ==> r % 2 == 0
  {
    var f := x.Floor;
    var frac := x - f as real;
    if frac < 0.5 then f
    else if frac > 0.5 then f + 1
    else if f % 2 == 0 then f
    else f + 1
  }

  /** Rounding never reverses the order of its arguments. */
  lemma RoundMonotone(x: real, y: real)
    requires x <= y
    ensures Round(x) <= Round(y)
  {
  }

  /**
   * The host's great-circle distance (`haversine_distance`, Earth radius
   * 6,371,000 m, arguments lat1, lon1, lat2, lon2 in degrees) and square root
   * (the one inside `statistics.stdev`). Both are transcendental, so the model
   * keeps them as function values and states the facts it relies on in Sound().
   */
  datatype MathOps = MathOps(haversine: (real, real, real, real) -> real, sqrt: real -> real)
  {
    /**
     * The haversine result is 2R * atan2(sqrt(a), sqrt(1 - a)) with both
     * atan2 arguments non-negative, hence never negative; identical
     * coordinates give dlat = dlon = 0, so a = 0 and the distance is 0.
     * A square root of a non-negative number is non-negative.
     */
    ghost predicate Sound()
    {
      && (forall lat1, lon1, lat2, lon2 :: haversine(lat1, lon1, lat2, lon2) >= 0.0)
      && (forall lat, lon :: haversine(lat, lon, lat, lon) == 0.0)
      && (forall x :: x >= 0.0 ==> sqrt(x) >= 0.0)
    }
  }
}
