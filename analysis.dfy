/**
 * Difficulty scoring (core/analysis.py, class TrailAnalyzer): pure functions
 * from the whole-trail metrics to integer ratings on a 1-10 scale.
 */
module Analysis {
  import opened Numerics

  /** The whole-trail metrics the analyzer reads from a trail. */
  datatype TrailMetrics = TrailMetrics(
    length: real,             // km
    elevationGain: real,      // m
    avgSlope: real,           // percent
    elevationVariance: real,  // variance, or standard deviation above 80
    maxSlope: real)           // percent

  /** The five ratings; accessibility and weather vulnerability are not computed. */
  datatype DifficultyRatings = DifficultyRatings(
    cardioIntensity: int,
    technicalDifficulty: int,
    accessibility: Option<int>,
    weatherVulnerability: Option<int>,
    overallDifficulty: int)

  const GainCap: real := 1500.0
  const LengthCap: real := 20.0
  const AvgSlopeCap: real := 15.0
  const CardioVarianceCap: real := 100.0
  const MaxSlopeCap: real := 67.0
  const TechnicalVarianceCap: real := 200.0

  /** `min(1.0, x / cap)`: a linear factor that saturates at the cap. */
  function Factor(x: real, cap: real): (f: real)
    requires cap > 0.0
    ensures f <= 1.0
    ensures x >= cap ==> f == 1.0
    ensures x <= cap ==> f * cap == x
    ensures x >= 0.0 ==> f >= 0.0
  {
    Min(1.0, x / cap)
  }

  /** `max(1, min(10, round(score * 9) + 1))`: a combined score onto the 1-10 scale. */
  function ToScale(score: real): (r: int)
    ensures 1 <= r <= 10
    ensures 0.0 <= score <= 1.0 ==> r == Round(score * 9.0) + 1
  {
    MaxInt(1, MinInt(10, Round(score * 9.0) + 1))
  }

  /** The weighted cardio score before scaling. */
  function CardioScore(m: TrailMetrics): (score: real)
    ensures m.elevationGain >= 0.0 && m.length >= 0.0 && m.avgSlope >= 0.0 && m.elevationVariance >= 0.0
            ==> 0.0 <= score <= 1.0
  {
    Factor(m.elevationGain, GainCap) * 0.4
    + Factor(m.length, LengthCap) * 0.3
    + Factor(m.avgSlope, AvgSlopeCap) * 0.2
    + Factor(m.elevationVariance, CardioVarianceCap) * 0.1
  }

  /** `calculate_cardio_intensity`. */
  function CardioIntensity(m: TrailMetrics): (r: int)
    ensures 1 <= r <= 10
  {
    ToScale(CardioScore(m))
  }

  /** The weighted technical score before scaling. */
  function TechnicalScore(m: TrailMetrics): (score: real)
    ensures m.maxSlope >= 0.0 && m.elevationVariance >= 0.0 ==> 0.0 <= score <= 1.0
  {
    Factor(m.maxSlope, MaxSlopeCap) * 0.6 + Factor(m.elevationVariance, TechnicalVarianceCap) * 0.4
  }

  /** `calculate_technical_difficulty`. */
  function TechnicalDifficulty(m: TrailMetrics): (r: int)
    ensures 1 <= r <= 10
  {
    ToScale(TechnicalScore(m))
  }

  /** `calculate_accessibility`: a placeholder that computes nothing. */
  function Accessibility(m: TrailMetrics): (r: Option<int>)
    ensures r.None?
  {
    None
  }

  /** `calculate_weather_vulnerability`: a placeholder that computes nothing. */
  function WeatherVulnerability(m: TrailMetrics): (r: Option<int>)
    ensures r.None?
  {
    None
  }

  /**
   * The overall formula on the two computed ratings:
   * `max(1, min(10, round(cardio * 0.6 + technical * 0.4)))`.
   */
  function CombineOverall(cardio: int, technical: int): (r: int)
    ensures 1 <= r <= 10
    ensures 1 <= cardio <= 10 && 1 <= technical <= 10 ==>
              MinInt(cardio, technical) <= r <= MaxInt(cardio, technical)
    ensures 1 <= cardio <= 10 && 1 <= technical <= 10 ==>
              Abs(r as real - (cardio as real * 0.6 + technical as real * 0.4)) <= 0.5
  {
    MaxInt(1, MinInt(10, Round(cardio as real * 0.6 + technical as real * 0.4)))
  }

  /**
   * `calculate_overall_difficulty`: only cardio and technical enter the sum;
   * the accessibility and weather terms are commented out in the source.
   */
  function OverallDifficulty(m: TrailMetrics): (r: int)
    ensures 1 <= r <= 10
    ensures MinInt(CardioIntensity(m), TechnicalDifficulty(m)) <= r <= MaxInt(CardioIntensity(m), TechnicalDifficulty(m))
  {
    CombineOverall(CardioIntensity(m), TechnicalDifficulty(m))
  }

  /** All five ratings of one trail. */
  function Ratings(m: TrailMetrics): (d: DifficultyRatings)
    ensures 1 <= d.cardioIntensity <= 10 && 1 <= d.technicalDifficulty <= 10 && 1 <= d.overallDifficulty <= 10
    ensures d.accessibility.None? && d.weatherVulnerability.None?
  {
    DifficultyRatings(
      CardioIntensity(m), TechnicalDifficulty(m),
      Accessibility(m), WeatherVulnerability(m),
      OverallDifficulty(m))
  }

  /** Metrics that are no larger, component by component. */
  predicate Dominated(m: TrailMetrics, m': TrailMetrics)
  {
    && m.length <= m'.length
    && m.elevationGain <= m'.elevationGain
    && m.avgSlope <= m'.avgSlope
    && m.elevationVariance <= m'.elevationVariance
    && m.maxSlope <= m'.maxSlope
  }

  lemma FactorMonotone(x: real, y: real, cap: real)
    requires cap > 0.0 && x <= y
    ensures Factor(x, cap) <= Factor(y, cap)
  {
    assert x / cap <= y / cap;
  }

  lemma ToScaleMonotone(s: real, t: real)
    requires s <= t
    ensures ToScale(s) <= ToScale(t)
  {
    RoundMonotone(s * 9.0, t * 9.0);
  }

  lemma CardioMonotone(m: TrailMetrics, m': TrailMetrics)
    requires Dominated(m, m')
    ensures CardioIntensity(m) <= CardioIntensity(m')
  {
    FactorMonotone(m.elevationGain, m'.elevationGain, GainCap);
    FactorMonotone(m.length, m'.length, LengthCap);
    FactorMonotone(m.avgSlope, m'.avgSlope, AvgSlopeCap);
    FactorMonotone(m.elevationVariance, m'.elevationVariance, CardioVarianceCap);
    ToScaleMonotone(CardioScore(m), CardioScore(m'));
  }

  lemma TechnicalMonotone(m: TrailMetrics, m': TrailMetrics)
    requires Dominated(m, m')
    ensures TechnicalDifficulty(m) <= TechnicalDifficulty(m')
  {
    FactorMonotone(m.maxSlope, m'.maxSlope, MaxSlopeCap);
    FactorMonotone(m.elevationVariance, m'.elevationVariance, TechnicalVarianceCap);
    ToScaleMonotone(TechnicalScore(m), TechnicalScore(m'));
  }

  lemma CombineOverallMonotone(c: int, t: int, c': int, t': int)
    requires c <= c' && t <= t'
    ensures CombineOverall(c, t) <= CombineOverall(c', t')
  {
    RoundMonotone(c as real * 0.6 + t as real * 0.4, c' as real * 0.6 + t' as real * 0.4);
  }

  /** A trail that is longer, climbs more, is steeper or rougher never scores easier. */
  lemma RatingsMonotone(m: TrailMetrics, m': TrailMetrics)
    requires Dominated(m, m')
    ensures CardioIntensity(m) <= CardioIntensity(m')
    ensures TechnicalDifficulty(m) <= TechnicalDifficulty(m')
    ensures OverallDifficulty(m) <= OverallDifficulty(m')
  {
    CardioMonotone(m, m');
    TechnicalMonotone(m, m');
    CombineOverallMonotone(CardioIntensity(m), TechnicalDifficulty(m), CardioIntensity(m'), TechnicalDifficulty(m'));
  }

  /** Two inputs that agree or both lie at or beyond their cap give the same factor. */
  predicate SameUpToCap(x: real, y: real, cap: real)
  {
    x == y || (x >= cap && y >= cap)
  }

  /**
   * Raising a cardio input beyond its own cap leaves the cardio rating
   * unchanged: 1500 m gain, 20 km, 15 % average slope and 100 variance.
   */
  lemma CardioSaturate(m: TrailMetrics, m': TrailMetrics)
    requires SameUpToCap(m.elevationGain, m'.elevationGain, GainCap)
    requires SameUpToCap(m.length, m'.length, LengthCap)
    requires SameUpToCap(m.avgSlope, m'.avgSlope, AvgSlopeCap)
    requires SameUpToCap(m.elevationVariance, m'.elevationVariance, CardioVarianceCap)
    ensures CardioIntensity(m) == CardioIntensity(m')
  {
    assert CardioScore(m) == CardioScore(m');
  }

  /**
   * Raising a technical input beyond its own cap leaves the technical rating
   * unchanged: 67 % maximum slope and 200 variance.
   */
  lemma TechnicalSaturate(m: TrailMetrics, m': TrailMetrics)
    requires SameUpToCap(m.maxSlope, m'.maxSlope, MaxSlopeCap)
    requires SameUpToCap(m.elevationVariance, m'.elevationVariance, TechnicalVarianceCap)
    ensures TechnicalDifficulty(m) == TechnicalDifficulty(m')
  {
    assert TechnicalScore(m) == TechnicalScore(m');
  }

  /**
   * Raising inputs beyond their caps leaves all the ratings unchanged. The
   * variance feeds both scores, so here it must agree or lie at or beyond the
   * larger, technical cap of 200; the caps of gain (1500 m), length (20 km),
   * average slope (15 %) and maximum slope (67 %) are as in the two lemmas above.
   */
  lemma RatingsSaturate(m: TrailMetrics, m': TrailMetrics)
    requires SameUpToCap(m.elevationGain, m'.elevationGain, GainCap)
    requires SameUpToCap(m.length, m'.length, LengthCap)
    requires SameUpToCap(m.avgSlope, m'.avgSlope, AvgSlopeCap)
    requires SameUpToCap(m.maxSlope, m'.maxSlope, MaxSlopeCap)
    requires SameUpToCap(m.elevationVariance, m'.elevationVariance, TechnicalVarianceCap)
    ensures Ratings(m) == Ratings(m')
  {
    CardioSaturate(m, m');
    TechnicalSaturate(m, m');
  }

  /** The weights of the cardio score (0.4, 0.3, 0.2, 0.1) sum to 1: all inputs at their cap rate 10. */
  lemma CardioAtCapsIsTen(m: TrailMetrics)
    requires m.elevationGain >= GainCap && m.length >= LengthCap
    requires m.avgSlope >= AvgSlopeCap && m.elevationVariance >= CardioVarianceCap
    ensures CardioIntensity(m) == 10
  {
    assert CardioScore(m) == 1.0;
  }
}
