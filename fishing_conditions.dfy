/**
 * The four-factor fishing score of `FishingBot.calculate_fishing_conditions`:
 * temperature, pressure, wind and sky each give 0..3 points, the points add up
 * to a 0..12 score, and the score is mapped to a four-tier bite rating and to a
 * coarser gear rating.
 */
module FishingConditions {

  /** The hPa to mmHg factor the bot uses. */
  const MmHgPerHPa: real := 0.750062
  /** `max_score`: four factors of at most 3 points each. */
  const MaxScore: nat := 12

  /** The four labels used both for the bite rating and for the gear ratings. */
  datatype Tier = Poor | Average | Good | Excellent
  {
    function Rank(): (n: nat)
      ensures n <= 3
    {
      match this
      case Poor => 0
      case Average => 1
      case Good => 2
      case Excellent => 3
    }
  }

  /** The dictionary returned by `calculate_fishing_conditions`, without emoji and colour. */
  datatype Conditions = Conditions(
    rating: Tier,
    advice: string,
    spinning: Tier,
    fishingRod: Tier,
    score: nat,
    maxScore: nat,
    pressureMm: real)

  function Abs(x: real): real { if x < 0.0 then -x else x }

  /**
   * Reference definition shared by the temperature and the pressure bands:
   * 3 points within 5 of the optimum, 2 within 10, 1 within 15, otherwise 0.
   */
  function DistanceBand(d: real): (points: nat)
    requires d >= 0.0
    ensures points <= 3
  {
    if d <= 5.0 then 3 else if d <= 10.0 then 2 else if d <= 15.0 then 1 else 0
  }

  /** Temperature points (the temperature is already rounded to an int). */
  function TempScore(temp: int): (points: nat)
    ensures points <= 3
    ensures points == DistanceBand(Abs((temp - 20) as real))
  {
    if 15 <= temp <= 25 then 3
    else if (10 <= temp < 15) || (25 < temp <= 30) then 2
    else if (5 <= temp < 10) || (30 < temp <= 35) then 1
    else 0
  }

  /** Pressure in mmHg, unrounded; banding uses this value. */
  function ToMmHg(hPa: real): real { hPa * MmHgPerHPa }

  /** Pressure points, banded on the unrounded mmHg value. */
  function PressureScore(hPa: real): (points: nat)
    ensures points <= 3
    ensures points == DistanceBand(Abs(ToMmHg(hPa) - 745.0))
  {
    var mm := ToMmHg(hPa);
    if 740.0 <= mm <= 750.0 then 3
    else if (735.0 <= mm < 740.0) || (750.0 < mm <= 755.0) then 2
    else if (730.0 <= mm < 735.0) || (755.0 < mm <= 760.0) then 1
    else 0
  }

  /** Wind points. */
  function WindScore(windSpeed: real): (points: nat)
    ensures points <= 3
    ensures points == 3 <==> windSpeed < 3.0
    ensures points == 2 <==> 3.0 <= windSpeed < 6.0
    ensures points == 1 <==> 6.0 <= windSpeed < 10.0
    ensures points == 0 <==> windSpeed >= 10.0
  {
    if windSpeed < 3.0 then 3
    else if 3.0 <= windSpeed < 6.0 then 2
    else if 6.0 <= windSpeed < 10.0 then 1
    else 0
  }

  /** Sky points from the `weather_main` category; any unknown category scores 0. */
  function SkyScore(weatherMain: string): (points: nat)
    ensures points <= 3
    ensures points == 3 <==> weatherMain == "Clear"
    ensures points == 2 <==> weatherMain == "Clouds"
    ensures points == 1 <==> weatherMain == "Drizzle" || weatherMain == "Mist"
    ensures points > 0 <==> weatherMain in {"Clear", "Clouds", "Drizzle", "Mist"}
  {
    if weatherMain == "Clear" then 3
    else if weatherMain == "Clouds" then 2
    else if weatherMain == "Drizzle" || weatherMain == "Mist" then 1
    else 0
  }

  function TotalScore(temp: int, hPa: real, windSpeed: real, weatherMain: string): (score: nat)
    ensures score <= MaxScore
  {
    TempScore(temp) + PressureScore(hPa) + WindScore(windSpeed) + SkyScore(weatherMain)
  }

  /** The bite rating: thresholds 10 / 7 / 4. */
  function RatingTier(score: nat): (t: Tier)
    ensures t == Excellent <==> score >= 10
    ensures t == Good <==> 7 <= score < 10
    ensures t == Average <==> 4 <= score < 7
    ensures t == Poor <==> score < 4
  {
    if score >= 10 then Excellent
    else if score >= 7 then Good
    else if score >= 4 then Average
    else Poor
  }

  /** The gear rating (spinning and float rod alike): thresholds 8 / 5 / 3. */
  function GearTier(score: nat): (t: Tier)
    ensures t == Excellent <==> score >= 8
    ensures t == Good <==> 5 <= score < 8
    ensures t == Average <==> 3 <= score < 5
    ensures t == Poor <==> score < 3
  {
    if score >= 8 then Excellent
    else if score >= 5 then Good
    else if score >= 3 then Average
    else Poor
  }

  /** The advice printed with each bite rating; each rating has its own. */
  function Advice(rating: Tier): (a: string)
    ensures a == "Идеальный день для рыбалки!" <==> rating == Excellent
    ensures a == "Хорошие условия для ловли" <==> rating == Good
    ensures a == "Можно попробовать половить" <==> rating == Average
    ensures a == "Рыба может не клевать" <==> rating == Poor
  {
    match rating
    case Excellent => "Идеальный день для рыбалки!"
    case Good => "Хорошие условия для ловли"
    case Average => "Можно попробовать половить"
    case Poor => "Рыба может не клевать"
  }

  /** `calculate_fishing_conditions` on the four fields it reads. */
  function CalculateFishingConditions(temp: int, hPa: real, windSpeed: real, weatherMain: string): (c: Conditions)
    ensures c.score == TempScore(temp) + PressureScore(hPa) + WindScore(windSpeed) + SkyScore(weatherMain)
    ensures c.score <= c.maxScore == MaxScore
    ensures c.rating == RatingTier(c.score) && c.advice == Advice(c.rating)
    ensures c.spinning == c.fishingRod == GearTier(c.score)
    ensures c.pressureMm == hPa * 0.750062
    ensures c.score == 12 <==>
      TempScore(temp) == 3 && PressureScore(hPa) == 3 && WindScore(windSpeed) == 3 && SkyScore(weatherMain) == 3
  {
    var score := TotalScore(temp, hPa, windSpeed, weatherMain);
    var rating := RatingTier(score);
    Conditions(rating, Advice(rating), GearTier(score), GearTier(score), score, MaxScore, ToMmHg(hPa))
  }

  // ---------------------------------------------------------------------------
  // Properties of the bands and tiers

  /** The temperature band is symmetric about 20 degrees. */
  lemma TempScoreSymmetric(d: int)
    ensures TempScore(20 + d) == TempScore(20 - d)
  {
    assert Abs((20 + d - 20) as real) == Abs((20 - d - 20) as real);
  }

  /** Moving away from 20 degrees never raises the temperature score. */
  lemma TempScoreMonotoneInDistance(t1: int, t2: int)
    requires Abs((t1 - 20) as real) <= Abs((t2 - 20) as real)
    ensures TempScore(t1) >= TempScore(t2)
  {
    DistanceBandAntitone(Abs((t1 - 20) as real), Abs((t2 - 20) as real));
  }

  /** Moving away from 745 mmHg never raises the pressure score. */
  lemma PressureScoreMonotoneInDistance(p1: real, p2: real)
    requires Abs(ToMmHg(p1) - 745.0) <= Abs(ToMmHg(p2) - 745.0)
    ensures PressureScore(p1) >= PressureScore(p2)
  {
    DistanceBandAntitone(Abs(ToMmHg(p1) - 745.0), Abs(ToMmHg(p2) - 745.0));
  }

  lemma DistanceBandAntitone(d1: real, d2: real)
    requires 0.0 <= d1 <= d2
    ensures DistanceBand(d1) >= DistanceBand(d2)
  {
  }

  /** More wind never raises the wind score. */
  lemma WindScoreAntitone(w1: real, w2: real)
    requires w1 <= w2
    ensures WindScore(w1) >= WindScore(w2)
  {
  }

  /** A higher score never gives a lower rating, for the bite rating and for the gear. */
  lemma TiersMonotone(s1: nat, s2: nat)
    requires s1 <= s2
    ensures RatingTier(s1).Rank() <= RatingTier(s2).Rank()
    ensures GearTier(s1).Rank() <= GearTier(s2).Rank()
  {
  }

  /** The gear rating uses lower thresholds: it is the bite rating or one tier above it. */
  lemma GearAtLeastRating(score: nat)
    ensures RatingTier(score).Rank() <= GearTier(score).Rank() <= RatingTier(score).Rank() + 1
  {
  }

  /** Perfect conditions give the maximum score and the top rating. */
  lemma PerfectDay()
    ensures CalculateFishingConditions(20, 986.6, 1.0, "Clear").score == 12
    ensures CalculateFishingConditions(20, 986.6, 1.0, "Clear").rating == Excellent
  {
    assert ToMmHg(986.6) == 740.0111692;
  }

  /** Cold, high pressure, storm wind and a thunderstorm give nothing. */
  lemma WorstDay()
    ensures CalculateFishingConditions(0, 1050.0, 15.0, "Thunderstorm").score == 0
    ensures CalculateFishingConditions(0, 1050.0, 15.0, "Thunderstorm").rating == Poor
  {
    assert ToMmHg(1050.0) == 787.5651;
  }

  /**
   * Banding uses the unrounded pressure: 750.04 mmHg is in the 2-point band
   * although the displayed value rounds to 750.0, which is in the 3-point band.
   */
  lemma BandingUsesUnroundedPressure()
    ensures PressureScore(750.04 / MmHgPerHPa) == 2
    ensures PressureScore(750.0 / MmHgPerHPa) == 3
  {
    assert ToMmHg(750.04 / MmHgPerHPa) == 750.04;
    assert ToMmHg(750.0 / MmHgPerHPa) == 750.0;
  }
}
