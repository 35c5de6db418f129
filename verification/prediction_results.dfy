/**
 * The disaster risk dashboard: the 0..100 overall risk score, its colour,
 * and the status of the weather and hazard metric cards.
 */
module PredictionResults {
  import opened Wrappers
  import opened Indicators

  datatype CurrentWeather = CurrentWeather(
    temperature: real, humidity: real, windSpeed: real, pressure: real, precipitation: real)

  /** The part of the backend's `DisasterData` that the page's decisions read. */
  datatype DisasterData = DisasterData(
    city: string, floodRiskLevel: string, wildfireRiskLevel: string, currentWeather: CurrentWeather)

  /** What a flood or wildfire risk level adds to the score; matching is exact and case-sensitive. */
  function HazardPoints(level: string): (points: nat)
    ensures points == 70 <==> level == "high"
    ensures points == 40 <==> level == "medium"
    ensures points == 0 <==> level != "high" && level != "medium"
  {
    if level == "high" then 70 else if level == "medium" then 40 else 0
  }

  /** What the current weather adds to the score. */
  function WeatherPoints(w: CurrentWeather): (points: nat)
    ensures points <= 75
    ensures w.temperature > 35.0 && w.windSpeed > 15.0 && w.precipitation > 10.0 ==> points == 75
    ensures w.temperature <= 35.0 && w.windSpeed <= 15.0 && w.precipitation <= 10.0 ==> points == 0
  {
    (if w.temperature > 35.0 then 30 else 0)
    + (if w.windSpeed > 15.0 then 20 else 0)
    + (if w.precipitation > 10.0 then 25 else 0)
  }

  /** A temperature above 35 adds 30 points, whatever the other readings. */
  lemma TemperatureWeight(w: CurrentWeather, t: real)
    requires w.temperature <= 35.0 < t
    ensures WeatherPoints(w.(temperature := t)) == WeatherPoints(w) + 30
  {
  }

  /** A wind speed above 15 adds 20 points, whatever the other readings. */
  lemma WindWeight(w: CurrentWeather, v: real)
    requires w.windSpeed <= 15.0 < v
    ensures WeatherPoints(w.(windSpeed := v)) == WeatherPoints(w) + 20
  {
  }

  /** Precipitation above 10 adds 25 points, whatever the other readings. */
  lemma PrecipitationWeight(w: CurrentWeather, p: real)
    requires w.precipitation <= 10.0 < p
    ensures WeatherPoints(w.(precipitation := p)) == WeatherPoints(w) + 25
  {
  }

  /** The overall risk score the dashboard shows, capped at 100. */
  function RiskScore(data: Option<DisasterData>): (score: nat)
    ensures score <= 100
    ensures data.None? ==> score == 0
    ensures data.Some? ==>
      var sum := HazardPoints(data.value.floodRiskLevel) + HazardPoints(data.value.wildfireRiskLevel)
        + WeatherPoints(data.value.currentWeather);
      (score == 100 <==> sum >= 100) && (sum < 100 ==> score == sum)
  {
    match data
    case None => 0
    case Some(d) =>
      var raw := HazardPoints(d.floodRiskLevel) + HazardPoints(d.wildfireRiskLevel) + WeatherPoints(d.currentWeather);
      if raw < 100 then raw else 100
  }

  /** `getRiskScore`: the score is accumulated step by step, then capped. */
  method GetRiskScore(disasterData: Option<DisasterData>) returns (result: int)
    ensures result == RiskScore(disasterData)
    ensures 0 <= result <= 100
  {
    if disasterData.None? {
      return 0;
    }
    var d := disasterData.value;
    var score := 0;
    if d.floodRiskLevel == "high" {
      score := score + 70;
    } else if d.floodRiskLevel == "medium" {
      score := score + 40;
    }
    if d.wildfireRiskLevel == "high" {
      score := score + 70;
    } else if d.wildfireRiskLevel == "medium" {
      score := score + 40;
    }
    if d.currentWeather.temperature > 35.0 {
      score := score + 30;
    }
    if d.currentWeather.windSpeed > 15.0 {
      score := score + 20;
    }
    if d.currentWeather.precipitation > 10.0 {
      score := score + 25;
    }
    result := if score < 100 then score else 100;
  }

  /** The order other < medium < high of a hazard level, as the score sees it. */
  function HazardRank(level: string): nat
  {
    if level == "high" then 2 else if level == "medium" then 1 else 0
  }

  /** Raising a hazard level or a weather reading never lowers the score. */
  lemma RiskScoreMonotone(d1: DisasterData, d2: DisasterData)
    requires HazardRank(d1.floodRiskLevel) <= HazardRank(d2.floodRiskLevel)
    requires HazardRank(d1.wildfireRiskLevel) <= HazardRank(d2.wildfireRiskLevel)
    requires d1.currentWeather.temperature <= d2.currentWeather.temperature
    requires d1.currentWeather.windSpeed <= d2.currentWeather.windSpeed
    requires d1.currentWeather.precipitation <= d2.currentWeather.precipitation
    ensures RiskScore(Some(d1)) <= RiskScore(Some(d2))
  {
  }

  /**
   * A level spelled "High" is shown as high risk by RiskIndicator, which
   * lower-cases first, yet adds nothing to the score, which does not.
   */
  lemma CapitalisedLevelScoresNothing(d: DisasterData)
    requires d.floodRiskLevel == "High"
    ensures RiskIndicator(d.floodRiskLevel).caption == "High Risk"
    ensures HazardPoints(d.floodRiskLevel) == 0
    ensures RiskScore(Some(d)) == HazardPoints(d.wildfireRiskLevel) + WeatherPoints(d.currentWeather)
      || RiskScore(Some(d)) == 100
  {
    assert ToLower(d.floodRiskLevel) == "high";
  }

  /** Two hazards at high or medium already saturate the score. */
  lemma TwoHazardsSaturate(d: DisasterData)
    requires HazardRank(d.floodRiskLevel) >= 1 && HazardRank(d.wildfireRiskLevel) >= 1
    requires HazardRank(d.floodRiskLevel) + HazardRank(d.wildfireRiskLevel) >= 3
    ensures RiskScore(Some(d)) == 100
  {
  }

  /** The colour of the overall score. */
  function ScoreColor(score: int): (color: string)
    ensures color == "text-red-400" <==> score > 70
    ensures color == "text-yellow-400" <==> 40 < score <= 70
    ensures color == "text-emerald-400" <==> score <= 40
  {
    if score > 70 then "text-red-400" else if score > 40 then "text-yellow-400" else "text-emerald-400"
  }

  /** With no data loaded the score is 0 and shown in emerald. */
  lemma NoDataIsEmerald()
    ensures ScoreColor(RiskScore(None)) == "text-emerald-400"
  {
  }

  /** Wind card: critical above 20, warning above 15. */
  function WindStatus(speed: real): (s: Status)
    ensures s == Critical <==> speed > 20.0
    ensures s == Warning <==> 15.0 < speed <= 20.0
    ensures s == Normal <==> speed <= 15.0
  {
    StatusAbove(speed, 15.0, 20.0)
  }

  /** Precipitation card: critical above 10, warning above 5. */
  function PrecipitationStatus(mm: real): (s: Status)
    ensures s == Critical <==> mm > 10.0
    ensures s == Warning <==> 5.0 < mm <= 10.0
    ensures s == Normal <==> mm <= 5.0
  {
    StatusAbove(mm, 5.0, 10.0)
  }

  /** A weather card that adds to the score is at least at warning. */
  lemma ScoringWeatherIsFlagged(w: CurrentWeather)
    ensures w.temperature > 35.0 ==> HeatStatus(w.temperature) == Critical
    ensures w.windSpeed > 15.0 ==> Rank(WindStatus(w.windSpeed)) >= 1
    ensures w.precipitation > 10.0 ==> PrecipitationStatus(w.precipitation) == Critical
  {
  }

  /** Flood and fire cards: exact 'high' is critical, exact 'medium' a warning. */
  function HazardCardStatus(level: string): (s: Status)
    ensures s == Critical <==> level == "high"
    ensures s == Warning <==> level == "medium"
    ensures s == Normal <==> level != "high" && level != "medium"
  {
    if level == "high" then Critical else if level == "medium" then Warning else Normal
  }

  /** A hazard card's status and the hazard's share of the score rise together. */
  lemma HazardCardMatchesPoints(level: string)
    ensures Rank(HazardCardStatus(level)) == HazardRank(level)
    ensures HazardPoints(level) == [0, 40, 70][HazardRank(level)]
  {
  }

  /** The page's state cell: the last successful fetch, replaced wholesale. */
  class Dashboard {
    var disasterData: Option<DisasterData>

    constructor ()
      ensures disasterData == None
    {
      disasterData := None;
    }

    /** `fetchData`: a success replaces the data, a failure is only logged. */
    method FetchData(response: Result<DisasterData, string>)
      modifies this
      ensures response.Success? ==> disasterData == Some(response.value)
      ensures response.Failure? ==> disasterData == old(disasterData)
    {
      if response.Success? {
        disasterData := Some(response.value);
      }
    }

    /** The score the page shows for its current state. */
    method Score() returns (score: int)
      ensures score == RiskScore(disasterData)
      ensures disasterData.None? ==> score == 0
    {
      score := GetRiskScore(disasterData);
    }
  }
}
