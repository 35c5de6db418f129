/**
 * The flood result page: the Low/Medium/High label of a flood probability,
 * the prediction record shown when the page is opened without one, and the
 * status of its metric cards.
 */
module FloodResult {
  import opened Wrappers
  import opened Indicators

  /** The prediction record the page renders (`PredictionData`). */
  datatype PredictionData = PredictionData(
    floodPrediction: bool,
    floodProbability: real,
    rainfall24h: real,
    rainfall72h: real,
    temperature: real,
    latitude: real,
    longitude: real,
    soilType: string,
    reservoirLevel: real,
    riverLevel: real,
    previousFloodsSelection: string)

  datatype FloodRisk = Low | Medium | High {
    /** The string `getRiskLevel` returns. */
    function Name(): string
    {
      match this
      case Low => "Low"
      case Medium => "Medium"
      case High => "High"
    }
  }

  /** `getRiskLevel`: below 35 is Low, 35 to 70 inclusive is Medium, above 70 is High. */
  function GetRiskLevel(probability: real): (r: FloodRisk)
    ensures r == Low <==> probability < 35.0
    ensures r == Medium <==> 35.0 <= probability <= 70.0
    ensures r == High <==> probability > 70.0
  {
    if probability < 35.0 then Low
    else if probability >= 35.0 && probability <= 70.0 then Medium
    else High
  }

  function RiskRank(r: FloodRisk): nat
  {
    match r
    case Low => 0
    case Medium => 1
    case High => 2
  }

  /** A higher probability never gets a lower label. */
  lemma GetRiskLevelMonotone(p: real, q: real)
    requires p <= q
    ensures RiskRank(GetRiskLevel(p)) <= RiskRank(GetRiskLevel(q))
  {
  }

  /** The boundary values: 34.9 is Low, 35 and 70 are Medium, 70.1 is High. */
  lemma GetRiskLevelBoundaries()
    ensures GetRiskLevel(34.9) == Low
    ensures GetRiskLevel(35.0) == Medium && GetRiskLevel(70.0) == Medium
    ensures GetRiskLevel(70.1) == High
  {
  }

  /** RiskIndicator, given the label, shows the matching risk caption. */
  lemma RiskIndicatorShowsLevel(probability: real)
    ensures var caption := RiskIndicator(GetRiskLevel(probability).Name()).caption;
      && (caption == "Low Risk" <==> probability < 35.0)
      && (caption == "Medium Risk" <==> 35.0 <= probability <= 70.0)
      && (caption == "High Risk" <==> probability > 70.0)
  {
    var name := GetRiskLevel(probability).Name();
    assert ToLower("Low") == "low";
    assert ToLower("Medium") == "medium";
    assert ToLower("High") == "high";
  }

  /** The record shown when navigation carried no prediction. */
  const Fallback: PredictionData := PredictionData(
    false, 17.18, 12.5, 42.3, 28.5, 21.1498134, 79.0820556, "Clay Soil", 50.0, 45.0, "no")

  /** `location.state?.prediction || fallback`. */
  function PageData(prediction: Option<PredictionData>): (d: PredictionData)
    ensures prediction.Some? ==> d == prediction.value
    ensures prediction.None? ==> d == Fallback
  {
    prediction.GetOr(Fallback)
  }

  /** Without navigation state the page shows a low, not predicted, flood risk. */
  lemma FallbackIsLowRisk()
    ensures !PageData(None).floodPrediction
    ensures GetRiskLevel(PageData(None).floodProbability) == Low
    ensures FloodRiskCardStatus(PageData(None)) == Normal
  {
  }

  /** Temperature card: warning above 30 and never critical. */
  function TemperatureStatus(celsius: real): (s: Status)
    ensures s != Critical
    ensures s == Warning <==> celsius > 30.0
  {
    if celsius > 30.0 then Warning else Normal
  }

  /** 24-hour rainfall card: critical above 20 mm, warning above 10 mm. */
  function Rainfall24hStatus(mm: real): (s: Status)
    ensures s == Critical <==> mm > 20.0
    ensures s == Warning <==> 10.0 < mm <= 20.0
    ensures s == Normal <==> mm <= 10.0
  {
    StatusAbove(mm, 10.0, 20.0)
  }

  /** 72-hour rainfall card: critical above 50 mm, warning above 30 mm. */
  function Rainfall72hStatus(mm: real): (s: Status)
    ensures s == Critical <==> mm > 50.0
    ensures s == Warning <==> 30.0 < mm <= 50.0
    ensures s == Normal <==> mm <= 30.0
  {
    StatusAbove(mm, 30.0, 50.0)
  }

  /** River and reservoir level cards: critical above 70 %, warning above 50 %. */
  function LevelStatus(percent: real): (s: Status)
    ensures s == Critical <==> percent > 70.0
    ensures s == Warning <==> 50.0 < percent <= 70.0
    ensures s == Normal <==> percent <= 50.0
  {
    StatusAbove(percent, 50.0, 70.0)
  }

  /** The flood-risk card is critical exactly when the backend predicts a flood. */
  function FloodRiskCardStatus(d: PredictionData): (s: Status)
    ensures s == Critical <==> d.floodPrediction
    ensures s != Warning
  {
    if d.floodPrediction then Critical else Normal
  }

  /** The previous-floods card. */
  function PreviousFloodsText(selection: string): (text: string)
    ensures text == "Yes" <==> selection == "yes"
    ensures text == "No" <==> selection != "yes"
  {
    if selection == "yes" then "Yes" else "No"
  }
}
