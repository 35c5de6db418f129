/**
 * The flood prediction form: from the entered city, forecast period, soil
 * type, reservoir level and flood history to the request handed to the
 * flood model, and from its answer to the state the result page opens with.
 *
 * Dates are day numbers (days since an arbitrary epoch); `today` and the
 * value of `Math.random()` are parameters, and the flood model itself is
 * the function parameter `predictFlood`.
 */
module FloodPrediction {
  import opened Wrappers
  import opened JsText
  import FloodResult

  /** A soil type of the selector and the range its simulated moisture is drawn from. */
  datatype SoilType = SoilType(name: string, lo: int, hi: int)

  /** `soilTypes`. */
  const SoilTypes: seq<SoilType> := [
    SoilType("Sandy Soil", 5, 10),
    SoilType("Silt Soil", 20, 30),
    SoilType("Clay Soil", 30, 40),
    SoilType("Loamy Soil", 25, 35),
    SoilType("Peaty Soil", 40, 60)]

  /** `soilTypes.find(soil => soil.name === name)`: the first entry with that name. */
  function FindSoil(table: seq<SoilType>, name: string): (r: Option<SoilType>)
    ensures r.None? <==> forall i :: 0 <= i < |table| ==> table[i].name != name
    ensures r.Some? ==> r.value in table && r.value.name == name
  {
    if table == [] then None
    else if table[0].name == name then Some(table[0])
    else FindSoil(table[1..], name)
  }

  /** Every range of the table is ordered, so it holds at least one value. */
  lemma SoilRangesOrdered(soil: SoilType)
    requires soil in SoilTypes
    ensures soil.lo <= soil.hi
  {
  }

  /** `Math.floor(random * n)`: an index in [0, n) for `random` in [0, 1). */
  function ScaledFloor(random: real, n: int): (k: int)
    requires 0.0 <= random < 1.0 && n >= 1
    ensures 0 <= k < n
  {
    assert random * (n as real) < n as real by {
      assert (1.0 - random) * (n as real) > 0.0;
    }
    (random * (n as real)).Floor
  }

  /** `Math.floor(Math.random() * (hi - lo + 1)) + lo` for one soil. */
  function MoistureIn(soil: SoilType, random: real): (m: int)
    requires 0.0 <= random < 1.0 && soil.lo <= soil.hi
    ensures soil.lo <= m <= soil.hi
  {
    ScaledFloor(random, soil.hi - soil.lo + 1) + soil.lo
  }

  /** The simulated soil moisture: uniform over the soil's range, or 0 for an unknown soil. */
  function SoilMoisture(soilType: string, random: real): (m: int)
    requires 0.0 <= random < 1.0
    ensures FindSoil(SoilTypes, soilType).None? ==> m == 0
    ensures FindSoil(SoilTypes, soilType).Some? ==>
      FindSoil(SoilTypes, soilType).value.lo <= m <= FindSoil(SoilTypes, soilType).value.hi
  {
    match FindSoil(SoilTypes, soilType)
    case None => 0
    case Some(soil) =>
      SoilRangesOrdered(soil);
      MoistureIn(soil, random)
  }

  /** The empty selection matches no soil, so no moisture is simulated. */
  lemma NoSoilNoMoisture(random: real)
    requires 0.0 <= random < 1.0
    ensures SoilMoisture("", random) == 0
  {
    assert forall i :: 0 <= i < |SoilTypes| ==> SoilTypes[i].name != "";
  }

  /** The names of the table are distinct, so looking up an entry's name finds that entry. */
  lemma FindSoilOfEntry(soil: SoilType)
    requires soil in SoilTypes
    ensures FindSoil(SoilTypes, soil.name) == Some(soil)
  {
    var t := SoilTypes;
    assert t[1..][1..][1..][1..] == [t[4]];
    assert t[1..][1..][1..] == [t[3], t[4]];
    assert t[1..][1..] == [t[2], t[3], t[4]];
    assert t[1..] == [t[1], t[2], t[3], t[4]];
  }

  /** The draw k/n lands on index k. */
  lemma ScaledFloorHits(k: int, n: int)
    requires 0 <= k < n
    ensures 0.0 <= k as real / n as real < 1.0
    ensures ScaledFloor(k as real / n as real, n) == k
  {
    assert (k as real / n as real) * n as real == k as real;
  }

  /** Every value of a range is produced by some random draw. */
  lemma MoistureInCoversRange(soil: SoilType, m: int)
    requires soil.lo <= m <= soil.hi
    ensures exists random :: 0.0 <= random < 1.0 && MoistureIn(soil, random) == m
  {
    var n := soil.hi - soil.lo + 1;
    ScaledFloorHits(m - soil.lo, n);
    var random := (m - soil.lo) as real / n as real;
    assert MoistureIn(soil, random) == m;
  }

  /** Every value of a soil's range is produced by some random draw. */
  lemma SoilMoistureCoversRange(soil: SoilType, m: int)
    requires soil in SoilTypes && soil.lo <= m <= soil.hi
    ensures exists random :: 0.0 <= random < 1.0 && SoilMoisture(soil.name, random) == m
  {
    MoistureInCoversRange(soil, m);
    var random :| 0.0 <= random < 1.0 && MoistureIn(soil, random) == m;
    FindSoilOfEntry(soil);
    assert SoilMoisture(soil.name, random) == m;
  }

  /** `calculateDate`: today shifted by `parseInt(dayOption) - 3` days; `None` for an invalid date. */
  function CalculateDate(dayOption: string, today: int): (d: Option<int>)
    ensures d.None? <==> ParseInt(dayOption).None?
    ensures d.Some? ==> d.value == today + ParseInt(dayOption).value - 3
  {
    match ParseInt(dayOption)
    case None => None
    case Some(days) => Some(today + days - 3)
  }

  /** The three periods of the selector ask for today, tomorrow and the day after. */
  lemma DayOptionOffsets(today: int)
    ensures CalculateDate("3", today) == Some(today)
    ensures CalculateDate("4", today) == Some(today + 1)
    ensures CalculateDate("5", today) == Some(today + 2)
  {
    ParseIntOfNumeral(3);
    ParseIntOfNumeral(4);
    ParseIntOfNumeral(5);
    assert NatToString(3) == "3" && NatToString(4) == "4" && NatToString(5) == "5";
  }

  /** `previousFloods === "yes" ? 1.0 : 0.0`. */
  function PreviousFloodsValue(selection: string): (v: real)
    ensures v == 1.0 <==> selection == "yes"
    ensures v == 0.0 <==> selection != "yes"
  {
    if selection == "yes" then 1.0 else 0.0
  }

  /** The request handed to the flood model. */
  datatype FloodRequest = FloodRequest(
    city: string, date: int, soilType: string, soilMoisture: int,
    riverLevel: real, reservoirLevel: real, previousFloods: real)

  /** The request for a validated form and a valid date. */
  function RequestFor(
    city: string, date: int, soilType: string, riverLevel: string, reservoirLevel: string,
    previousFloods: string, random: real): (q: FloodRequest)
    requires 0.0 <= random < 1.0
    ensures q.city == city && q.date == date && q.soilType == soilType
    ensures q.soilMoisture == SoilMoisture(soilType, random)
    ensures q.riverLevel == NumberOrZero(riverLevel) && q.reservoirLevel == NumberOrZero(reservoirLevel)
    ensures q.previousFloods == PreviousFloodsValue(previousFloods)
  {
    FloodRequest(city, date, soilType, SoilMoisture(soilType, random),
      NumberOrZero(riverLevel), NumberOrZero(reservoirLevel), PreviousFloodsValue(previousFloods))
  }

  /** The page has no river level input, so the request always carries 0. */
  lemma EmptyLevelIsZero(
    city: string, date: int, soilType: string, reservoirLevel: string, previousFloods: string, random: real)
    requires 0.0 <= random < 1.0
    ensures RequestFor(city, date, soilType, "", reservoirLevel, previousFloods, random).riverLevel == 0.0
  {
    ParseFloatOfNoDigits();
  }

  /** The page's error record. */
  datatype ApiError = ApiError(error: string, message: string)

  const ValidationFailure := ApiError("Validation Error", "City and prediction period are required")

  /** What `new Date(NaN).toISOString()` throws. */
  const InvalidDateMessage := "Invalid time value"

  /** The message of a thrown value: an Error's own message, or the fallback for anything else. */
  function ThrownMessage(thrown: Option<string>): (m: string)
    ensures thrown.Some? ==> m == thrown.value
    ensures thrown.None? ==> m == "Failed to fetch flood prediction"
  {
    thrown.GetOr("Failed to fetch flood prediction")
  }

  /** The state the result page is opened with. */
  datatype Navigation = Navigation(prediction: FloodResult.PredictionData, city: string)

  /** The flood model's answer, extended with the soil type and the raw flood-history selection. */
  function ResultState(p: FloodResult.PredictionData, soilType: string, previousFloods: string, city: string): (nav: Navigation)
    ensures nav.city == city
    ensures nav.prediction.soilType == soilType && nav.prediction.previousFloodsSelection == previousFloods
    ensures nav.prediction.floodPrediction == p.floodPrediction
    ensures nav.prediction.floodProbability == p.floodProbability
    ensures nav.prediction.(soilType := p.soilType, previousFloodsSelection := p.previousFloodsSelection) == p
  {
    Navigation(p.(soilType := soilType, previousFloodsSelection := previousFloods), city)
  }

  /** The result page shows "Yes" for previous floods exactly when "yes" was selected here. */
  lemma PreviousFloodsRoundTrip(p: FloodResult.PredictionData, soilType: string, previousFloods: string, city: string)
    ensures FloodResult.PreviousFloodsText(ResultState(p, soilType, previousFloods, city).prediction.previousFloodsSelection) == "Yes"
      <==> PreviousFloodsValue(previousFloods) == 1.0
  {
  }

  /**
   * The page after the flood model answered: a prediction navigates to the
   * result page with the error cleared; a thrown value sets the API error
   * and leaves the navigation as it was.
   */
  predicate Answered(
    response: Result<FloodResult.PredictionData, Option<string>>, soilType: string, previousFloods: string,
    city: string, before: Option<Navigation>, error: Option<ApiError>, navigation: Option<Navigation>)
  {
    match response
    case Success(p) => error == None && navigation == Some(ResultState(p, soilType, previousFloods, city))
    case Failure(thrown) => error == Some(ApiError("API Error", ThrownMessage(thrown))) && navigation == before
  }

  /** The FloodPrediction page state. */
  class Page {
    var city: string
    var dayOption: string
    var soilType: string
    /** Never set by the page: it has no input. */
    const riverLevel: string
    var reservoirLevel: string
    var previousFloods: string
    var loading: bool
    var error: Option<ApiError>
    /** Where `navigate` last took the user, if anywhere. */
    var navigation: Option<Navigation>

    constructor ()
      ensures city == "" && dayOption == "" && soilType == "" && riverLevel == ""
      ensures reservoirLevel == "" && previousFloods == ""
      ensures !loading && error == None && navigation == None
    {
      city := "";
      dayOption := "";
      soilType := "";
      riverLevel := "";
      reservoirLevel := "";
      previousFloods := "";
      loading := false;
      error := None;
      navigation := None;
    }

    /**
     * `handleSubmit`: validate, compute the date and the request, call the
     * flood model, then navigate or record the error. Returns the request
     * sent, if any.
     */
    method HandleSubmit(
      today: int, random: real,
      predictFlood: FloodRequest -> Result<FloodResult.PredictionData, Option<string>>)
      returns (sent: Option<FloodRequest>)
      requires 0.0 <= random < 1.0
      requires riverLevel == ""
      modifies this`loading, this`error, this`navigation
      ensures city == "" || dayOption == "" ==>
        && error == Some(ValidationFailure) && sent == None
        && loading == old(loading) && navigation == old(navigation)
      ensures city != "" && dayOption != "" ==> !loading
      ensures city != "" && dayOption != "" && CalculateDate(dayOption, today).None? ==>
        && error == Some(ApiError("API Error", InvalidDateMessage)) && sent == None
        && navigation == old(navigation)
      ensures city != "" && dayOption != "" && CalculateDate(dayOption, today).Some? ==>
        && sent == Some(RequestFor(city, CalculateDate(dayOption, today).value, soilType,
                                   riverLevel, reservoirLevel, previousFloods, random))
        && sent.value.riverLevel == 0.0
        && Answered(predictFlood(sent.value), soilType, previousFloods, city, old(navigation), error, navigation)
    {
      if city == "" || dayOption == "" {
        error := Some(ValidationFailure);
        return None;
      }
      loading := true;
      error := None;
      var calculatedDate := CalculateDate(dayOption, today);
      if calculatedDate.None? {
        error := Some(ApiError("API Error", InvalidDateMessage));
        loading := false;
        return None;
      }
      var request := Predict(calculatedDate.value, random, predictFlood);
      sent := Some(request);
      loading := false;
    }

    /** The request to the flood model for a valid date, and what its answer does to the page. */
    method Predict(
      date: int, random: real,
      predictFlood: FloodRequest -> Result<FloodResult.PredictionData, Option<string>>)
      returns (request: FloodRequest)
      requires 0.0 <= random < 1.0
      requires riverLevel == "" && error == None
      modifies this`error, this`navigation
      ensures request == RequestFor(city, date, soilType, riverLevel, reservoirLevel, previousFloods, random)
      ensures request.riverLevel == 0.0
      ensures Answered(predictFlood(request), soilType, previousFloods, city, old(navigation), error, navigation)
    {
      request := RequestFor(city, date, soilType, riverLevel, reservoirLevel, previousFloods, random);
      EmptyLevelIsZero(city, date, soilType, reservoirLevel, previousFloods, random);
      match predictFlood(request) {
        case Success(p) =>
          navigation := Some(ResultState(p, soilType, previousFloods, city));
        case Failure(thrown) =>
          error := Some(ApiError("API Error", ThrownMessage(thrown)));
      }
    }
  }
}
