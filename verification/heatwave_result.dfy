/**
 * The heatwave result page: the normalisation of the loosely typed forecast
 * returned by the heatwave service into typed rows, the chart projection,
 * and the page's risk and colour choices.
 *
 * A forecast field is `None` when it is missing, null or undefined; `||`
 * replaces it, and every other falsy value (0, ""), by the field's default.
 */
module HeatwaveResult {
  import opened Wrappers
  import opened Indicators

  /** A JSON scalar, for the fields whose type the page does not fix. */
  datatype Scalar = Num(n: real) | Bool(b: bool) | Str(s: string)

  /** JavaScript truthiness of a possibly missing scalar. */
  predicate Truthy(v: Option<Scalar>)
  {
    match v
    case None => false
    case Some(Num(n)) => n != 0.0
    case Some(Bool(b)) => b
    case Some(Str(s)) => s != ""
  }

  /** One raw forecast day, as the service sends it. */
  datatype RawDay = RawDay(
    date: Option<string>,
    temperature2mMax: Option<real>,
    apparentTemperatureMax: Option<real>,
    relativeHumidity2mMean: Option<real>,
    windSpeed10mMax: Option<real>,
    isHeatwave: Option<Scalar>,
    alertLevel: Option<string>,
    heatwaveProbability: Option<real>)

  /** `result.forecast`: absent or falsy, present but not an array, or an array of possibly null items. */
  datatype ForecastField = Absent | NotArray | Items(items: seq<Option<RawDay>>)

  /** One typed row of `forecastData`. */
  datatype ForecastRow = ForecastRow(
    date: string, temperature: real, apparentTemp: real, humidity: real, windSpeed: real,
    heatwaveProbability: real, alertLevel: string, isHeatwave: bool)

  function StringOr(v: Option<string>, default: string): (r: string)
    ensures v.Some? && v.value != "" ==> r == v.value
    ensures v.None? || v.value == "" ==> r == default
  {
    if v.Some? && v.value != "" then v.value else default
  }

  /** `x || 0` on a number: missing and 0 both give 0. */
  function NumberOrZero(v: Option<real>): (r: real)
    ensures v.Some? ==> r == v.value
    ensures v.None? ==> r == 0.0
  {
    if v.Some? && v.value != 0.0 then v.value else 0.0
  }

  /** The `.map` callback: fill defaults, rename, scale the probability to a percentage. */
  function NormaliseDay(item: Option<RawDay>): (row: ForecastRow)
    ensures row.date != "" && row.alertLevel != ""
    ensures item.None? ==> row == ForecastRow("Unknown", 0.0, 0.0, 0.0, 0.0, 0.0, "Normal", false)
    ensures item.Some? ==>
      var d := item.value;
      && row.date == StringOr(d.date, "Unknown")
      && row.alertLevel == StringOr(d.alertLevel, "Normal")
      && row.temperature == NumberOrZero(d.temperature2mMax)
      && row.apparentTemp == NumberOrZero(d.apparentTemperatureMax)
      && row.humidity == NumberOrZero(d.relativeHumidity2mMean)
      && row.windSpeed == NumberOrZero(d.windSpeed10mMax)
      && row.heatwaveProbability == 100.0 * NumberOrZero(d.heatwaveProbability)
      && (row.isHeatwave <==> d.isHeatwave == Some(Num(1.0)))
  {
    match item
    case None => ForecastRow("Unknown", 0.0, 0.0, 0.0, 0.0, 0.0, "Normal", false)
    case Some(d) =>
      var isHeatwave := if Truthy(d.isHeatwave) then d.isHeatwave.value else Num(0.0);
      ForecastRow(
        StringOr(d.date, "Unknown"),
        NumberOrZero(d.temperature2mMax),
        NumberOrZero(d.apparentTemperatureMax),
        NumberOrZero(d.relativeHumidity2mMean),
        NumberOrZero(d.windSpeed10mMax),
        NumberOrZero(d.heatwaveProbability) * 100.0,
        StringOr(d.alertLevel, "Normal"),
        isHeatwave == Num(1.0))
  }

  /** A flag sent as boolean `true` is not a heatwave day: only the number 1 is. */
  lemma BooleanFlagIsNotHeatwave(d: RawDay)
    requires d.isHeatwave == Some(Bool(true))
    ensures !NormaliseDay(Some(d)).isHeatwave
  {
  }

  /** `forecastData`. */
  function ForecastData(forecast: ForecastField): (rows: seq<ForecastRow>)
    ensures forecast.Items? ==> |rows| == |forecast.items|
    ensures forecast.Items? ==> forall i :: 0 <= i < |rows| ==> rows[i] == NormaliseDay(forecast.items[i])
    ensures !forecast.Items? ==> rows == []
  {
    match forecast
    case Items(items) => seq(|items|, i requires 0 <= i < |items| => NormaliseDay(items[i]))
    case _ => []
  }

  /** One bar of the probability chart. */
  datatype ProbabilityBar = ProbabilityBar(date: string, probability: real, alertLevel: string)

  /** `heatwaveProbabilityData`: a field projection of `forecastData`. */
  function ProbabilityData(rows: seq<ForecastRow>): (bars: seq<ProbabilityBar>)
    ensures |bars| == |rows|
    ensures forall i :: 0 <= i < |rows| ==>
      bars[i].date == rows[i].date
      && bars[i].probability == rows[i].heatwaveProbability
      && bars[i].alertLevel == rows[i].alertLevel
  {
    seq(|rows|, i requires 0 <= i < |rows| => ProbabilityBar(rows[i].date, rows[i].heatwaveProbability, rows[i].alertLevel))
  }

  /** A chart bar's probability is the service's probability for that day, times 100. */
  lemma ChartProbabilityIsPercent(items: seq<Option<RawDay>>, i: nat)
    requires i < |items| && items[i].Some?
    ensures ProbabilityData(ForecastData(Items(items)))[i].probability
      == 100.0 * NumberOrZero(items[i].value.heatwaveProbability)
  {
  }

  /** The heatwave service's current conditions. */
  datatype CurrentWeather = CurrentWeather(
    temperature: real, apparentTemperature: real, humidity: real, windSpeed: real, cloudCover: real)

  /** `result?.current_weather || {...zeros}`. */
  function CurrentWeatherOf(given: Option<CurrentWeather>): (w: CurrentWeather)
    ensures given.Some? ==> w == given.value
    ensures given.None? ==> w == CurrentWeather(0.0, 0.0, 0.0, 0.0, 0.0)
  {
    given.GetOr(CurrentWeather(0.0, 0.0, 0.0, 0.0, 0.0))
  }

  /** The level the page hands to RiskIndicator: 'high' when `heatwave_alert` is truthy, else 'low'. */
  function HeatwaveRiskLevel(heatwaveAlert: Option<Scalar>): (level: string)
    ensures level == "high" <==> Truthy(heatwaveAlert)
    ensures level == "low" <==> !Truthy(heatwaveAlert)
  {
    if Truthy(heatwaveAlert) then "high" else "low"
  }

  /** The indicator reads "High Risk" exactly when the service raised the alert; a missing flag reads low. */
  lemma HeatwaveIndicator(heatwaveAlert: Option<Scalar>)
    ensures RiskIndicator(HeatwaveRiskLevel(heatwaveAlert)).caption
      == if Truthy(heatwaveAlert) then "High Risk" else "Low Risk"
    ensures RiskIndicator(HeatwaveRiskLevel(None)).caption == "Low Risk"
  {
    assert ToLower("high") == "high";
    assert ToLower("low") == "low";
  }

  /** The "Heatwave Risk" and "Alert Status" cards. */
  function AlertCardStatus(heatwaveAlert: Option<Scalar>): (s: Status)
    ensures s == Critical <==> Truthy(heatwaveAlert)
    ensures s == Normal <==> !Truthy(heatwaveAlert)
  {
    if Truthy(heatwaveAlert) then Critical else Normal
  }

  /** `alertColors[level] || '#10b981'`: the bar colour of a forecast day. */
  function AlertColor(level: string): (color: string)
    ensures level == "Normal" ==> color == "#10b981"
    ensures level == "Caution" ==> color == "#f59e0b"
    ensures level == "Warning" ==> color == "#f97316"
    ensures level == "Emergency" ==> color == "#ef4444"
    ensures level != "Normal" && level != "Caution" && level != "Warning" && level != "Emergency" ==>
      color == "#10b981"
  {
    var alertColors := map["Normal" := "#10b981", "Caution" := "#f59e0b",
                           "Warning" := "#f97316", "Emergency" := "#ef4444"];
    if level in alertColors then alertColors[level] else "#10b981"
  }

  /** The badge styles of the forecast table. */
  datatype Badge = RedBadge | OrangeBadge | YellowBadge | EmeraldBadge {
    function Classes(): string
    {
      match this
      case RedBadge => "bg-red-500/20 text-red-300 border border-red-500/30"
      case OrangeBadge => "bg-orange-500/20 text-orange-300 border border-orange-500/30"
      case YellowBadge => "bg-yellow-500/20 text-yellow-300 border border-yellow-500/30"
      case EmeraldBadge => "bg-emerald-500/20 text-emerald-300 border border-emerald-500/30"
    }
  }

  /** The table badge of a forecast day. */
  function AlertBadge(level: string): (b: Badge)
    ensures b == RedBadge <==> level == "Emergency"
    ensures b == OrangeBadge <==> level == "Warning"
    ensures b == YellowBadge <==> level == "Caution"
    ensures b == EmeraldBadge <==> level != "Caution" && level != "Warning" && level != "Emergency"
  {
    if level == "Emergency" then RedBadge
    else if level == "Warning" then OrangeBadge
    else if level == "Caution" then YellowBadge
    else EmeraldBadge
  }

  /** The chart and the table agree: a day is drawn in the default green iff its badge is emerald. */
  lemma ColorAndBadgeAgree(level: string)
    ensures AlertColor(level) == "#10b981" <==> AlertBadge(level) == EmeraldBadge
  {
  }

  /** A day whose level was missing is drawn in the default colour. */
  lemma MissingLevelIsGreen(d: RawDay)
    requires d.alertLevel.None?
    ensures AlertColor(NormaliseDay(Some(d)).alertLevel) == "#10b981"
  {
  }
}
