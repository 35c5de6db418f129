/**
 * The earthquake panel: the USGS GeoJSON adapter, the aggregate risk level,
 * the alerts handed to the parent page, the per-event badge and the two
 * top-five selections made while rendering.
 *
 * Times are milliseconds since the epoch. The great-circle distance from the
 * monitored point is a parameter `distanceTo(lat, lon)`.
 *
 * The dashboard keeps `recentEarthquakes` as a sequence value. The render's
 * in-place significance sort is modelled by `MostSignificant` on an array that
 * holds a copy of that list, so the sort does not reach back into the stored
 * state here. `ChartQuakes` therefore takes the list in whatever order the
 * significance sort has left it.
 */
module Earthquake {
  import opened Wrappers
  import opened Seqs
  import opened Indicators

  const DAY_MS: int := 24 * 60 * 60 * 1000
  const WEEK_MS: int := 7 * DAY_MS
  const LOOKBACK_MS: int := 30 * DAY_MS

  /** `properties` of one USGS feature. */
  datatype Properties = Properties(mag: real, place: string, time: int, url: string, sig: int)

  /** One USGS feature; `coordinates` is the GeoJSON triple [lon, lat, depth]. */
  datatype Feature = Feature(properties: Properties, coordinates: (real, real, real))

  /** One processed earthquake record, as stored in `recent_earthquakes`. */
  datatype Quake = Quake(
    lat: real, lon: real, magnitude: real, depth: real, distanceKm: real,
    timestamp: int, location: string, usgsUrl: string, significance: int)

  datatype Risk = Low | Medium | High

  datatype EarthquakeData = EarthquakeData(recentEarthquakes: seq<Quake>, riskLevel: Risk, timestamp: int)

  /** The USGS query issued for a point: a box of +-0.9 degrees, 30 days back, M2.5 and above. */
  datatype UsgsQuery = UsgsQuery(
    minLat: real, maxLat: real, minLon: real, maxLon: real, startTime: int, minMagnitude: real)

  function QueryFor(lat: real, lon: real, now: int): (q: UsgsQuery)
    ensures q.maxLat - q.minLat == 1.8 && q.maxLon - q.minLon == 1.8
    ensures (q.minLat + q.maxLat) / 2.0 == lat && (q.minLon + q.maxLon) / 2.0 == lon
    ensures now - q.startTime == 30 * DAY_MS
    ensures q.minMagnitude == 2.5
  {
    UsgsQuery(lat - 0.9, lat + 0.9, lon - 0.9, lon + 0.9, now - LOOKBACK_MS, 2.5)
  }

  // ---------------------------------------------------------------------
  // Adapter: features to records

  function ToQuake(f: Feature, distanceTo: (real, real) -> real): Quake
  {
    var lat := f.coordinates.1;
    var lon := f.coordinates.0;
    Quake(lat, lon, f.properties.mag, f.coordinates.2, distanceTo(lat, lon),
          f.properties.time, f.properties.place, f.properties.url, f.properties.sig)
  }

  /** `data.features.map(...)`: one record per feature, in API order. */
  function ProcessFeatures(fs: seq<Feature>, distanceTo: (real, real) -> real): (qs: seq<Quake>)
    ensures |qs| == |fs|
  {
    if fs == [] then [] else [ToQuake(fs[0], distanceTo)] + ProcessFeatures(fs[1..], distanceTo)
  }

  /** The adapter keeps length and order and copies each field from where GeoJSON puts it. */
  lemma {:induction false} ProcessFeaturesFields(fs: seq<Feature>, distanceTo: (real, real) -> real, i: nat)
    requires i < |fs|
    ensures var q := ProcessFeatures(fs, distanceTo)[i];
      && q.lat == fs[i].coordinates.1
      && q.lon == fs[i].coordinates.0
      && q.depth == fs[i].coordinates.2
      && q.magnitude == fs[i].properties.mag
      && q.location == fs[i].properties.place
      && q.usgsUrl == fs[i].properties.url
      && q.significance == fs[i].properties.sig
      && q.timestamp == fs[i].properties.time
      && q.distanceKm == distanceTo(q.lat, q.lon)
  {
    if i > 0 {
      ProcessFeaturesFields(fs[1..], distanceTo, i - 1);
    }
  }

  // ---------------------------------------------------------------------
  // Aggregate risk

  predicate IsSignificant(f: Feature) { f.properties.mag >= 4.5 }

  /** Features strictly newer than one week before `now`. */
  function RecentWeek(fs: seq<Feature>, now: int): seq<Feature>
  {
    Filter(fs, (f: Feature) => f.properties.time > now - WEEK_MS)
  }

  /** `calculateRiskLevel`. */
  function RiskLevel(fs: seq<Feature>, now: int): (r: Risk)
    ensures r == High <==>
      (exists i :: 0 <= i < |fs| && fs[i].properties.mag >= 4.5) || |RecentWeek(fs, now)| >= 3
    ensures r == Medium <==>
      (forall i :: 0 <= i < |fs| ==> fs[i].properties.mag < 4.5)
      && (exists i :: 0 <= i < |fs| && fs[i].properties.time > now - WEEK_MS)
      && |RecentWeek(fs, now)| < 3
    ensures r == Low <==>
      forall i :: 0 <= i < |fs| ==> fs[i].properties.mag < 4.5 && fs[i].properties.time <= now - WEEK_MS
  {
    var significant := Filter(fs, IsSignificant);
    var recent := RecentWeek(fs, now);
    FilterEmptyIff(fs, IsSignificant);
    FilterEmptyIff(fs, (f: Feature) => f.properties.time > now - WEEK_MS);
    if |significant| > 0 || |recent| >= 3 then High
    else if |recent| > 0 then Medium
    else Low
  }

  /** An empty result set is low risk. */
  lemma NoQuakesLowRisk(now: int)
    ensures RiskLevel([], now) == Low
  {
  }

  /** Three quakes within the week make the risk high whatever their magnitudes. */
  lemma {:induction false} ThreeRecentIsHigh(fs: seq<Feature>, now: int)
    requires |fs| >= 3
    requires forall i :: 0 <= i < |fs| ==> fs[i].properties.time > now - WEEK_MS
    ensures RiskLevel(fs, now) == High
  {
    FilterAll(fs, (f: Feature) => f.properties.time > now - WEEK_MS);
  }

  /** The risk metric card: high is critical, medium a warning. */
  function RiskCardStatus(r: Risk): (s: Status)
    ensures s == Critical <==> r == High
    ensures s == Warning <==> r == Medium
    ensures s == Normal <==> r == Low
  {
    match r
    case High => Critical
    case Medium => Warning
    case Low => Normal
  }

  // ---------------------------------------------------------------------
  // Alerts

  /**
   * The text of an alert, kept as its template and the values it interpolates;
   * Render gives the text for a chosen number formatter.
   */
  datatype AlertMessage =
    | StrongQuake(mag: real, distanceKm: real, place: string)
    | ModerateQuake(mag: real, distanceKm: real)
    | LightQuake(mag: real, distanceKm: real)
    | AftershockSequence(count: nat)

  datatype Alert = Alert(kind: string, level: string, message: AlertMessage)

  /** A string is a prefix of its extensions, and what follows it is the extension. */
  lemma Concat(a: string, b: string)
    ensures a <= a + b && (a + b)[|a|..] == b
  {
  }

  /** The alert text; `fixed1` stands for `toFixed(1)` and `decimal` for integer printing. */
  function Render(m: AlertMessage, fixed1: real -> string, decimal: nat -> string): (text: string)
    ensures m.StrongQuake? ==> "Strong earthquake M" <= text
    ensures m.StrongQuake? ==> |m.place| <= |text| && text[|text| - |m.place|..] == m.place
    ensures m.ModerateQuake? ==> "Moderate earthquake M" <= text
    ensures m.LightQuake? ==> "Light earthquake M" <= text
    ensures m.AftershockSequence? ==> "Multiple earthquakes detected" <= text
    ensures m.StrongQuake? ==>
      text[|"Strong earthquake M"|..] == fixed1(m.mag) + " detected " + fixed1(m.distanceKm) + "km away at " + m.place
    ensures m.ModerateQuake? ==>
      text[|"Moderate earthquake M"|..] == fixed1(m.mag) + " detected " + fixed1(m.distanceKm) + "km away"
    ensures m.LightQuake? ==>
      text[|"Light earthquake M"|..] == fixed1(m.mag) + " detected " + fixed1(m.distanceKm) + "km away"
    ensures m.AftershockSequence? ==>
      text[|"Multiple earthquakes detected"|..]
        == " - possible aftershock sequence with " + decimal(m.count) + " events in last 24 hours"
  {
    match m
    case StrongQuake(mag, d, place) =>
      var middle := fixed1(mag) + " detected " + fixed1(d) + "km away at ";
      Concat("Strong earthquake M", middle + place);
      Concat("Strong earthquake M" + middle, place);
      "Strong earthquake M" + (middle + place)
    case ModerateQuake(mag, d) =>
      var rest := fixed1(mag) + " detected " + fixed1(d) + "km away";
      Concat("Moderate earthquake M", rest);
      "Moderate earthquake M" + rest
    case LightQuake(mag, d) =>
      var rest := fixed1(mag) + " detected " + fixed1(d) + "km away";
      Concat("Light earthquake M", rest);
      "Light earthquake M" + rest
    case AftershockSequence(n) =>
      var rest := " - possible aftershock sequence with " + decimal(n) + " events in last 24 hours";
      Concat("Multiple earthquakes detected", rest);
      "Multiple earthquakes detected" + rest
  }

  /** A strong quake's alert text, for a formatter that prints 5.2 and 12.3 as written. */
  lemma StrongAlertText(fixed1: real -> string, decimal: nat -> string)
    requires fixed1(5.2) == "5.2" && fixed1(12.3) == "12.3"
    ensures Render(StrongQuake(5.2, 12.3, "Test Ridge"), fixed1, decimal)
      == "Strong earthquake M" + "5.2" + " detected " + "12.3" + "km away at " + "Test Ridge"
  {
    var middle := fixed1(5.2) + " detected " + fixed1(12.3) + "km away at ";
    assert Render(StrongQuake(5.2, 12.3, "Test Ridge"), fixed1, decimal)
      == "Strong earthquake M" + (middle + "Test Ridge");
  }

  /** The single-event rule, applied to the first record only. */
  function SingleEventAlert(q: Quake): (a: Option<Alert>)
    ensures a.Some? <==> q.magnitude >= 3.5
    ensures a.Some? ==> a.value.kind == "earthquake"
    ensures a.Some? ==> (a.value.level == "high" <==> q.magnitude >= 4.0)
    ensures a.Some? ==> (a.value.level == "medium" <==> q.magnitude < 4.0)
    ensures a.Some? ==> (a.value.message.StrongQuake? <==> q.magnitude >= 5.0)
    ensures a.Some? ==> (a.value.message.ModerateQuake? <==> 4.0 <= q.magnitude < 5.0)
    ensures a.Some? ==> (a.value.message.LightQuake? <==> q.magnitude < 4.0)
    ensures a.Some? && a.value.message.StrongQuake? ==> a.value.message.place == q.location
    ensures a.Some? ==>
      (&& !a.value.message.AftershockSequence?
       && a.value.message.mag == q.magnitude
       && a.value.message.distanceKm == q.distanceKm)
  {
    if q.magnitude >= 5.0 then
      Some(Alert("earthquake", "high", StrongQuake(q.magnitude, q.distanceKm, q.location)))
    else if q.magnitude >= 4.0 then
      Some(Alert("earthquake", "high", ModerateQuake(q.magnitude, q.distanceKm)))
    else if q.magnitude >= 3.5 then
      Some(Alert("earthquake", "medium", LightQuake(q.magnitude, q.distanceKm)))
    else None
  }

  /** Records strictly newer than 24 hours before `now`. */
  function LastDay(qs: seq<Quake>, now: int): seq<Quake>
  {
    Filter(qs, (q: Quake) => q.timestamp > now - DAY_MS)
  }

  /** The aftershock rule. */
  function AftershockAlert(qs: seq<Quake>, now: int): (a: Option<Alert>)
    ensures a.Some? <==> |qs| >= 3 && |LastDay(qs, now)| >= 3
    ensures a.Some? ==> a.value == Alert("earthquake", "medium", AftershockSequence(|LastDay(qs, now)|))
  {
    if |qs| >= 3 && |LastDay(qs, now)| >= 3 then
      Some(Alert("earthquake", "medium", AftershockSequence(|LastDay(qs, now)|)))
    else None
  }

  function OptionToSeq<T>(o: Option<T>): (s: seq<T>)
    ensures o.Some? ==> s == [o.value]
    ensures o.None? ==> s == []
  {
    match o
    case Some(v) => [v]
    case None => []
  }

  /** The alert list of one fetch: the single-event alert first, then the aftershock alert. */
  function Alerts(qs: seq<Quake>, now: int): (alerts: seq<Alert>)
  {
    if qs == [] then []
    else OptionToSeq(SingleEventAlert(qs[0])) + OptionToSeq(AftershockAlert(qs, now))
  }

  /** At most two alerts, all of type earthquake; the aftershock alert is there iff its rule fires. */
  lemma AlertsShape(qs: seq<Quake>, now: int)
    ensures |Alerts(qs, now)| <= 2
    ensures forall i :: 0 <= i < |Alerts(qs, now)| ==> Alerts(qs, now)[i].kind == "earthquake"
    ensures qs == [] ==> Alerts(qs, now) == []
    ensures (exists i :: 0 <= i < |Alerts(qs, now)| && Alerts(qs, now)[i].message.AftershockSequence?)
      <==> |qs| >= 3 && |LastDay(qs, now)| >= 3
  {
    var alerts := Alerts(qs, now);
    if |qs| >= 3 && |LastDay(qs, now)| >= 3 {
      assert alerts[|alerts| - 1].message.AftershockSequence?;
    }
  }

  /** The block of `fetchEarthquakeData` that pushes onto `generatedAlerts`. */
  method GenerateAlerts(qs: seq<Quake>, now: int) returns (alerts: seq<Alert>)
    ensures alerts == Alerts(qs, now)
    ensures |alerts| <= 2
    ensures forall i :: 0 <= i < |alerts| ==> alerts[i].kind == "earthquake"
    ensures qs == [] ==> alerts == []
    ensures (exists i :: 0 <= i < |alerts| && alerts[i].message.AftershockSequence?)
      <==> |qs| >= 3 && |LastDay(qs, now)| >= 3
  {
    alerts := [];
    if |qs| > 0 {
      var mostRecent := qs[0];
      if mostRecent.magnitude >= 5.0 {
        alerts := alerts + [Alert("earthquake", "high",
          StrongQuake(mostRecent.magnitude, mostRecent.distanceKm, mostRecent.location))];
      } else if mostRecent.magnitude >= 4.0 {
        alerts := alerts + [Alert("earthquake", "high",
          ModerateQuake(mostRecent.magnitude, mostRecent.distanceKm))];
      } else if mostRecent.magnitude >= 3.5 {
        alerts := alerts + [Alert("earthquake", "medium",
          LightQuake(mostRecent.magnitude, mostRecent.distanceKm))];
      }
      if |qs| >= 3 {
        var last24hours := LastDay(qs, now);
        if |last24hours| >= 3 {
          alerts := alerts + [Alert("earthquake", "medium", AftershockSequence(|last24hours|))];
        }
      }
    }
    AlertsShape(qs, now);
  }

  /** Three records in the last day always raise the aftershock alert, whatever comes first. */
  lemma {:induction false} ThreeInLastDayRaiseAftershock(qs: seq<Quake>, now: int)
    requires |qs| >= 3
    requires forall i :: 0 <= i < |qs| ==> qs[i].timestamp > now - DAY_MS
    ensures |Alerts(qs, now)| >= 1
    ensures Alerts(qs, now)[|Alerts(qs, now)| - 1] == Alert("earthquake", "medium", AftershockSequence(|qs|))
  {
    FilterAll(qs, (q: Quake) => q.timestamp > now - DAY_MS);
  }

  // ---------------------------------------------------------------------
  // The fetch cycle

  /** The component state of EarthquakeDashboard, with the alerts it delivered upward. */
  class Dashboard {
    const lat: real
    const lon: real
    /** Whether the parent passed `onAlertsUpdate`. */
    const hasListener: bool
    var earthquakeData: Option<EarthquakeData>
    var isLoading: bool
    var error: Option<string>
    /** Every list passed to `onAlertsUpdate`, oldest first. */
    var delivered: seq<seq<Alert>>

    constructor (lat: real, lon: real, hasListener: bool)
      ensures this.lat == lat && this.lon == lon && this.hasListener == hasListener
      ensures earthquakeData == None && isLoading && error == None && delivered == []
    {
      this.lat, this.lon, this.hasListener := lat, lon, hasListener;
      earthquakeData := None;
      isLoading := true;
      error := None;
      delivered := [];
    }

    /**
     * `fetchEarthquakeData`. `response` is what the USGS request produced: the
     * feature list, or the failure (network error, non-2xx status, bad body).
     */
    method FetchEarthquakeData(response: Result<seq<Feature>, string>, now: int,
                               distanceTo: (real, real) -> real)
      returns (query: UsgsQuery)
      modifies this
      ensures query == QueryFor(lat, lon, now)
      ensures !isLoading
      ensures response.Failure? ==>
        && error == Some("Failed to load earthquake data. Please try again later.")
        && earthquakeData == old(earthquakeData)
        && delivered == old(delivered)
      ensures response.Success? ==>
        var qs := ProcessFeatures(response.value, distanceTo);
        && error == None
        && earthquakeData == Some(EarthquakeData(qs, RiskLevel(response.value, now), now))
        && delivered == old(delivered) + (if hasListener then [Alerts(qs, now)] else [])
    {
      isLoading := true;
      error := None;
      query := QueryFor(lat, lon, now);
      match response {
        case Failure(_) =>
          error := Some("Failed to load earthquake data. Please try again later.");
        case Success(features) =>
          var processed := EarthquakeData(ProcessFeatures(features, distanceTo), RiskLevel(features, now), now);
          earthquakeData := Some(processed);
          var generatedAlerts := GenerateAlerts(processed.recentEarthquakes, now);
          if hasListener {
            delivered := delivered + [generatedAlerts];
          }
      }
      isLoading := false;
    }
  }

  // ---------------------------------------------------------------------
  // Rendering decisions

  /** The per-event badge. */
  function MagnitudeBadge(magnitude: real): (badge: string)
    ensures badge == "Strong" <==> magnitude >= 5.0
    ensures badge == "Moderate" <==> 3.0 <= magnitude < 5.0
    ensures badge == "Light" <==> magnitude < 3.0
  {
    if magnitude >= 5.0 then "Strong" else if magnitude >= 3.0 then "Moderate" else "Light"
  }

  /** The badge is never weaker than the single-event alert's wording. */
  lemma BadgeAgreesWithAlert(q: Quake)
    requires SingleEventAlert(q).Some? && SingleEventAlert(q).value.message.StrongQuake?
    ensures MagnitudeBadge(q.magnitude) == "Strong"
  {
  }

  predicate SortedDesc(s: seq<Quake>, key: Quake -> real)
  {
    forall p, q :: 0 <= p < q < |s| ==> key(s[p]) >= key(s[q])
  }

  function Significance(q: Quake): real { q.significance as real }

  function Magnitude(q: Quake): real { q.magnitude }

  /** Exchanges two neighbouring elements. */
  method SwapDown(a: array<Quake>, j: nat)
    requires 0 < j < a.Length
    modifies a
    ensures a[..] == old(a[..])[j - 1 := old(a[j])][j := old(a[j - 1])]
    ensures multiset(a[..]) == old(multiset(a[..]))
  {
    a[j - 1], a[j] := a[j], a[j - 1];
  }

  /** Moves `a[i]` left past every smaller key, so that `a[..i + 1]` becomes sorted. */
  method InsertDown(a: array<Quake>, i: nat, key: Quake -> real)
    requires i < a.Length
    requires SortedDesc(a[..i], key)
    modifies a
    ensures SortedDesc(a[..i + 1], key)
    ensures a[i + 1..] == old(a[i + 1..])
    ensures multiset(a[..]) == old(multiset(a[..]))
  {
    var j := i;
    while j > 0 && key(a[j - 1]) < key(a[j])
      invariant 0 <= j <= i
      invariant forall p, q :: 0 <= p < q <= i && p != j && q != j ==> key(a[p]) >= key(a[q])
      invariant forall q :: j < q <= i ==> key(a[q]) < key(a[j])
      invariant a[i + 1..] == old(a[i + 1..])
      invariant multiset(a[..]) == old(multiset(a[..]))
    {
      SwapDown(a, j);
      j := j - 1;
    }
  }

  /** `Array.prototype.sort((a, b) => key(b) - key(a))`, in place (insertion sort). */
  method SortDescending(a: array<Quake>, key: Quake -> real)
    modifies a
    ensures SortedDesc(a[..], key)
    ensures multiset(a[..]) == old(multiset(a[..]))
  {
    var i := 0;
    while i < a.Length
      invariant 0 <= i <= a.Length
      invariant SortedDesc(a[..i], key)
      invariant multiset(a[..]) == old(multiset(a[..]))
    {
      InsertDown(a, i, key);
      i := i + 1;
    }
    assert a[..a.Length] == a[..];
  }

  /**
   * "Most Significant Recent Earthquakes": the stored list is sorted by
   * significance, descending, in place, and its first five are shown.
   */
  method MostSignificant(a: array<Quake>) returns (top: seq<Quake>)
    modifies a
    ensures multiset(a[..]) == old(multiset(a[..]))
    ensures SortedDesc(a[..], Significance)
    ensures |top| == if a.Length < 5 then a.Length else 5
    ensures top == a[..|top|]
    ensures forall x, y :: x in top && y in a[|top|..] ==> y.significance <= x.significance
  {
    SortDescending(a, Significance);
    var n := if a.Length < 5 then a.Length else 5;
    top := a[..n];
    forall x, y | x in top && y in a[n..] ensures y.significance <= x.significance {
      var p :| 0 <= p < n && a[p] == x;
      var q :| n <= q < a.Length && a[q] == y;
      assert Significance(a[..][p]) >= Significance(a[..][q]);
    }
  }

  /** The bar chart: the first five records in current order, sorted by magnitude, descending. */
  method ChartQuakes(qs: seq<Quake>) returns (rows: seq<Quake>)
    ensures multiset(rows) == multiset(qs[..if |qs| < 5 then |qs| else 5])
    ensures SortedDesc(rows, Magnitude)
  {
    var first := qs[..if |qs| < 5 then |qs| else 5];
    var a := new Quake[|first|](i requires 0 <= i < |first| => first[i]);
    assert a[..] == first;
    SortDescending(a, Magnitude);
    rows := a[..];
  }
}
