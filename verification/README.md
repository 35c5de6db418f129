# ResilienceAI decision logic in Dafny

ResilienceAI is a React dashboard for disaster awareness. Its pages show
earthquake, flood, heatwave and wildfire risk, and let a user register an
account. Almost all of it is layout. Inside the page components sits a small
layer of deterministic decisions, and this project models that layer and
proves what it promises:

- **Earthquake panel** (`earthquake.dfy`, module `Earthquake`):
  - the adapter from USGS GeoJSON features to earthquake records;
  - the aggregate low/medium/high risk, from magnitudes and a 7-day window;
  - the alerts handed to the parent page: at most one single-event alert and one aftershock alert;
  - the Strong/Moderate/Light badge;
  - the two top-five lists made while rendering, one sorted in place by significance and one by magnitude.
- **Shared indicators** (`indicators.dfy`, module `Indicators`): the normal/warning/critical status of the metric cards, and the `RiskIndicator` mapping from a free-form level to a colour and a caption. Every result page repeats both.
- **Disaster risk dashboard** (`prediction_results.dfy`, module `PredictionResults`): the 0–100 risk score, its colour, and the card buckets.
- **Flood result page** (`flood_result.dfy`, module `FloodResult`): the Low/Medium/High label of a flood probability, the fallback record, and the card buckets.
- **Heatwave result page** (`heatwave_result.dfy`, module `HeatwaveResult`): the normalisation of the loosely typed forecast into rows, the chart projection, the alert colours and badges.
- **Account registration** (`create_account.dfy`, module `CreateAccount`):
  - the form and its ordered validator;
  - the e-mail shape check, proved equivalent to its regular expression;
  - the stored user list, which refuses a duplicate e-mail.
- **Flood prediction form** (`flood_prediction.dfy`, module `FloodPrediction`): the request sent to the flood model (date offset, simulated soil moisture, flag encodings, parsed levels) and the state the result page is opened with.
- **Response guide accordion** (`response_coordination.dfy`, module `ResponseCoordination`): the section → expanded map and its toggle.

Three support modules are shared:

- `JsText` (`js_text.dfy`): JavaScript white space, `parseInt` and `parseFloat`.
- `Seqs` (`seqs.dfy`): `filter` and its lemmas.
- `Wrappers` (`wrappers.dfy`): `Option` and `Result`.

Where the page keeps state, the model uses a class:

- the earthquake panel's data, loading and error cells, with the alert lists delivered to the parent;
- the dashboard's `disasterData`;
- the registration form and its user store;
- the flood form;
- the accordion.

Each method states the new state in terms of pure functions, and the lemmas about those functions carry the properties.

Conventions:

- **Numbers:** magnitudes, probabilities, temperatures and levels are `real`. They are only compared with constants.
- **Times and dates:** earthquake times are integer milliseconds since the epoch. Calendar dates are day numbers.
- **Parameters:** the current time (`now`, `today`), the value of `Math.random()`, the great-circle distance (`distanceTo`) and the number formatters (`fixed1`, `decimal`).
- **Outside services:** the outcome of every network call is a `Result` parameter. The flood model is the function parameter `predictFlood`.

## Model

| member | source | states |
|---|---|---|
| Indicators.StatusAbove | src/pages/FloodResult.tsx:348 | a card is critical iff the value exceeds the upper bound, a warning iff it lies in (lower, upper], normal otherwise |
| Indicators.StatusAboveMonotone | src/pages/PredictionResults.tsx:393-416 | a larger reading never gets a lower card status |
| Indicators.HeatStatus | src/pages/HeatwaveResult.tsx:375-384 | temperature and feels-like cards: critical iff > 35, warning iff in (30, 35], normal iff ≤ 30 (same bucket as the dashboard's temperature card) |
| Indicators.ToLower | src/pages/PredictionResults.tsx:152 | lower-casing keeps the length and maps each character by itself (ASCII letters down, everything else kept) |
| Indicators.RiskIndicator | src/pages/PredictionResults.tsx:150-173 | caption "High Risk" iff the lower-cased level is "high", "Medium Risk" iff "medium", "Low Risk" otherwise; colour and dot follow the caption |
| Indicators.RiskIndicatorIgnoresCase | src/pages/HeatwaveResult.tsx:75-98 | every capitalisation of "high" is shown as high risk |
| Earthquake.QueryFor | src/pages/EarthquakeDashboard.tsx:156-167 | the query box is 1.8° wide in latitude and longitude and centred on the monitored point; it starts 30 days before now; the minimum magnitude is 2.5 |
| Earthquake.ProcessFeatures | src/pages/EarthquakeDashboard.tsx:175 | one record per feature |
| Earthquake.ProcessFeaturesFields | src/pages/EarthquakeDashboard.tsx:175-196 | record i comes from feature i: lat = coordinates[1], lon = coordinates[0], depth = coordinates[2]; mag, place, url, sig and time copied; distance measured to (lat, lon) |
| Earthquake.RiskLevel | src/pages/EarthquakeDashboard.tsx:132-141 | high iff some magnitude ≥ 4.5 or at least 3 features are newer than now − 7 days; medium iff none is that strong, some but fewer than 3 are that recent; low iff every feature is weaker and older |
| Earthquake.NoQuakesLowRisk | src/pages/EarthquakeDashboard.tsx:139-140 | an empty feature list is low risk |
| Earthquake.ThreeRecentIsHigh | src/pages/EarthquakeDashboard.tsx:134-138 | three or more features inside the week make the risk high whatever their magnitudes |
| Earthquake.RiskCardStatus | src/pages/EarthquakeDashboard.tsx:317-318 | the risk card is critical iff high, a warning iff medium, normal iff low |
| Earthquake.Render | src/pages/EarthquakeDashboard.tsx:211-240 | each alert kind's text starts with its own fixed words; after them come the magnitude to one decimal, " detected ", the distance to one decimal and "km away" (then " at " and the place for a strong quake), or for an aftershock sequence the event count inside its fixed wording |
| Earthquake.StrongAlertText | src/pages/EarthquakeDashboard.tsx:213-216 | a magnitude 5.2 quake 12.3 km away at Test Ridge reads "Strong earthquake M5.2 detected 12.3km away at Test Ridge" |
| Earthquake.SingleEventAlert | src/pages/EarthquakeDashboard.tsx:206-228 | an alert exists iff magnitude ≥ 3.5; it is 'high' iff ≥ 4 and 'medium' below; Strong iff ≥ 5 (with the place), Moderate iff in [4, 5), Light iff below 4; magnitude and distance are the record's |
| Earthquake.AftershockAlert | src/pages/EarthquakeDashboard.tsx:231-243 | the aftershock alert exists iff the list has ≥ 3 records and ≥ 3 of them are newer than now − 24 h; it is 'medium' and carries that count |
| Earthquake.AlertsShape | src/pages/EarthquakeDashboard.tsx:204-245 | at most two alerts, all of type 'earthquake', none for an empty list, and an aftershock alert among them iff the aftershock rule fires |
| Earthquake.GenerateAlerts | src/pages/EarthquakeDashboard.tsx:204-245 | the pushes build exactly the single-event alert of element 0 followed by the aftershock alert, with the shape above |
| Earthquake.ThreeInLastDayRaiseAftershock | src/pages/EarthquakeDashboard.tsx:231-243 | when three or more records all fall in the last day, the last alert is the aftershock alert with the full count |
| Earthquake.Dashboard.constructor | src/pages/EarthquakeDashboard.tsx:147-149 | no data, loading, no error, nothing delivered |
| Earthquake.Dashboard.FetchEarthquakeData | src/pages/EarthquakeDashboard.tsx:151-258 | the query is issued for the panel's point; a failure sets the fixed error and leaves data and deliveries unchanged; a success stores the processed records, the risk level and the time, and delivers the alert list (even when empty) iff a listener exists; loading ends false |
| Earthquake.MagnitudeBadge | src/pages/EarthquakeDashboard.tsx:399-404 | 'Strong' iff magnitude ≥ 5, 'Moderate' iff in [3, 5), 'Light' iff below 3 |
| Earthquake.BadgeAgreesWithAlert | src/pages/EarthquakeDashboard.tsx:210-215 | an event that raises the Strong alert also shows the Strong badge |
| Earthquake.SortDescending | src/pages/EarthquakeDashboard.tsx:375 | the array is sorted by the key, descending, and is a permutation of its old contents |
| Earthquake.MostSignificant | src/pages/EarthquakeDashboard.tsx:373-377 | the stored list is permuted in place into descending significance; the shown list is its first min(5, n) records, and no record left out is more significant than one shown |
| Earthquake.ChartQuakes | src/pages/EarthquakeDashboard.tsx:332-334 | the chart rows are the first five records in current order, as a multiset, sorted by magnitude descending |
| PredictionResults.HazardPoints | src/pages/PredictionResults.tsx:233-237 | a hazard level adds 70 iff exactly 'high', 40 iff exactly 'medium', 0 otherwise |
| PredictionResults.WeatherPoints | src/pages/PredictionResults.tsx:239-241 | the weather adds at most 75; all three thresholds crossed give 75, none crossed give 0 |
| PredictionResults.TemperatureWeight | src/pages/PredictionResults.tsx:239 | a temperature crossing above 35 adds exactly 30, whatever the other readings |
| PredictionResults.WindWeight | src/pages/PredictionResults.tsx:240 | a wind speed crossing above 15 adds exactly 20, whatever the other readings |
| PredictionResults.PrecipitationWeight | src/pages/PredictionResults.tsx:241 | precipitation crossing above 10 adds exactly 25, whatever the other readings |
| PredictionResults.RiskScore | src/pages/PredictionResults.tsx:229-243 | the score is 0 when no data is loaded; otherwise it is the sum of both hazards' points and the weather points when that sum is below 100, and 100 exactly when the sum reaches 100 |
| PredictionResults.GetRiskScore | src/pages/PredictionResults.tsx:229-244 | the step-by-step accumulation followed by min(100, ·) computes RiskScore and lies in [0, 100] |
| PredictionResults.RiskScoreMonotone | src/pages/PredictionResults.tsx:232-243 | raising a hazard level (other < medium < high) or any weather reading never lowers the score |
| PredictionResults.CapitalisedLevelScoresNothing | src/pages/PredictionResults.tsx:233-234 | a flood level spelled "High" is shown as High Risk by RiskIndicator yet adds nothing to the score |
| PredictionResults.TwoHazardsSaturate | src/pages/PredictionResults.tsx:232-243 | two hazards at medium and high (or both high) already give 100 |
| PredictionResults.ScoreColor | src/pages/PredictionResults.tsx:325-334 | red iff the score > 70, yellow iff in (40, 70], emerald iff ≤ 40 |
| PredictionResults.NoDataIsEmerald | src/pages/PredictionResults.tsx:229-230 | with no data the score is shown in emerald |
| PredictionResults.WindStatus | src/pages/PredictionResults.tsx:401-402 | wind card: critical iff > 20, warning iff in (15, 20], normal iff ≤ 15 |
| PredictionResults.PrecipitationStatus | src/pages/PredictionResults.tsx:415-416 | precipitation card: critical iff > 10, warning iff in (5, 10], normal iff ≤ 5 |
| PredictionResults.ScoringWeatherIsFlagged | src/pages/PredictionResults.tsx:239-241 | every weather reading that adds to the score shows at least a warning on its card |
| PredictionResults.HazardCardStatus | src/pages/PredictionResults.tsx:435-444 | flood and fire cards: critical iff exactly 'high', warning iff exactly 'medium', normal otherwise |
| PredictionResults.HazardCardMatchesPoints | src/pages/PredictionResults.tsx:435-444 | a hazard card's severity and the hazard's share of the score rise together |
| PredictionResults.Dashboard.constructor | src/pages/PredictionResults.tsx:188 | no data at first |
| PredictionResults.Dashboard.FetchData | src/pages/PredictionResults.tsx:197-210 | a successful fetch replaces the data; a failed one leaves it |
| PredictionResults.Dashboard.Score | src/pages/PredictionResults.tsx:229-243 | the shown score is RiskScore of the current data, 0 with none |
| FloodResult.GetRiskLevel | src/pages/FloodResult.tsx:149-153 | 'Low' iff p < 35, 'Medium' iff 35 ≤ p ≤ 70, 'High' iff p > 70 |
| FloodResult.GetRiskLevelMonotone | src/pages/FloodResult.tsx:149-153 | a larger probability never gets a lower label |
| FloodResult.GetRiskLevelBoundaries | src/pages/FloodResult.tsx:150-151 | 34.9 is Low, 35 and 70 are Medium, 70.1 is High |
| FloodResult.RiskIndicatorShowsLevel | src/pages/FloodResult.tsx:201 | the indicator's caption is the label's risk: Low/Medium/High Risk in the same probability ranges |
| FloodResult.PageData | src/pages/FloodResult.tsx:113-125 | the navigation record if present, else the fixed fallback |
| FloodResult.FallbackIsLowRisk | src/pages/FloodResult.tsx:113-125 | without navigation state the page shows no predicted flood, a Low label and a normal flood card |
| FloodResult.TemperatureStatus | src/pages/FloodResult.tsx:341 | the temperature card is never critical, and a warning iff > 30 |
| FloodResult.Rainfall24hStatus | src/pages/FloodResult.tsx:348 | critical iff > 20, warning iff in (10, 20], normal iff ≤ 10 |
| FloodResult.Rainfall72hStatus | src/pages/FloodResult.tsx:355 | critical iff > 50, warning iff in (30, 50], normal iff ≤ 30 |
| FloodResult.LevelStatus | src/pages/FloodResult.tsx:362 | river and reservoir cards: critical iff > 70, warning iff in (50, 70], normal iff ≤ 50 |
| FloodResult.FloodRiskCardStatus | src/pages/FloodResult.tsx:387 | the flood card is critical iff a flood is predicted and never a warning |
| FloodResult.PreviousFloodsText | src/pages/FloodResult.tsx:399 | "Yes" iff the selection is exactly "yes", "No" otherwise |
| HeatwaveResult.StringOr | src/pages/HeatwaveResult.tsx:138 | a present non-empty string is kept, a missing or empty one becomes the default |
| HeatwaveResult.NumberOrZero | src/pages/HeatwaveResult.tsx:139-142 | a present number is kept (0 stays 0), a missing one becomes 0 |
| HeatwaveResult.NormaliseDay | src/pages/HeatwaveResult.tsx:136-158 | a null item gives the default row; otherwise each field comes from its source field with its default, the probability is scaled by 100, and isHeatwave holds iff the flag is exactly the number 1 |
| HeatwaveResult.BooleanFlagIsNotHeatwave | src/pages/HeatwaveResult.tsx:143-156 | a flag sent as boolean true does not mark a heatwave day |
| HeatwaveResult.ForecastData | src/pages/HeatwaveResult.tsx:131-136 | an array forecast gives one normalised row per item, in order; a missing or non-array forecast gives no rows |
| HeatwaveResult.ProbabilityData | src/pages/HeatwaveResult.tsx:160-164 | one bar per row carrying the row's date, probability and alert level |
| HeatwaveResult.ChartProbabilityIsPercent | src/pages/HeatwaveResult.tsx:154-164 | a bar's probability is the service's probability for that day times 100 |
| HeatwaveResult.CurrentWeatherOf | src/pages/HeatwaveResult.tsx:124-130 | the service's conditions if present, all zeros otherwise |
| HeatwaveResult.HeatwaveRiskLevel | src/pages/HeatwaveResult.tsx:215 | 'high' iff heatwave_alert is truthy, 'low' otherwise |
| HeatwaveResult.HeatwaveIndicator | src/pages/HeatwaveResult.tsx:133-215 | the indicator reads High Risk iff the alert is raised, and Low Risk when the flag is missing |
| HeatwaveResult.AlertCardStatus | src/pages/HeatwaveResult.tsx:411-428 | the risk and alert cards are critical iff heatwave_alert is truthy, normal otherwise |
| HeatwaveResult.AlertColor | src/pages/HeatwaveResult.tsx:9-14 | fixed colours for Normal, Caution, Warning and Emergency; any other level falls back to #10b981 |
| HeatwaveResult.AlertBadge | src/pages/HeatwaveResult.tsx:488-491 | the badge is red iff the level is Emergency, orange iff Warning, yellow iff Caution, and emerald iff it is none of these three |
| HeatwaveResult.ColorAndBadgeAgree | src/pages/HeatwaveResult.tsx:334 | a day is drawn in the default green iff its table badge is emerald |
| HeatwaveResult.MissingLevelIsGreen | src/pages/HeatwaveResult.tsx:144 | a day without an alert level is drawn in the default green |
| JsText.TrimStart | src/pages/FloodPrediction.tsx:42 | the result is a suffix of the input starting at a non-space, and everything dropped is white space |
| JsText.LeadingDigits | src/pages/FloodPrediction.tsx:42 | the leading run of decimal digits, ending at the first non-digit |
| JsText.ParseInt | src/pages/FloodPrediction.tsx:42 | NaN iff no digit follows the white space and sign |
| JsText.ParseIntOfNumeral | src/pages/FloodPrediction.tsx:42 | parseInt reads back the decimal numeral of every natural number |
| JsText.ParseIntOfNoDigits | src/pages/FloodPrediction.tsx:42 | "" and "abc" are NaN |
| JsText.ParseIntSkipsSpace | src/pages/FloodPrediction.tsx:42 | a white-space character in front of any text does not change what `parseInt` reads |
| JsText.ParseIntOfSpacedFour | src/pages/FloodPrediction.tsx:42 | " 4" reads as 4 |
| JsText.ParseIntNegative | src/pages/FloodPrediction.tsx:42 | "-3" reads as -3 |
| JsText.ParseIntStopsAtText | src/pages/FloodPrediction.tsx:42 | "5days" reads as 5 |
| JsText.ParseFloat | src/pages/FloodPrediction.tsx:74-75 | NaN exactly when, after the white space and sign, neither a digit nor a point followed by a digit comes first |
| JsText.NumberOrZero | src/pages/FloodPrediction.tsx:74-75 | `parseFloat(s) \|\| 0`: 0 for NaN, the parsed value otherwise |
| JsText.ParseFloatOfNumeral | src/pages/FloodPrediction.tsx:74-75 | parseFloat reads back the decimal numeral of every natural number |
| JsText.ParseFloatOfNoDigits | src/pages/FloodPrediction.tsx:74-75 | "" and "." are NaN, and an empty level becomes 0 |
| JsText.ParseFloatOfDecimal | src/pages/FloodPrediction.tsx:74-75 | every numeral followed by a point and digits reads as the whole number plus the digits counted in tenths, hundredths, and so on |
| JsText.ParseFloatNegated | src/pages/FloodPrediction.tsx:75 | text starting with a digit, with '-' in front, reads as the negation of the number the text starts with |
| JsText.ParseFloatPlus | src/pages/FloodPrediction.tsx:75 | text starting with a digit, with '+' in front, reads as the number the text starts with |
| JsText.ParseFloatFraction | src/pages/FloodPrediction.tsx:74-75 | "2.5" reads as 2.5 |
| JsText.ParseFloatOfPoint | src/pages/FloodPrediction.tsx:74-75 | a point followed by digits, with no digit before it, reads as those digits counted in tenths, hundredths, and so on; with '-' in front it reads as the negation |
| JsText.ParseFloatOfMinusPoint | src/pages/FloodPrediction.tsx:75 | '-' followed by a point and digits reads as the negated fraction |
| JsText.MagnitudeOfPoint | src/pages/FloodPrediction.tsx:75 | an unsigned number may start at its point: ".digits" is the fraction alone |
| JsText.ParseFloatStopsAtText | src/pages/FloodPrediction.tsx:74-75 | reading stops at the first character that is neither a digit nor a point: a numeral followed by such text reads as the numeral's value |
| JsText.MagnitudeStopsAtText | src/pages/FloodPrediction.tsx:75 | the unsigned reading of a numeral followed by a character that is neither a digit nor a point is the numeral's value |
| CreateAccount.IsValidEmailMatchesPattern | src/pages/CreateAccount.tsx:49 | the check accepts exactly the strings the e-mail regular expression matches: a non-empty run without '@' or white space, '@', a non-empty run, '.', a non-empty run |
| CreateAccount.ValidEmailMatchesPattern | src/pages/CreateAccount.tsx:49 | every address the check accepts matches the regular expression |
| CreateAccount.PatternIsValidEmail | src/pages/CreateAccount.tsx:49 | every string the regular expression matches is accepted |
| CreateAccount.EmailExamples | src/pages/CreateAccount.tsx:49 | "a@b.co" passes; a missing dot, a second '@', a space or an empty local part fails |
| CreateAccount.WithField | src/pages/CreateAccount.tsx:35-41 | the named field takes the new value and every other field is unchanged |
| CreateAccount.ValidationError | src/pages/CreateAccount.tsx:44-70 | no error iff both names, a valid e-mail, a password of at least 8 characters equal to its confirmation, a role and an organization are present; each message is reported iff every earlier check passes and its own check fails, in the order names, e-mail, password length, password match, role, organization |
| CreateAccount.ValidIff | src/pages/CreateAccount.tsx:44-70 | the same condition with the e-mail read as the regular expression |
| CreateAccount.MissingNameReportedFirst | src/pages/CreateAccount.tsx:45-48 | a missing name is reported whatever else is wrong |
| CreateAccount.ShortPasswordReported | src/pages/CreateAccount.tsx:53-56 | with valid names and e-mail, a short password is the error reported |
| CreateAccount.Register | src/pages/CreateAccount.tsx:89-98 | refused with the duplicate message iff some stored user has exactly that e-mail; otherwise the list grows by one, the old entries untouched and the new user last |
| CreateAccount.RegisterKeepsEmailsUnique | src/pages/CreateAccount.tsx:91-98 | registration keeps the stored e-mails unique |
| CreateAccount.UserStore.constructor | src/pages/CreateAccount.tsx:89 | the store starts empty |
| CreateAccount.Page.constructor | src/pages/CreateAccount.tsx:18-33 | empty form, no error, not loading, no success |
| CreateAccount.Page.HandleChange | src/pages/CreateAccount.tsx:35-42 | the form becomes the form with the one field replaced, and the error is cleared |
| CreateAccount.Page.ValidateForm | src/pages/CreateAccount.tsx:44-70 | returns true iff validation finds no error; otherwise the error is the first failing check's message |
| CreateAccount.Page.HandleSubmit | src/pages/CreateAccount.tsx:72-109 | an invalid form changes nothing but the error; a duplicate e-mail sets the duplicate error and leaves the store; otherwise the user is appended, the error cleared and success set; loading ends false after validation |
| FloodPrediction.FindSoil | src/pages/FloodPrediction.tsx:62 | no soil iff no table entry has the name; a found soil is an entry with that name |
| FloodPrediction.SoilRangesOrdered | src/pages/FloodPrediction.tsx:20-26 | every soil range has lo ≤ hi |
| FloodPrediction.ScaledFloor | src/pages/FloodPrediction.tsx:64 | floor(random · n) lies in [0, n) for random in [0, 1) |
| FloodPrediction.SoilMoisture | src/pages/FloodPrediction.tsx:62-65 | an unknown soil gives 0; a known one gives a value inside its range |
| FloodPrediction.NoSoilNoMoisture | src/pages/FloodPrediction.tsx:62-65 | no soil selected gives moisture 0 |
| FloodPrediction.FindSoilOfEntry | src/pages/FloodPrediction.tsx:20-26 | the table's names are distinct, so each entry is found by its name |
| FloodPrediction.MoistureIn | src/pages/FloodPrediction.tsx:63-64 | the floor of the random draw scaled to the range, plus its low end, lies inside the soil's inclusive range |
| FloodPrediction.MoistureInCoversRange | src/pages/FloodPrediction.tsx:63-64 | every whole value of the inclusive range comes from some draw in [0, 1) |
| FloodPrediction.SoilMoistureCoversRange | src/pages/FloodPrediction.tsx:62-65 | every value in a soil's range is produced by some random draw |
| FloodPrediction.CalculateDate | src/pages/FloodPrediction.tsx:41-46 | an invalid date iff the period does not parse; otherwise today plus the parsed period minus 3 |
| FloodPrediction.DayOptionOffsets | src/pages/FloodPrediction.tsx:41-46 | the options "3", "4", "5" ask for today, tomorrow and the day after |
| FloodPrediction.PreviousFloodsValue | src/pages/FloodPrediction.tsx:67 | 1.0 iff the selection is exactly "yes", 0.0 otherwise |
| FloodPrediction.RequestFor | src/pages/FloodPrediction.tsx:69-77 | the request carries the city, date and soil type, the simulated moisture, both levels as `parseFloat \|\| 0`, and the flood flag |
| FloodPrediction.EmptyLevelIsZero | src/pages/FloodPrediction.tsx:74 | the river level, which the page never sets, reaches the request as 0 |
| FloodPrediction.ThrownMessage | src/pages/FloodPrediction.tsx:91-94 | an Error's own message, else the fixed fallback |
| FloodPrediction.ResultState | src/pages/FloodPrediction.tsx:79-88 | the result page gets the model's prediction with every other field unchanged, the soil type and the raw flood-history selection added, and the city |
| FloodPrediction.PreviousFloodsRoundTrip | src/pages/FloodPrediction.tsx:67-86 | the result page shows "Yes" for previous floods iff the request encoded 1.0 |
| FloodPrediction.Page.constructor | src/pages/FloodPrediction.tsx:30-39 | every field empty, not loading, no error, no navigation |
| FloodPrediction.Page.HandleSubmit | src/pages/FloodPrediction.tsx:48-97 | an empty city or period sets the validation error without a request; an unparseable period sets the invalid-date API error; otherwise the request built by RequestFor (river level 0) is sent, and its answer navigates to the result state or sets the API error; loading ends false after validation |
| FloodPrediction.Page.Predict | src/pages/FloodPrediction.tsx:62-95 | the request sent is RequestFor of the form and the date, with river level 0; a prediction navigates to the result state with the error still cleared, and a thrown value sets the API error and leaves the navigation |
| ResponseCoordination.Toggled | src/pages/ResponseCoordination.tsx:11-15 | the clicked section becomes open iff it was closed; every other key keeps its value; the keys gain only the clicked section |
| ResponseCoordination.FirstToggleOpens | src/pages/ResponseCoordination.tsx:9-14 | a section never clicked opens on its first click |
| ResponseCoordination.ToggleIsLocal | src/pages/ResponseCoordination.tsx:12-14 | a click never changes whether another section is open |
| ResponseCoordination.AfterClicksKeys | src/pages/ResponseCoordination.tsx:11-15 | after a sequence of clicks the keys are the old keys plus the clicked sections |
| ResponseCoordination.Count | src/pages/ResponseCoordination.tsx:11-15 | the number of clicks on a section is at most the number of clicks, and zero iff no click hits it |
| ResponseCoordination.OpenAfterClicks | src/pages/ResponseCoordination.tsx:11-15 | after a sequence of clicks a section is open iff it was open and was clicked an even number of times, or was closed and was clicked an odd number of times |
| ResponseCoordination.ToggleTwiceRestores | src/pages/ResponseCoordination.tsx:11-15 | two clicks on one section restore every section |
| ResponseCoordination.Accordion.constructor | src/pages/ResponseCoordination.tsx:9 | every section starts collapsed |
| ResponseCoordination.Accordion.ToggleSection | src/pages/ResponseCoordination.tsx:11-15 | the state becomes the toggled map: the section flips |

## Left out

- **Great-circle distance.** `calculateDistance` is floating-point trigonometry. It is the parameter `distanceTo`, whose result is stored as given.
- **Formatting.** Number formatting (`toFixed`) and date formatting (`format`, `toISOString`, `toLocaleString`) are left out. Alert texts are rendered through formatter parameters.
- **Calendar dates.** The flood request date is a day number. The string it would be printed as is not modelled, nor is the shift between the local calendar day and the UTC day `toISOString` prints.
- **Network and timers.** The USGS, backend, geocoding and flood-model requests are left out; their outcomes are parameters. So are the five-minute refresh of the dashboard and the two-second redirect after registration.
- **Concurrency.** Overlapping fetches and the effects' clean-up are left out.
- **Storage.** The user list is a `seq` in a class; the JSON encoding in browser storage is not modelled.
- CreateAccount.Page.HandleSubmit: the 'An error occurred' path is left out. It is reached when the stored user list is not valid JSON; when it parses to `null`, an object or a number, which has no `some` method; and when `localStorage.setItem` throws because storage is full or unavailable. The model's store is always a list and never fails to write.
- **Time.** The source reads `Date.now()` and `new Date()` several times during one fetch; the model uses one `now`.
- **Floating point.** NaN, infinities and -0 are left out of the numeric fields.
- JsText.ParseFloat: exponents and `Infinity` are left out.
- JsText.ParseInt: the `0x` hexadecimal prefix is left out.
- **Strings.** `toLowerCase` is modelled on ASCII letters only. String lengths count characters, not UTF-16 code units.
- Indicators.RiskIndicator: the caption is exact, but only ASCII case folding is modelled.
- Earthquake.SortDescending: the stability of `Array.prototype.sort` is not stated; keys are compared as real numbers.
- Earthquake.ChartQuakes: the chart reads the stored list in whatever order the last render's in-place significance sort left it; the model takes that order as its input.
- HeatwaveResult.NumberOrZero: the service's numeric fields are taken to be well typed (a number or missing); a numeric string or `false`, which `x || 0` would pass through or turn into 0, is not modelled.
- HeatwaveResult.AlertColor: keys inherited from `Object.prototype` (such as "toString") are not modelled as lookups.
- **Navigation glue.** The redirects when a page opens without its state (dashboard without a city, heatwave result without a result) are left out. So are the chart tooltip lookup and the map setup.
- **Unmodelled fields.** FloodPrediction's country selector, which never reaches the request, is left out, as are the password-visibility toggles.
- **Setters.** The form fields' individual setters are plain field assignments on the page classes. Only `handleChange`, which also clears the error, is a method.
