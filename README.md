# Agricultural dashboard pages, modelled in Dafny

This project models the computing core of six pages of a React agricultural dashboard.

- **Crop suggestion** (`CropSuggestion.dfy`): an 18-entry catalog of crop climate profiles.
  NASA POWER monthly precipitation and root-zone soil wetness for 2020-2022 are reduced to one
  climate summary, and the catalog is filtered against that summary. A fixed fallback summary is
  used when the provider fails.
- **Irrigation** (`Irrigation.dfy`): the mean of the last week's valid daily precipitation
  readings, the weekly water balance against 6 mm a day, its increase / decrease / maintain
  status, and the rain and soil messages derived from the same numbers.
- **Crop catalogue** (`CropsData.dfy`): the ten crop cards, the case-insensitive name search
  combined with the water-requirement filter, and the popup state the card handlers keep.
- **Chat assistant** (`Chatbot.dfy`): the 100-word reply limiter, the accumulation of a
  streamed reply, and the append-only chat log.
- **Flood alerts** (`DisasterAlerts.dfy`): the flood-risk percentage and warning computed from
  the latest river discharge against a 20 m³/s threshold, and the bar width and colour shown for it.
- **Charts** (`Charts.dfy`): the conversion between the `YYYY-MM-DD` dates the user types and the
  `YYYYMMDD` dates the provider uses, and the chart records built from the provider's
  parameter objects.

Shared modules:

- `Power.dfy`: the provider response shape. A parameter object is a sequence of date/value entries.
- `Fetching.dfy`: the error texts.
- `Location.dfy`: the coordinate guard.
- `Seqs.dfy`: `filter`, sums and means.
- `Text.dfy`: the JavaScript string operations that are used (`toLowerCase`, `includes`, `split`,
  `join`, `trim` and number printing).

Each page's React state is a class. Its fields are the page's `useState` variables, and its
methods are the handlers and fetch functions. A fetch method takes the provider's outcome as a
parameter, a `Response` value: the exchange failed, the status was not ok, or a body arrived.
The pure computations are functions, with lemmas stating what the page promises about them.
Where the source loops over data in place, the model loops too:

- the yearly buckets of the crop suggestion page;
- the accumulation of the streamed chat reply.

Those loops are proved against the specification functions.

JavaScript `NaN` and `undefined` values appear as `None` of an `Option`.

## Model

| member | source | states |
|---|---|---|
| CropSuggestion.Catalog | src/pages/CropSuggestion.jsx:36-199 | the catalog has 18 entries, each with a minimum temperature and rainfall no larger than its maximum |
| CropSuggestion.CatalogNamesDistinct | src/pages/CropSuggestion.jsx:36-199 | the catalog is keyed by name: no two entries share a name, so no crop is listed twice |
| CropSuggestion.Recommend | src/pages/CropSuggestion.jsx:286-299 | no data gives no crops; a soil moisture below 0.2 gives no crops; a catalog crop is recommended exactly when the temperature lies in its closed range, the twelvefold rainfall lies in its closed rainfall range and the moisture is at least 0.2 (both directions) |
| CropSuggestion.RecommendationsFollowCatalog | src/pages/CropSuggestion.jsx:290-300 | the recommendations embed into the catalog at strictly increasing positions (catalog order) and contain no crop twice when the catalog has none twice |
| CropSuggestion.FallbackRecommendations | src/pages/CropSuggestion.jsx:269-279 | with the fallback summary (25 °C, 100 mm, 0.5) exactly rice, wheat, sugarcane, banana and mango are recommended, in that order; 1200 mm is the edge of both the rice and the wheat range |
| CropSuggestion.RainReadingsNonNegative | src/pages/CropSuggestion.jsx:228-233 | every precipitation value counted for a year is at least 0 (the -999 fill is never summed) |
| CropSuggestion.MoistureReadingsInUnit | src/pages/CropSuggestion.jsx:236-241 | every moisture value collected for a year lies in [0, 1] |
| CropSuggestion.YearRain | src/pages/CropSuggestion.jsx:228-233 | a year's precipitation total is never negative |
| CropSuggestion.YearMoisture | src/pages/CropSuggestion.jsx:248-252 | a year's mean moisture lies in [0, 1]; a year without readings counts as 0 |
| CropSuggestion.SummaryOf | src/pages/CropSuggestion.jsx:243-262 | the summary has the assumed 25 °C, a non-negative rainfall and a soil moisture in [0, 1], so the NaN fallbacks never apply |
| CropSuggestion.RainReadingAppended | src/pages/CropSuggestion.jsx:228-233 | one more entry adds its value to its own year's total exactly when that value is not negative, and leaves the other years as they were |
| CropSuggestion.MoistureReadingAppended | src/pages/CropSuggestion.jsx:236-241 | one more entry is collected for its own year exactly when it lies in [0, 1] |
| CropSuggestion.RainTotalIgnoresOrder | src/pages/CropSuggestion.jsx:228-233 | any rearrangement of the monthly precipitation series (same multiset of entries) gives the same yearly total |
| CropSuggestion.MoistureIgnoresOrder | src/pages/CropSuggestion.jsx:236-252 | any rearrangement of the moisture series keeps the same number of kept readings and the same yearly mean |
| CropSuggestion.SummaryIgnoresOrder | src/pages/CropSuggestion.jsx:226-262 | the summary is the same for any rearrangement of either series |
| CropSuggestion.ReadingBoundaries | src/pages/CropSuggestion.jsx:229-238 | a 0 mm reading and a moisture of exactly 1 are kept; -999, 1.1, -0.1 and a month of another year are not |
| CropSuggestion.BucketsForEmpty | src/pages/CropSuggestion.jsx:221-225 | the specified buckets of two empty series are the three empty starting buckets |
| CropSuggestion.RainStep | src/pages/CropSuggestion.jsx:228-233 | one in-place precipitation update moves the buckets from the specification of a prefix to that of the next prefix |
| CropSuggestion.MoistureStep | src/pages/CropSuggestion.jsx:236-241 | one in-place moisture update moves the buckets from the specification of a prefix to that of the next prefix |
| CropSuggestion.YearlyData.constructor | src/pages/CropSuggestion.jsx:221-225 | the buckets for 2020, 2021 and 2022 start at 0 mm with no moisture readings |
| CropSuggestion.YearlyData.AddRain | src/pages/CropSuggestion.jsx:229-232 | the buckets after one precipitation entry are exactly the specified single-entry update |
| CropSuggestion.YearlyData.AddMoisture | src/pages/CropSuggestion.jsx:237-240 | the buckets after one moisture entry are exactly the specified single-entry update |
| CropSuggestion.Aggregate | src/pages/CropSuggestion.jsx:221-253 | the two in-place loops over the series followed by the averaging compute exactly the specified summary |
| CropSuggestion.BucketsAverage | src/pages/CropSuggestion.jsx:243-253 | averaging the filled buckets gives the specified summary: the mean of the yearly totals and the mean of the yearly moisture means |
| CropSuggestion.CropSuggestionPage.constructor | src/pages/CropSuggestion.jsx:7-10 | the page starts loading, with no error, no data and no recommendations, over the fixed catalog |
| CropSuggestion.CropSuggestionPage.GenerateRecommendations | src/pages/CropSuggestion.jsx:286-305 | the page's list becomes the filtered catalog; loading, error and data are untouched |
| CropSuggestion.CropSuggestionPage.FetchWeatherData | src/pages/CropSuggestion.jsx:200-283 | missing coordinates report the invalid-location error and change no data; a body with parameters shows its summary and that summary's crops with no error; every failure shows the fallback summary, its crops and the historical-data error; loading always ends false |
| Irrigation.CalculateIrrigationNeeds | src/pages/Irrigation.jsx:15-31 | the deficit is 42 mm minus a week of the daily rain; the recommended water is the positive part of the deficit; the status is increase exactly for a positive deficit, decrease exactly for a surplus over 2 mm, maintain otherwise |
| Irrigation.StatusByPrecipitation | src/pages/Irrigation.jsx:15-31 | the status read off the daily rain: increase exactly below 6 mm, decrease exactly above 44/7 mm, maintain in between |
| Irrigation.RecommendedAntitone | src/pages/Irrigation.jsx:21-27 | more rain never increases the recommended amount |
| Irrigation.AveragePrecipitation | src/pages/Irrigation.jsx:63-65 | there is no average (NaN) exactly when every reading is negative; otherwise the average lies between the least and the greatest valid reading and is not negative |
| Irrigation.NegativeReadingIgnored | src/pages/Irrigation.jsx:64-65 | adding a negative reading (such as the -999 fill) does not change the average |
| Irrigation.RainBand | src/pages/Irrigation.jsx:246-250 | the rain message is heavy exactly above 35 mm a week, good exactly in (15, 35] mm and low exactly at 15 mm or less |
| Irrigation.SoilBand | src/pages/Irrigation.jsx:257-261 | the soil message is dry exactly for a deficit over 2 mm, wet exactly for a surplus over 2 mm, perfect otherwise |
| Irrigation.ToFixed1 | src/pages/Irrigation.jsx:28-30 | `toFixed(1)` read back as a number is a whole number of tenths, within 0.05 of the value and of the same sign |
| Irrigation.NearestTenths | src/pages/Irrigation.jsx:28-30 | the rounded count of tenths is within half a tenth of the magnitude, a half going up |
| Irrigation.SoilCardThresholds | src/pages/Irrigation.jsx:257-261 | on the rounded deficit the card reads wet exactly from a 2.05 mm surplus on, dry exactly from a 2.05 mm deficit on, perfect in between |
| Irrigation.MessagesAgreeWithStatus | src/pages/Irrigation.jsx:15-31 | the cards agree with the advice: the soil card is wet exactly when the status is decrease and the surplus reaches 2.05 mm; a dry card and a low-rain week both imply increase; a heavy-rain week recommends less than 7 mm, shown as at most "7.0" |
| Irrigation.SurplusRoundedToPerfect | src/pages/Irrigation.jsx:257-261 | at 6.29 mm of daily rain the advice is to water less while the soil card, reading "-2.0", says the moisture is perfect |
| Irrigation.IrrigationPage.constructor | src/pages/Irrigation.jsx:7-10 | the page starts loading, with no average, advice or error |
| Irrigation.IrrigationPage.FetchData | src/pages/Irrigation.jsx:33-75 | missing coordinates report the location error; a failed exchange, a status that is not ok or a body without PRECTOTCORR set the matching error text and keep the data; otherwise the average of the valid readings and its advice are stored with no error; loading always ends false |
| CropsData.Crops | src/pages/CropsData.jsx:12-23 | the list holds the ten crop cards in page order |
| CropsData.FilteredCrops | src/pages/CropsData.jsx:43-46 | a crop is shown exactly when it is in the list, its lower-cased name contains the lower-cased search term, and the filter is "All" or occurs in its water requirement (both directions) |
| CropsData.FilteredInOrder | src/pages/CropsData.jsx:43-46 | the shown cards keep the list order: they embed into it at strictly increasing positions |
| CropsData.EmptySearchShowsAll | src/pages/CropsData.jsx:9-10 | with the initial empty search and "All", every crop is shown unchanged |
| CropsData.FilteringIdempotent | src/pages/CropsData.jsx:43-46 | filtering the shown cards again with the same search and filter changes nothing |
| CropsData.SearchIgnoresCase | src/pages/CropsData.jsx:44 | a search term and its lower-cased form show the same cards |
| CropsData.HighWaterCrops | src/pages/CropsData.jsx:93 | the "1500-2500 mm" option shows exactly Coffee and Sugarcane |
| CropsData.CropsPage.constructor | src/pages/CropsData.jsx:7-10 | no crop selected, popup closed, empty search, filter "All" |
| CropsData.CropsPage.HandleCardClick | src/pages/CropsData.jsx:25-28 | the clicked crop is selected and the popup is shown on it; the search and the filter are kept |
| CropsData.CropsPage.HandleClosePopup | src/pages/CropsData.jsx:30-33 | the popup is hidden and the selection is cleared; the search and the filter are kept |
| CropsData.CropsPage.HandleSearchChange | src/pages/CropsData.jsx:35-37 | only the search term changes; the popup invariant is preserved |
| CropsData.CropsPage.HandleFilterChange | src/pages/CropsData.jsx:39-41 | only the filter changes; the popup invariant is preserved |
| CropsData.CropsPage.PopupShown | src/pages/CropsData.jsx:139 | the popup is rendered only with a selected crop, and, while the handlers' invariant `Valid` (visible exactly when a crop is selected) holds, exactly when it is marked visible |
| Chatbot.LimitWords | src/pages/Chatbot.jsx:18-21 | text of at most the given number of words is returned unchanged; longer text ends in "..." after a prefix of the text that stops at a space and splits into exactly the first words of the text |
| Chatbot.LimitWordsEmpty | src/pages/Chatbot.jsx:49-50 | with a budget of at least one word, the limiter returns the empty string exactly for an empty reply, so the no-answer text appears exactly for an empty stream |
| Chatbot.ConcatSplit | src/pages/Chatbot.jsx:42-46 | the accumulated reply of a stream split anywhere is the concatenation of the two parts' replies |
| Chatbot.ConcatEmpty | src/pages/Chatbot.jsx:42-46 | the accumulated reply is empty exactly when every chunk is empty |
| Chatbot.ChunkInReply | src/pages/Chatbot.jsx:42-46 | every chunk's text stands whole in the accumulated reply, at the returned position |
| Chatbot.AiContent | src/pages/Chatbot.jsx:42-58 | the assistant message is never empty: the connection error text on a failed call, the no-answer text for an empty stream, otherwise the stream limited to 100 words |
| Chatbot.ReadReply | src/pages/Chatbot.jsx:42-58 | reading the stream chunk by chunk and limiting it yields exactly the specified assistant content, so the loop's accumulated text is the concatenation of all chunks |
| Chatbot.ChatSession.constructor | src/pages/Chatbot.jsx:14-16 | empty input, empty chat, not loading |
| Chatbot.ChatSession.SendMessage | src/pages/Chatbot.jsx:23-62 | an all-blank input or a request in flight changes nothing; otherwise exactly the trimmed user message and one assistant message are appended, the input is cleared and loading ends; the log only ever grows at its end |
| DisasterAlerts.Assess | src/pages/DisasterAlerts.jsx:24-29 | an empty series gives a NaN risk and no warning; otherwise the risk is the latest discharge as a percentage of 20 m³/s and the warning is raised exactly when the latest discharge reaches 20 m³/s |
| DisasterAlerts.WarningIffFullRisk | src/pages/DisasterAlerts.jsx:28-29 | the warning is raised exactly when the risk reaches 100 % |
| DisasterAlerts.OnlyLatestCounts | src/pages/DisasterAlerts.jsx:26 | readings before the latest never change the assessment |
| DisasterAlerts.RiskMonotone | src/pages/DisasterAlerts.jsx:26-28 | a higher latest discharge never lowers the risk |
| DisasterAlerts.BarWidth | src/pages/DisasterAlerts.jsx:114 | the bar width is the risk capped at 100 %; NaN stays NaN |
| DisasterAlerts.ColourBand | src/pages/DisasterAlerts.jsx:116-122 | red exactly above 75 %, yellow exactly in (50, 75] %, green otherwise, NaN included |
| DisasterAlerts.WarningIsRed | src/pages/DisasterAlerts.jsx:114-122 | a raised warning is always drawn as a full-width red bar |
| DisasterAlerts.FloodPanel.constructor | src/pages/DisasterAlerts.jsx:7-10 | risk 0, no warning, loading, no error |
| DisasterAlerts.FloodPanel.FetchFloodData | src/pages/DisasterAlerts.jsx:12-41 | a body with a discharge series stores its assessment with no error; every failure stores its message, resets the risk to 0 and clears the warning; loading always ends false |
| Charts.FormatDate | src/pages/Charts.jsx:31-33 | removing the hyphens never lengthens the date |
| Charts.FormatDateRemovesHyphens | src/pages/Charts.jsx:31-33 | the result has no '-', holds every other character of the date as often as the date does, and embeds in the date in order, so it is exactly the date's other characters in their order |
| Charts.HyphensCounted | src/pages/Charts.jsx:31-33 | the result's multiset of characters is the date's with every '-' taken out |
| Charts.FormatDateConcat | src/pages/Charts.jsx:31-33 | pieces of a date are converted independently |
| Charts.FormatDateKeeps | src/pages/Charts.jsx:31-33 | a date without '-' is passed through unchanged |
| Charts.FormatXAxis | src/pages/Charts.jsx:126-128 | a key of six to eight characters becomes its first four, next two and remaining characters joined by '-'; a longer key is cut to its first eight; a key of four or five characters becomes its first four, '-', the rest and a trailing '-'; a shorter key is followed by "--"; the label is two characters longer than the kept part |
| Charts.LabelRoundTrip | src/pages/Charts.jsx:126-128 | removing the hyphens from the axis label of an eight-character key without '-' gives the key back |
| Charts.DateRoundTrip | src/pages/Charts.jsx:31-33 | the axis label of a stripped `YYYY-MM-DD` date is the date itself |
| Charts.CalendarDateForms | src/pages/Charts.jsx:31-33 | the two functions convert between the basic and the extended form of an ISO 8601 calendar date, in both directions |
| Charts.MonthlyLabelAsWritten | src/pages/Charts.jsx:352-369 | the formatter applied to a six-character monthly key gives the year, '-', the month and a stray trailing '-' |
| Charts.MonthlyLabelExample | src/pages/Charts.jsx:126-128 | the monthly key 202001 is labelled "2020-01-" |
| Charts.FormatAxisLabel | src/pages/Charts.jsx:126-128 | a monthly key gets a seven-character `YYYY-MM` label; any other key is labelled as `formatXAxis` does |
| Charts.AxisLabelRoundTrip | src/pages/Charts.jsx:126-128 | a monthly or daily key without '-' gets a label that does not end in '-' and gives the key back when its hyphens are removed |
| Charts.PrecipitationRecords | src/pages/Charts.jsx:53-57 | one record per key of the PRECTOTCORR object, in key order, each carrying a value |
| Charts.PrecipitationRecordsFaithful | src/pages/Charts.jsx:53-57 | each record carries the value of its own entry |
| Charts.MoistureRecords | src/pages/Charts.jsx:83-88 | one record per GWETROOT date, in order, with a root-zone value present; the profile value is missing exactly when GWETPROF lacks that date |
| Charts.MoistureRecordValues | src/pages/Charts.jsx:83-88 | for any dates in any order, each record carries its date's root-zone reading, and its date's profile reading wherever GWETPROF has that date |
| Charts.MoistureRecordsAligned | src/pages/Charts.jsx:83-88 | when both parameters list the same dates, each record pairs the two readings of its date |
| Charts.ChartsPage.constructor | src/pages/Charts.jsx:8-16 | no position, empty charts, no error |
| Charts.ChartsPage.SetPosition | src/pages/Charts.jsx:19-24 | the device's position becomes the page's latitude and longitude; the charts and the error are kept |
| Charts.ChartsPage.PositionUnavailable | src/pages/Charts.jsx:25-27 | a failed position request sets the error "Failed to get current location"; the coordinates and charts are kept |
| Charts.ChartsPage.FetchPrecipitationData | src/pages/Charts.jsx:35-65 | without a position only the location error is set; a failed exchange, a status that is not ok or a body without PRECTOTCORR set the matching error and empty the chart; otherwise the chart holds the records with no error; the moisture chart is untouched |
| Charts.ChartsPage.FetchMoistureData | src/pages/Charts.jsx:67-96 | without a position only the location error is set; a failure or a missing parameter object sets its error and empties the chart; a missing GWETROOT, or a missing GWETPROF with GWETROOT dates, fails with a TypeError; otherwise the chart holds the paired records with no error |
| Location.FalsyCoordinates | src/pages/CropSuggestion.jsx:201 | the guard as written refuses a coordinate exactly when it is missing or equal to 0 |
| Location.EquatorRejectedAsWritten | src/pages/CropSuggestion.jsx:201 | the as-written guard refuses the valid point (0, 32.5), which the corrected guard accepts |
| Location.CoordinatesMissing | src/pages/Charts.jsx:36 | the corrected guard refuses a coordinate pair exactly when one of them was not delivered |
| Location.ValidCoordinatesAccepted | src/pages/Irrigation.jsx:34 | every delivered in-range pair passes the corrected guard, while a latitude of 0 fails the guard as written |
| Power.Lookup | src/pages/Charts.jsx:56 | reading a key gives undefined exactly when the object lacks it, and otherwise a value stored under that key |
| Power.LookupEntry | src/pages/Charts.jsx:54-57 | in an object with distinct keys, reading an entry's key gives back that entry's value |
| Text.Split | src/pages/Chatbot.jsx:19 | splitting gives at least one piece, no piece contains the separator, and joining the pieces gives the text back |
| Text.SplitJoin | src/pages/Chatbot.jsx:20 | splitting a join of separator-free words gives the words back |
| Text.TrimSpec | src/pages/Chatbot.jsx:24-31 | the trimmed text is a contiguous piece of the input with only white space around it; it starts and ends with no white space; it is empty exactly when the input is all white space |
| Text.DigitChar | src/pages/Irrigation.jsx:55 | the character of a decimal digit is a digit character whose code lies that far above '0' |
| Text.NatToString | src/pages/Irrigation.jsx:55 | the decimal text of a status code is non-empty, all digits, and has no leading zero |
| Text.NatToStringValue | src/pages/Irrigation.jsx:55 | reading the printed digits back, most significant first, gives the number that was printed |
| Fetching.StatusMessage | src/pages/Irrigation.jsx:55 | the error for a status that is not ok is "Error: " followed by digits that denote the status code; the same text is built at src/pages/Charts.jsx:47, src/pages/Charts.jsx:77 and src/pages/DisasterAlerts.jsx:18 |
| Text.ContainsIffOccurs | src/pages/CropsData.jsx:44-45 | `includes` holds exactly when the text occurs at some position |
| Text.ToLowerIdempotent | src/pages/CropsData.jsx:44 | lower-casing twice is lower-casing once |

## Left out

- Network, geolocation, the geocoding search (`searchByLocation`), URL and date-range construction, and `console` logging are left out. A provider's answer is a parameter of the fetch method that reads it.
- React rendering, effects, animation and the asynchronous order of state updates are left out. Each handler is one atomic state change.
- Presentation rounding (`toFixed`, `Math.round`) is left out, except the soil card's `toFixed(1)`, modelled by `Irrigation.ToFixed1`. The model keeps exact rational numbers, not IEEE floating point.
- Pages that are not part of this model: About, Connect, Contact, Disease, Eksplorasi, ErrorPage, Gallery, Homepage, Prediksi, Rekomendasi, WaterConservation and the components.
- CropSuggestion.CropSuggestionPage.FetchWeatherData uses the corrected coordinate guard, not the guard as written (see Findings). It states the fallback crops as the filter applied to the fallback summary. `CropSuggestion.FallbackRecommendations` names the five crops.
- CropSuggestion.Recommend: the `try`/`catch` around the filter is left out, because the filter over a fixed catalog cannot throw.
- CropSuggestion.SummaryOf: the `isNaN` fallbacks of the processed data are left out. With finite readings neither average can be NaN, and NaN readings are not modelled.
- Irrigation.IrrigationPage.FetchData: when no reading is valid, the source stores NaN as the average and advice computed from NaN (status "maintain", amounts "NaN"). The model stores no average and no advice. The model also uses the corrected coordinate guard.
- Irrigation.CalculateIrrigationNeeds: the amounts are returned as exact numbers rather than `toFixed(1)` strings; the soil card applies `ToFixed1` to the deficit before comparing it, as the page's string-to-number comparison does. Rounding is on exact reals, not on binary floating point.
- Chatbot.ChatSession.SendMessage: a chunk whose `text` is `undefined` (appended as the word "undefined") is not modelled, because a stream is a sequence of strings.
- The generative model call is not modelled: its outcome is a `Reply` parameter.
- DisasterAlerts.Assess: `null` entries in the discharge series are not modelled. The series is a sequence of numbers.
- Charts.ChartsPage.FetchMoistureData: the text of a TypeError comes from the JavaScript engine. It is represented by one constant.
- Text.ToLower maps only A-Z. Full Unicode case mapping is not modelled; every crop name and filter value is ASCII.
- Power: the numeric-key ordering rules of `Object.keys` are not modelled. A parameter object's entries are taken in the provider's order, which is ascending by date.

## Findings

| source | as written | input that shows it | evidently intended | confidence | as-written member | corrected member |
|---|---|---|---|---|---|---|
| src/pages/CropSuggestion.jsx:201 | the coordinate guard tests each coordinate for JavaScript falsiness, so a latitude or longitude of exactly 0 is refused like a missing one (the same guard is at src/pages/Irrigation.jsx:34) | latitude 0.0, longitude 32.5 (a point on the equator) is refused with "Invalid location coordinates" | refuse only coordinates that were not delivered, as src/pages/Charts.jsx:36 does | medium, not executed | Location.EquatorRejectedAsWritten | Location.ValidCoordinatesAccepted |
| src/pages/Charts.jsx:352-369 | both soil-wetness charts pass the monthly provider's six-character `YYYYMM` keys to the daily formatter of src/pages/Charts.jsx:126-128, whose third slice is then empty | the key 202001 is labelled "2020-01-" | label monthly keys `YYYY-MM` | medium, not executed | Charts.MonthlyLabelAsWritten | Charts.AxisLabelRoundTrip |
