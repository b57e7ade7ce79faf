# A verified model of the brutalcast weather pipeline

brutalcast compares the weather of several cities. It fetches each city's current
conditions and 3-hour forecast from the OpenWeather API. It condenses the forecast into at
most five daily summaries and asks a Gemini model for a layout: a blurb, an image prompt and
a list of visual components. It then renders each component (table, cards, bar, line and
scatter charts) from the weather records.

This project models, in Dafny, the parts of that pipeline that hold real logic:

- `Forecast`: the daily aggregation in `getWeatherForCity`. Samples are grouped by local
  calendar date, the first five distinct dates are kept, the first sample at or after
  12:00 UTC (else the middle one) gives the temperature, humidity is averaged and rain
  probability maximised, and a date whose weekday label was already emitted is skipped.
  The loop is a method proved equal to a recursive specification. Lemmas about that
  specification give at most five entries, distinct labels, and for each entry its source
  date, its bucket, its field values and the first-seen order of the dates.
- `WeatherService`: the two error checks per city, the all-or-nothing fan-out over the
  cities, and the keying of each result by the requested spelling of its city, matched
  ignoring case.
- `SearchForm`: the parsing of the comma-separated city list.
- `RateLimit`: the `useRateLimit` hook, as a class whose state mirrors the browser storage.
- `GeminiService`: the choice of generation instructions, the trim/parse/validate step of
  the layout text with its single error message, and the image data URL.
- `LineChart`, `Table`, `Card`, `ScatterChart`, `BarChart`, `UnitLabels`: the data
  selection inside each visual component. This covers the city filters (case-insensitive
  for the line chart, exact for the table and the cards), the line chart's pivot into one
  row per x-value, header labels, unit symbols, tooltip text and series colours.
- `Types`, `Strings`, `Seqs`, `Wrappers`: the records of `types.ts`, `Math.round`,
  field access by a key chosen at run time, and the JavaScript string and array operations
  used (`toLowerCase`, `includes`, `trim`, `split`, `filter`, `map`, `new Set`).

Inputs the code does not compute are parameters:
- the HTTP responses;
- the runtime's clock, time zone and locale (a `Calendar` of three functions);
- `JSON.parse`;
- the Gemini calls;
- JavaScript's number-to-string conversion (`show`);
- the current time passed to the rate limiter.

The model follows the code as written, in particular:
- The table and cards select records by exact city name. The line chart matches ignoring case.
- The map `getWeatherForCities` returns is keyed by the matched requested name, or by the
  server's name when no requested name matches. So it need not cover exactly the requested
  cities.
- After parsing, the layout check looks only at `blurb`, `imagePrompt` and whether
  `uiComponents` is an array. Components are not validated (`ComponentsNotInspected`).

## Model

| member | source | states |
|---|---|---|
| Types.FieldValue | types.ts:10-27 | reading a record by key gives a value exactly for the sixteen declared fields of `WeatherData`, `undefined` for any other own key |
| Types.ForecastFieldValue | types.ts:3-8 | reading a daily entry by key gives a value exactly for its four declared fields, `undefined` for any other own key |
| Types.Round | services/weatherService.ts:60-65 | `Math.round` gives the integer `r` with `r <= x + 0.5 < r + 1`, halves rounding up |
| Strings.Lower | services/weatherService.ts:104 | `toLowerCase` keeps the length and lower-cases each character (ASCII letters) |
| Strings.LowerAllMembership | components/ui/WeatherLineChart.tsx:32-33 | a name's lower-case form is in the lower-cased list iff some listed name equals it ignoring case |
| Strings.Includes | components/ui/WeatherLineChart.tsx:18-26 | `includes` is true iff the pattern occurs at some position of the text |
| Strings.Trim | components/SearchForm.tsx:16 | `trim` neither starts nor ends with whitespace, is no longer than its input and is empty iff the input is all whitespace |
| Strings.TrimPadded | components/SearchForm.tsx:16 | trimming whitespace-padded text gives back exactly the text when it neither starts nor ends with whitespace |
| Strings.Split | components/SearchForm.tsx:16 | `split` on a character gives one more piece than there are separators |
| Strings.SplitPiecesFree | components/SearchForm.tsx:16 | no piece of `split` contains the separator |
| Strings.JoinSplit | components/SearchForm.tsx:16 | joining the pieces of `split` with the separator gives back the input |
| Seqs.Filter | components/ui/WeatherTable.tsx:32 | `filter` keeps exactly the elements that satisfy the predicate, adding none |
| Seqs.FilterAppend | components/ui/WeatherTable.tsx:32 | `filter` keeps the input order: it distributes over concatenation |
| Seqs.Distinct | services/weatherService.ts:38 | `[...new Set(xs)]` has no duplicates and holds exactly the values of `xs` |
| Seqs.DistinctFirstSeenOrder | services/weatherService.ts:38 | the distinct values come out in the order of their first occurrence |
| Forecast.LocalDates | services/weatherService.ts:30-38 | one local date string per sample, in list order |
| Forecast.SelectedDates | services/weatherService.ts:38-41 | the visited dates are at most five, pairwise distinct, and dates of the forecast list |
| Forecast.SelectedDatesSpec | services/weatherService.ts:38-41 | there are `min(5, number of distinct dates)` visited dates, in first-seen order, and every date left out is first seen after all the visited ones |
| Seqs.DistinctPrefix | services/weatherService.ts:38-41 | a prefix of the distinct values of a list is in first-seen order, and every value left out is first seen after all the kept ones |
| Forecast.Bucket | services/weatherService.ts:42 | the bucket of a date holds every sample of that local date and no other |
| Forecast.BucketAppend | services/weatherService.ts:42 | filtering keeps list order: the bucket of a concatenation is the concatenation of the buckets |
| Forecast.BucketFirst | services/weatherService.ts:42 | the bucket of a date of the list is non-empty and starts with the first sample of that date in the list |
| Forecast.DaySummaryLabel | services/weatherService.ts:42-45 | a date's label is the weekday of the first sample of that date in the forecast list |
| Forecast.SelectedBucketsNonEmpty | services/weatherService.ts:41-44 | every selected date has at least one sample: the `length > 0` guard never skips a date |
| Forecast.FirstAfternoon | services/weatherService.ts:54 | `find` returns the first sample at or after 12:00 UTC, and none iff no sample is |
| Forecast.NoonIndex | services/weatherService.ts:54 | the chosen sample is the first at or after 12:00 UTC, else the middle one (`length / 2`), always in range |
| Forecast.MeanHumidityWithinBounds | services/weatherService.ts:57 | the rounded mean humidity lies within any bounds of the bucket's humidities |
| Forecast.MaxPop | services/weatherService.ts:58 | `Math.max` of the rain probabilities is one of them and at least all of them |
| Forecast.SummaryFields | services/weatherService.ts:45-65 | an entry's label is its first sample's weekday, its temperature the rounded noon-ish one, its humidity within the bucket's bounds and its rain chance the largest rounded `pop * 100` |
| Forecast.AggregateForecast | services/weatherService.ts:24-67 | the `forEach` loop over the selected dates with its label set computes `Aggregate` |
| Forecast.AggregateAtMostFive | services/weatherService.ts:41 | the forecast has at most five entries |
| Forecast.AggregateDistinctDays | services/weatherService.ts:45-51 | no two entries share a weekday label |
| Forecast.AggregateSources | services/weatherService.ts:41-65 | each entry is the summary of the non-empty bucket of one of the visited dates |
| Forecast.EmittedFresh | services/weatherService.ts:45-51 | the loop emits a date iff its bucket is non-empty, its label is not yet seen, and no earlier visited date has that label |
| Forecast.AggregateEmitsNewLabels | services/weatherService.ts:41-51 | a visited date yields an entry iff its label differs from the label of every earlier visited date |
| Forecast.AggregateCoversSelectedLabels | services/weatherService.ts:41-65 | the label of every visited date is the label of some entry |
| Forecast.AggregateOfNonEmpty | services/weatherService.ts:24-67 | a non-empty forecast list gives at least one entry |
| Forecast.AggregateFirstSeenOrder | services/weatherService.ts:38-41 | the entries' dates appear in the order they are first seen in the forecast list |
| Forecast.AggregateOfEmpty | services/weatherService.ts:24-67 | an empty forecast list gives an empty forecast |
| WeatherService.GetWeatherForCity | services/weatherService.ts:12-87 | the per-city result from the two responses equals `Snapshot` |
| WeatherService.SnapshotProperties | services/weatherService.ts:12-87 | a snapshot exists iff both responses are ok, the current-conditions error is reported first, and a snapshot has the server's name, a rounded temperature and the aggregated forecast of at most five distinct-label entries |
| WeatherService.FetchAllSpec | services/weatherService.ts:96-98 | the fan-out succeeds iff every city does, then holds their snapshots in request order; a failure carries a failing city's error |
| WeatherService.FirstMatch | services/weatherService.ts:104 | `find` returns the first requested city equal to the name ignoring case, and none iff no city is |
| WeatherService.KeyFor | services/weatherService.ts:104 | the key is the first case-insensitive match among the requested cities, else the server's name |
| WeatherService.KeyAllKeys | services/weatherService.ts:100-106 | the keys of the map are exactly the keys of the results |
| WeatherService.KeyAllLastWins | services/weatherService.ts:100-106 | a result whose key no later result shares is the value stored under that key |
| WeatherService.KeyResults | services/weatherService.ts:100-106 | the keying `forEach` computes `KeyAll` |
| WeatherService.GetWeatherForCities | services/weatherService.ts:90-109 | the whole call equals `WeatherForCities` and fails with the missing-key message when the key is empty |
| WeatherService.AllOrNothing | services/weatherService.ts:90-109 | with a key, a map results iff every city's snapshot succeeds; otherwise its error is a failing city's |
| WeatherService.RequestedSpellingKept | services/weatherService.ts:104 | a request for `paris` answered as `Paris` is keyed `paris` |
| UnitLabels.SymbolsFollowUnit | components/ui/WeatherCard.tsx:17-18 | Fahrenheit and mph go with the imperial system and only with it; Celsius and m/s with the metric one |
| UnitLabels.LineSymbol | components/ui/WeatherLineChart.tsx:18-26 | a key containing `temp` gets the degree symbol; else one containing `humidity` or `chance_of_rain` gets `%`; otherwise nothing |
| UnitLabels.ChartSymbol | components/ui/WeatherScatterChart.tsx:15-25 | a key containing `temp` or `feels_like` gets the degree symbol, else one containing `wind` the speed symbol, else exactly `humidity` gets `%` and exactly `pressure` gets `hPa`, otherwise nothing |
| UnitLabels.SymbolRanges | components/ui/WeatherBarChart.tsx:15-25 | each helper yields one of a fixed set of symbols |
| UnitLabels.UnitFreeSymbols | components/ui/WeatherBarChart.tsx:15-25 | whether a key gets `%` or `hPa` does not depend on the unit system |
| UnitLabels.ChartSymbolsOfTemperatureFields | components/ui/WeatherScatterChart.tsx:15-25 | the four temperature fields get the degree symbol |
| UnitLabels.ChartSymbolOfWindField | components/ui/WeatherScatterChart.tsx:15-25 | `wind_speed` gets the speed symbol |
| UnitLabels.ChartSymbolsOfExactNames | components/ui/WeatherScatterChart.tsx:15-25 | `humidity` gets `%`, `pressure` gets `hPa`, `sunrise` gets nothing |
| UnitLabels.LineSymbolsOfForecastFields | components/ui/WeatherLineChart.tsx:18-26 | the forecast fields `temp`, `humidity`, `chance_of_rain` and `day` get the degree symbol, `%`, `%` and nothing |
| LineChart.SelectedCities | components/ui/WeatherLineChart.tsx:32-33 | the charted records come from the input and each has a non-empty forecast |
| LineChart.SelectedCitiesMembership | components/ui/WeatherLineChart.tsx:32-33 | a record is charted iff a requested city equals its city ignoring case and its forecast is non-empty |
| LineChart.SelectedCitiesOrder | components/ui/WeatherLineChart.tsx:32-33 | the filter keeps the input order |
| LineChart.SliceEnd | components/ui/WeatherLineChart.tsx:51 | the end index of `slice(0, end)`: `min(end, n)` for `end >= 0`, and `max(0, n + end)` for a negative end |
| LineChart.OrderedXValues | components/ui/WeatherLineChart.tsx:50-51 | the x-values are the reference forecast's values under the x key, in order, cut by `slice(0, limitDays)` with five by default |
| LineChart.FirstWithX | components/ui/WeatherLineChart.tsx:57 | `find` returns the first forecast entry with the x-value, and none iff no entry has it |
| LineChart.BuildDataPoint | components/ui/WeatherLineChart.tsx:54-62 | the inner `forEach` computes `Point` |
| LineChart.PointsFor | components/ui/WeatherLineChart.tsx:53-64 | one point per x-value, in order |
| LineChart.ChartData | components/ui/WeatherLineChart.tsx:53-64 | the outer `map` computes `Rows` |
| LineChart.RowCount | components/ui/WeatherLineChart.tsx:50-53 | no rows without a charted city; otherwise the smaller of `limitDays` (five by default) and the reference forecast's length, that length less `-limitDays` (not below zero) for a negative limit, and at least one for a positive limit |
| LineChart.PointKeys | components/ui/WeatherLineChart.tsx:54-61 | every key of a point is the x key or a charted city's name, and the x key is present |
| LineChart.PointX | components/ui/WeatherLineChart.tsx:54 | with no city named like the x key, the point's x property is its x-value |
| LineChart.PointColumn | components/ui/WeatherLineChart.tsx:56-61 | a city's column is set iff its forecast has an entry with the x-value, and holds the y-value of the first such entry, whatever its position |
| LineChart.RowXValues | components/ui/WeatherLineChart.tsx:50-64 | row `i` is the point for the reference forecast's `i`-th x-value |
| LineChart.PivotExample | components/ui/WeatherLineChart.tsx:50-64 | two cities, the second missing Tuesday: a Monday row with both and a Tuesday row with the first only |
| Table.KeyLabel | components/ui/WeatherTable.tsx:11-29 | a key has a label iff it is a weather field, and every label is non-empty |
| Table.HeaderLabel | components/ui/WeatherTable.tsx:44 | the header is the field's label for a weather field and the raw key for any other |
| Table.LabelledIffField | components/ui/WeatherTable.tsx:11-29 | a key is labelled exactly when records have a value under it |
| Table.TemperatureLabelsFollowUnit | components/ui/WeatherTable.tsx:11-29 | the four temperature labels contain the unit's degree symbol |
| Table.OtherLabelsFollowUnit | components/ui/WeatherTable.tsx:11-29 | the wind label contains the speed symbol; the humidity and pressure labels are the same in both systems |
| Table.TableRows | components/ui/WeatherTable.tsx:32 | a record is shown iff its city is exactly one of the requested cities |
| Table.TableRowsOrder | components/ui/WeatherTable.tsx:32 | the shown records keep the input order |
| Table.TableRowsCaseSensitive | components/ui/WeatherTable.tsx:32 | a request for `london` does not show a `London` record |
| Table.Headers | components/ui/WeatherTable.tsx:34 | the first header is `city` |
| Table.HeadersShape | components/ui/WeatherTable.tsx:34 | `city` appears only first; the other headers are exactly the data keys other than `city` |
| Table.HeadersOrder | components/ui/WeatherTable.tsx:34 | the headers keep the order of the data keys |
| Table.Cells | components/ui/WeatherTable.tsx:50-56 | one cell per header, in header order: cell `i` is the record's value under header `i` |
| Table.WeatherTableShape | components/ui/WeatherTable.tsx:32-56 | one label per header, the first `City`; one row per shown record, each with one cell per header, the first being the record's city |
| Card.WeatherCards | components/ui/WeatherCard.tsx:11-36 | the no-data message shows iff no record's city is exactly requested; otherwise one card per shown record in order, with rounded temperatures and the system's units |
| Card.CardValues | components/ui/WeatherCard.tsx:22-36 | a card's temperatures are within half a degree of the record's, and its units are °F and mph iff the system is imperial |
| ScatterChart.ObjectsString | components/ui/WeatherScatterChart.tsx:61-66 | `String` of an array of objects is empty iff the array is |
| ScatterChart.FormatValue | components/ui/WeatherScatterChart.tsx:61-66 | a number shows through the number conversion, a string unchanged, `undefined` as `N/A` |
| ScatterChart.FormatFieldValue | components/ui/WeatherScatterChart.tsx:61-66 | a key that is not a weather field shows `N/A`; number fields show their number, text fields their text |
| ScatterChart.ScatterTooltip | components/ui/WeatherScatterChart.tsx:51-92 | no tooltip iff inactive or without payload; otherwise the first record's city and its x, y and z lines |
| ScatterChart.TooltipLineParts | components/ui/WeatherScatterChart.tsx:84-92 | a line is the key, `: `, the formatted value and the key's unit symbol, in that order |
| ScatterChart.TemperatureLineUnit | components/ui/WeatherScatterChart.tsx:84-92 | an imperial temperature line ends in `°F` |
| BarChart.BarTooltip | components/ui/WeatherBarChart.tsx:39 | the tooltip is the shown value, a space and the series' unit symbol |
| BarChart.BarTooltipWithoutSymbol | components/ui/WeatherBarChart.tsx:39 | a series without a symbol ends its tooltip in a bare space |
| BarChart.Series | components/ui/WeatherBarChart.tsx:42-44 | one bar per data key, in order, named and keyed by it, filled with a palette colour |
| BarChart.SeriesColours | components/ui/WeatherBarChart.tsx:11-44 | the colour of bar `i` is palette entry `i mod 3`: colours repeat every third bar and bars less than three apart differ |
| SearchForm.TrimAll | components/SearchForm.tsx:16 | each piece is trimmed, in order |
| SearchForm.ParseCities | components/SearchForm.tsx:16 | at most one name per comma-separated piece; every name is non-empty and trimmed |
| SearchForm.ParseCitiesMembership | components/SearchForm.tsx:16 | a name is parsed iff it is non-empty and one of the trimmed pieces |
| SearchForm.ParseCitiesOrder | components/SearchForm.tsx:16 | parsing `a,b` gives the names of `a` followed by those of `b` |
| SearchForm.ParseCitiesSingle | components/SearchForm.tsx:16 | text without a comma is one trimmed name, or none when blank |
| SearchForm.HandleSubmit | components/SearchForm.tsx:14-20 | a search starts iff a city is left, carrying the parsed cities, the prompt and the unit |
| SearchForm.BlankInputSubmitsNothing | components/SearchForm.tsx:14-20 | a blank input starts no search |
| RateLimit.NextReset | hooks/useRateLimit.ts:37-42 | the reset time is now plus one hour, or the kept current one, and never in the past |
| RateLimit.NextResetKeepsOpenWindow | hooks/useRateLimit.ts:39-42 | a running window is kept as it is |
| RateLimit.NextResetOpensWindow | hooks/useRateLimit.ts:39-42 | a missing, zero or expired window is replaced by one ending an hour from now |
| RateLimit.RateLimiter.constructor | hooks/useRateLimit.ts:14-15 | a fresh hook: count 0, no reset time, the storage as given |
| RateLimit.RateLimiter.Load | hooks/useRateLimit.ts:17-33 | an expired entry is removed and the state cleared, a live one is adopted, and nothing changes without one; the state then mirrors the storage |
| RateLimit.RateLimiter.Increment | hooks/useRateLimit.ts:35-51 | the count rises by exactly one, the reset time follows `NextReset`, and the new pair is stored |
| RateLimit.RateLimiter.IsRateLimited | hooks/useRateLimit.ts:53 | limited iff the count reaches ten |
| RateLimit.RateLimiter.RemainingRequests | hooks/useRateLimit.ts:54 | never negative, zero iff limited, at most ten, and ten minus the count below the limit |
| RateLimit.LoadThenRequest | hooks/useRateLimit.ts:17-51 | after a load and a request, the count is 1 in a fresh window, or the stored count plus one in a live stored window, and the storage holds the new state |
| GeminiService.Instructions | services/geminiService.ts:78-94 | automatic instructions iff the prompt is all whitespace; otherwise the prompt is quoted as given |
| GeminiService.GenerateUiLayout | services/geminiService.ts:120-143 | the layout is returned exactly as parsed iff the call succeeds, the trimmed text parses and the check passes; every failure gives the one fixed message |
| GeminiService.PaddingIgnored | services/geminiService.ts:130-131 | whitespace around the model's text makes no difference |
| GeminiService.LayoutExamples | services/geminiService.ts:134 | a complete layout passes the check; a missing or empty blurb, a non-array component list and a non-object fail it |
| GeminiService.SchemaLayoutAccepted | services/geminiService.ts:6-66 | a layout written as the schema describes passes the check iff its blurb and image prompt are non-empty |
| GeminiService.ComponentsNotInspected | services/geminiService.ts:134 | any component array passes the check |
| GeminiService.GenerateImage | services/geminiService.ts:146-168 | a URL results iff the call succeeds with at least one image, and is the JPEG data-URL prefix plus the first image's bytes; every failure gives the one fixed message |
| GeminiService.ImageUrlPayload | services/geminiService.ts:158-160 | the URL starts with the prefix and the first image's bytes can be read back from it |

## Left out

- The HTTP layer (`fetch`, URLs, `response.json()`): the two responses of a city are a parameter.
- The concurrency of `Promise.all`: the fan-out is a fold in list order, so when several
  cities fail, the model reports the first in list order. The code reports whichever
  rejection settles first.
- The time zone and locale functions (`getLocalDateString`, `toLocaleDateString` with
  `en-US`, `getUTCHours`): they are the three functions of a `Calendar` parameter.
- Floating point: numbers are exact reals, so `Math.round` is exact.
- WeatherService.Snapshot: does not model `parseFloat(speed.toFixed(1))`. The wind speed
  is copied unrounded, because decimal formatting of floating point is out of scope.
- Strings.Lower: lower-cases only the ASCII letters. JavaScript's full Unicode case mapping
  is not modelled.
- `JSON.parse` and `JSON.stringify`: parsing is a parameter returning `None` when it throws.
- The Gemini SDK calls and the prompt text: the calls are parameters; the requested model
  names and generation options are not modelled.
- `console.error` logging in the two catch blocks.
- React rendering, recharts and the markup of every component. Only the data each one
  computes is modelled.
- Table.KeyLabel, Types.FieldValue, Types.ForecastFieldValue: JavaScript object-prototype
  property names such as `constructor` are read from an object too, so an indexed read with
  such a name gives an inherited value. The model gives them no label and no value.
- Table.Cells: `String(value)` of a cell is not modelled. A cell is the raw value.
- ScatterChart.FormatValue, BarChart.BarTooltip: a number's text is the parameter `show`,
  since JavaScript's number-to-string conversion is not modelled.
- Types.FieldValue: `forecast` is optional in `types.ts`. The model always has a list, and
  an absent forecast is an empty one.
- The mapping of the provider's JSON (`weather[0]`, `main`, `sys`, `coord`) into
  `CurrentConditions`. The responses are given already parsed.
- GeminiService.GenerateImage: an image whose `imageBytes` is missing would give the text
  `undefined` in the URL. The model always has bytes.
- App.tsx, ApiKeyContext, ApiKeyInput, Loader and ResultsDisplay: the wiring between the
  components is not part of this model.
- The line chart's tooltip formatter and its five-colour palette: only presentation.
- LineChart.OrderedXValues: a `limitDays` that is not an integer (or is `null`) is not
  modelled. The prop is an optional integer.
- LineChart.PointColumn, LineChart.RowXValues: proved for charted city names that are
  distinct and differ from the x-axis key. With such a collision one column overwrites
  another, which `Point` models but no lemma describes.
- React state updates: a stale closure over `requestCount` when `incrementCount` runs twice
  in one render is not modelled. Each call sees the previous call's state.
