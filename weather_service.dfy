/** `getWeatherForCity` and `getWeatherForCities` (services/weatherService.ts):
    one snapshot per city from its two provider responses, all-or-nothing across
    the cities, keyed by the requested spelling of each city. */
module WeatherService {
  import opened Wrappers
  import opened Types
  import opened Strings
  import opened Forecast

  /** The fields of the provider's current-conditions body that the snapshot copies
      (`weather[0]` already taken for the description and the icon). */
  datatype CurrentConditions = CurrentConditions(
    name: string, country: string,
    temp: real, feelsLike: real, tempMin: real, tempMax: real,
    humidity: int, pressure: int, windSpeed: real,
    description: string, icon: string,
    sunrise: int, sunset: int, lon: real, lat: real)

  /** An HTTP response: `ok` with its parsed body, or not `ok` with the `message` of its error body. */
  datatype Response<T> = Ok(body: T) | NotOk(message: string)

  /** The two responses fetched for one city. */
  datatype CityResponses = CityResponses(current: Response<CurrentConditions>, forecast: Response<seq<Sample>>)

  const MissingKeyMessage := "OpenWeather API key is not configured."

  function WeatherErrorMessage(city: string, message: string): string {
    "Could not fetch weather for \"" + city + "\": " + message
  }

  function ForecastErrorMessage(city: string, message: string): string {
    "Could not fetch forecast for \"" + city + "\": " + message
  }

  // ---------------------------------------------------------------------------
  // One city

  /** The returned record: the current conditions with the four temperatures rounded,
      and the daily forecast. */
  function ToWeatherData(cur: CurrentConditions, dailyForecasts: seq<DailyForecast>): WeatherData {
    WeatherData(
      cur.name, cur.country,
      Round(cur.temp) as real, Round(cur.feelsLike) as real,
      Round(cur.tempMin) as real, Round(cur.tempMax) as real,
      cur.humidity, cur.pressure, cur.windSpeed,
      cur.description, cur.icon, cur.sunrise, cur.sunset, cur.lon, cur.lat,
      dailyForecasts)
  }

  /** The result of `getWeatherForCity` for the given responses. */
  function Snapshot(city: string, responses: CityResponses, cal: Calendar): Result<WeatherData, string> {
    match responses
    case CityResponses(NotOk(message), _) => Failure(WeatherErrorMessage(city, message))
    case CityResponses(Ok(_), NotOk(message)) => Failure(ForecastErrorMessage(city, message))
    case CityResponses(Ok(cur), Ok(list)) => Success(ToWeatherData(cur, Aggregate(list, cal)))
  }

  /** `getWeatherForCity` after its two fetches: the error checks, the forecast loop
      and the field mapping. */
  method GetWeatherForCity(city: string, responses: CityResponses, cal: Calendar) returns (r: Result<WeatherData, string>)
    ensures r == Snapshot(city, responses, cal)
  {
    if responses.current.NotOk? {
      return Failure(WeatherErrorMessage(city, responses.current.message));
    }
    if responses.forecast.NotOk? {
      return Failure(ForecastErrorMessage(city, responses.forecast.message));
    }
    var cur := responses.current.body;
    var dailyForecasts := AggregateForecast(responses.forecast.body, cal);
    r := Success(ToWeatherData(cur, dailyForecasts));
  }

  /** A snapshot exists iff both responses are ok; a failing current-conditions response
      is reported first; a snapshot keeps the server's city name, integer temperatures
      and a forecast of at most five entries with distinct day labels. */
  lemma SnapshotProperties(city: string, responses: CityResponses, cal: Calendar)
    ensures Snapshot(city, responses, cal).Success? <==> responses.current.Ok? && responses.forecast.Ok?
    ensures responses.current.NotOk? ==>
              Snapshot(city, responses, cal) == Failure(WeatherErrorMessage(city, responses.current.message))
    ensures responses.current.Ok? && responses.forecast.NotOk? ==>
              Snapshot(city, responses, cal) == Failure(ForecastErrorMessage(city, responses.forecast.message))
    ensures Snapshot(city, responses, cal).Success? ==>
              var d := Snapshot(city, responses, cal).value;
              && d.city == responses.current.body.name
              && d.temp == Round(responses.current.body.temp) as real
              && d.forecast == Aggregate(responses.forecast.body, cal)
              && |d.forecast| <= MaxDays
              && forall i, j :: 0 <= i < j < |d.forecast| ==> d.forecast[i].day != d.forecast[j].day
  {
    if responses.current.Ok? && responses.forecast.Ok? {
      AggregateAtMostFive(responses.forecast.body, cal);
      AggregateDistinctDays(responses.forecast.body, cal);
    }
  }

  // ---------------------------------------------------------------------------
  // All cities

  /** `Promise.all(cities.map(getWeatherForCity))`, as a fold over the cities in order:
      the first failure fails the whole list. */
  function FetchAll(cities: seq<string>, snapshot: string -> Result<WeatherData, string>): Result<seq<WeatherData>, string>
    decreases |cities|
  {
    if cities == [] then Success([])
    else
      match FetchAll(cities[..|cities| - 1], snapshot)
      case Failure(e) => Failure(e)
      case Success(ds) =>
        var s := snapshot(cities[|cities| - 1]);
        if s.Failure? then Failure(s.error) else Success(ds + [s.value])
  }

  /** The fold succeeds iff every city's snapshot does, and then holds them in request
      order; when it fails, its error is that of a failing city. */
  lemma {:induction false} FetchAllSpec(cities: seq<string>, snapshot: string -> Result<WeatherData, string>)
    ensures FetchAll(cities, snapshot).Success? <==> forall i :: 0 <= i < |cities| ==> snapshot(cities[i]).Success?
    ensures FetchAll(cities, snapshot).Success? ==>
              |FetchAll(cities, snapshot).value| == |cities|
              && forall i :: 0 <= i < |cities| ==> snapshot(cities[i]) == Success(FetchAll(cities, snapshot).value[i])
    ensures FetchAll(cities, snapshot).Failure? ==>
              exists i :: 0 <= i < |cities| && snapshot(cities[i]) == Failure(FetchAll(cities, snapshot).error)
    decreases |cities|
  {
    if cities != [] {
      var n := |cities| - 1;
      var front := cities[..n];
      FetchAllSpec(front, snapshot);
      assert forall i :: 0 <= i < n ==> front[i] == cities[i];
      var prev := FetchAll(front, snapshot);
      var s := snapshot(cities[n]);
      if prev.Failure? {
        var i :| 0 <= i < n && snapshot(front[i]) == Failure(prev.error);
        assert snapshot(cities[i]) == Failure(prev.error);
      } else if s.Success? {
        var ds := prev.value + [s.value];
        assert FetchAll(cities, snapshot) == Success(ds);
        assert forall i :: 0 <= i < n ==> ds[i] == prev.value[i];
      }
    }
  }

  lemma {:induction false} FetchAllPrefixFailure(cities: seq<string>, n: nat, snapshot: string -> Result<WeatherData, string>)
    requires n <= |cities|
    requires FetchAll(cities[..n], snapshot).Failure?
    ensures FetchAll(cities, snapshot) == FetchAll(cities[..n], snapshot)
    decreases |cities| - n
  {
    if n < |cities| {
      var longer := cities[..n + 1];
      assert longer[..|longer| - 1] == cities[..n];
      FetchAllPrefixFailure(cities, n + 1, snapshot);
    } else {
      assert cities[..n] == cities;
    }
  }

  /** The index of the first requested city equal to `name` ignoring case. */
  function FirstMatch(cities: seq<string>, name: string): (r: Option<nat>)
    ensures r.Some? ==> r.value < |cities| && SameIgnoringCase(cities[r.value], name)
    ensures r.Some? ==> forall j :: 0 <= j < r.value ==> !SameIgnoringCase(cities[j], name)
    ensures r.None? <==> forall j :: 0 <= j < |cities| ==> !SameIgnoringCase(cities[j], name)
  {
    if cities == [] then None
    else if SameIgnoringCase(cities[0], name) then Some(0)
    else match FirstMatch(cities[1..], name)
      case None => None
      case Some(k) => Some(k + 1)
  }

  /** `cities.find(c => c.toLowerCase() === data.city.toLowerCase()) || data.city`. */
  function KeyFor(cities: seq<string>, name: string): (key: string)
    ensures FirstMatch(cities, name).Some? ==> key == cities[FirstMatch(cities, name).value]
    ensures FirstMatch(cities, name).None? ==> key == name
  {
    match FirstMatch(cities, name)
    case Some(k) => cities[k]
    case None => name
  }

  /** A record filled by storing `values[i]` under `keys[i]` in order, later entries
      overwriting earlier ones. */
  function Store(keys: seq<string>, values: seq<WeatherData>): map<string, WeatherData>
    requires |keys| == |values|
    decreases |keys|
  {
    if keys == [] then map[]
    else
      var n := |keys| - 1;
      Store(keys[..n], values[..n])[keys[n] := values[n]]
  }

  /** The key of every result, in order. */
  function KeysOf(cities: seq<string>, results: seq<WeatherData>): (keys: seq<string>)
    ensures |keys| == |results|
    ensures forall i :: 0 <= i < |results| ==> keys[i] == KeyFor(cities, results[i].city)
  {
    if results == [] then [] else [KeyFor(cities, results[0].city)] + KeysOf(cities, results[1..])
  }

  /** The record built by the key-matching `forEach`: each result stored under its key. */
  function KeyAll(cities: seq<string>, results: seq<WeatherData>): map<string, WeatherData> {
    Store(KeysOf(cities, results), results)
  }

  /** The keys of a stored record are exactly the keys stored. */
  lemma {:induction false} StoreKeys(keys: seq<string>, values: seq<WeatherData>)
    requires |keys| == |values|
    ensures forall k :: k in Store(keys, values) <==> k in keys
    decreases |keys|
  {
    if keys != [] {
      var n := |keys| - 1;
      StoreKeys(keys[..n], values[..n]);
      assert keys == keys[..n] + [keys[n]];
    }
  }

  /** An entry whose key is not stored again later is the one the record holds. */
  lemma {:induction false} StoreLastWins(keys: seq<string>, values: seq<WeatherData>, i: nat)
    requires |keys| == |values| && i < |keys|
    requires forall j :: i < j < |keys| ==> keys[j] != keys[i]
    ensures keys[i] in Store(keys, values) && Store(keys, values)[keys[i]] == values[i]
    decreases |keys|
  {
    var n := |keys| - 1;
    if i < n {
      var front := keys[..n];
      assert front[i] == keys[i];
      forall j | i < j < |front| ensures front[j] != front[i] {
        assert front[j] == keys[j];
      }
      StoreLastWins(front, values[..n], i);
    }
  }

  /** The keys of the record are exactly the keys of the results. */
  lemma KeyAllKeys(cities: seq<string>, results: seq<WeatherData>)
    ensures forall k :: k in KeyAll(cities, results) <==> k in KeysOf(cities, results)
  {
    StoreKeys(KeysOf(cities, results), results);
  }

  /** Each key holds the last result stored under it: a later result with the same key
      overwrites an earlier one. */
  lemma KeyAllLastWins(cities: seq<string>, results: seq<WeatherData>, i: nat)
    requires i < |results|
    requires forall j :: i < j < |results| ==> KeyFor(cities, results[j].city) != KeyFor(cities, results[i].city)
    ensures KeyFor(cities, results[i].city) in KeyAll(cities, results)
    ensures KeyAll(cities, results)[KeyFor(cities, results[i].city)] == results[i]
  {
    StoreLastWins(KeysOf(cities, results), results, i);
  }

  /** Storing one more result extends the record of the earlier ones by its key. */
  lemma KeyAllStep(cities: seq<string>, results: seq<WeatherData>, j: nat)
    requires j < |results|
    ensures KeyAll(cities, results[..j + 1]) == KeyAll(cities, results[..j])[KeyFor(cities, results[j].city) := results[j]]
  {
    var longer, shorter := KeysOf(cities, results[..j + 1]), KeysOf(cities, results[..j]);
    assert results[..j + 1][..j] == results[..j];
    assert longer[..j] == shorter;
  }

  /** What `getWeatherForCities` resolves to. */
  function WeatherForCities(cities: seq<string>, apiKey: string, fetch: string -> CityResponses, cal: Calendar): Result<map<string, WeatherData>, string> {
    if apiKey == "" then Failure(MissingKeyMessage)
    else
      match FetchAll(cities, c => Snapshot(c, fetch(c), cal))
      case Failure(e) => Failure(e)
      case Success(results) => Success(KeyAll(cities, results))
  }

  /** `getWeatherForCities`: `fetch` gives the two responses of each city for the
      chosen unit system and key. */
  method GetWeatherForCities(cities: seq<string>, apiKey: string, fetch: string -> CityResponses, cal: Calendar)
    returns (r: Result<map<string, WeatherData>, string>)
    ensures r == WeatherForCities(cities, apiKey, fetch, cal)
    ensures apiKey == "" ==> r == Failure(MissingKeyMessage)
  {
    if apiKey == "" {
      return Failure(MissingKeyMessage);
    }
    var results: seq<WeatherData> := [];
    var i := 0;
    while i < |cities|
      invariant 0 <= i <= |cities|
      invariant FetchAll(cities[..i], c => Snapshot(c, fetch(c), cal)) == Success(results)
    {
      var data := GetWeatherForCity(cities[i], fetch(cities[i]), cal);
      var prefix := cities[..i + 1];
      assert prefix[..|prefix| - 1] == cities[..i];
      if data.Failure? {
        FetchAllPrefixFailure(cities, i + 1, c => Snapshot(c, fetch(c), cal));
        return Failure(data.error);
      }
      results := results + [data.value];
      i := i + 1;
    }
    assert cities[..i] == cities;
    var weatherDataByCity := KeyResults(cities, results);
    return Success(weatherDataByCity);
  }

  /** The `forEach` that stores each result under the requested spelling of its city. */
  method KeyResults(cities: seq<string>, results: seq<WeatherData>) returns (weatherDataByCity: map<string, WeatherData>)
    ensures weatherDataByCity == KeyAll(cities, results)
  {
    weatherDataByCity := map[];
    var j := 0;
    while j < |results|
      invariant 0 <= j <= |results|
      invariant weatherDataByCity == KeyAll(cities, results[..j])
    {
      var data := results[j];
      var originalCityName := KeyFor(cities, data.city);
      KeyAllStep(cities, results, j);
      weatherDataByCity := weatherDataByCity[originalCityName := data];
      j := j + 1;
    }
    assert results[..j] == results;
  }

  /** With a non-empty key, the map exists iff every city's fetch succeeds (no partial
      results); otherwise the error is that of a failing city. */
  lemma AllOrNothing(cities: seq<string>, apiKey: string, fetch: string -> CityResponses, cal: Calendar)
    requires apiKey != ""
    ensures WeatherForCities(cities, apiKey, fetch, cal).Success? <==>
              forall i :: 0 <= i < |cities| ==> Snapshot(cities[i], fetch(cities[i]), cal).Success?
    ensures WeatherForCities(cities, apiKey, fetch, cal).Failure? ==>
              exists i :: 0 <= i < |cities| && Snapshot(cities[i], fetch(cities[i]), cal) == Failure(WeatherForCities(cities, apiKey, fetch, cal).error)
  {
    FetchAllSpec(cities, c => Snapshot(c, fetch(c), cal));
  }

  /** "paris" requested and "Paris" returned: the result is keyed "paris". */
  lemma RequestedSpellingKept()
    ensures KeyFor(["paris"], "Paris") == "paris"
  {
    LowerParis();
    assert FirstMatch(["paris"], "Paris") == Some(0);
  }

  lemma LowerParis()
    ensures SameIgnoringCase("paris", "Paris")
  {
    var a, b := Lower("paris"), Lower("Paris");
    assert forall i :: 0 <= i < 5 ==> a[i] == b[i];
  }
}
