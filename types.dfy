/** The records shared by the weather service, the AI layout service and the
    visual components (types.ts), with `Math.round` and keyed field access,
    which the components use to read a record by a field name chosen at run time. */
module Types {
  import opened Wrappers

  datatype Unit = Metric | Imperial

  /** One day of a city's forecast. */
  datatype DailyForecast = DailyForecast(day: string, temp: int, humidity: int, chanceOfRain: int)

  /** One city's current conditions together with its daily forecast. */
  datatype WeatherData = WeatherData(
    city: string, country: string,
    temp: real, feelsLike: real, tempMin: real, tempMax: real,
    humidity: int, pressure: int, windSpeed: real,
    description: string, icon: string,
    sunrise: int, sunset: int, lon: real, lat: real,
    forecast: seq<DailyForecast>)

  /** A JavaScript value read from a record by key: `undefined`, a string, a number
      or the forecast array. */
  datatype Value = Undefined | Text(s: string) | Number(x: real) | Forecasts(items: seq<DailyForecast>)

  /** The keys of `WeatherData`, in declaration order. */
  const WeatherKeys: seq<string> := [
    "city", "country", "temp", "feels_like", "temp_min", "temp_max", "humidity",
    "pressure", "wind_speed", "description", "icon", "sunrise", "sunset", "lon", "lat",
    "forecast"]

  /** The keys of `DailyForecast`. */
  const ForecastKeys: seq<string> := ["day", "temp", "humidity", "chance_of_rain"]

  /** `data[key]`. */
  function FieldValue(d: WeatherData, key: string): (v: Value)
    ensures v != Undefined <==> key in WeatherKeys
  {
    match key
    case "city" => Text(d.city)
    case "country" => Text(d.country)
    case "temp" => Number(d.temp)
    case "feels_like" => Number(d.feelsLike)
    case "temp_min" => Number(d.tempMin)
    case "temp_max" => Number(d.tempMax)
    case "humidity" => Number(d.humidity as real)
    case "pressure" => Number(d.pressure as real)
    case "wind_speed" => Number(d.windSpeed)
    case "description" => Text(d.description)
    case "icon" => Text(d.icon)
    case "sunrise" => Number(d.sunrise as real)
    case "sunset" => Number(d.sunset as real)
    case "lon" => Number(d.lon)
    case "lat" => Number(d.lat)
    case "forecast" => Forecasts(d.forecast)
    case _ => Undefined
  }

  /** `forecastEntry[key]`. */
  function ForecastFieldValue(f: DailyForecast, key: string): (v: Value)
    ensures v != Undefined <==> key in ForecastKeys
  {
    match key
    case "day" => Text(f.day)
    case "temp" => Number(f.temp as real)
    case "humidity" => Number(f.humidity as real)
    case "chance_of_rain" => Number(f.chanceOfRain as real)
    case _ => Undefined
  }

  /** `Math.round`: the nearest integer, halves rounded up (towards +infinity). */
  function Round(x: real): (r: int)
    ensures r as real <= x + 0.5 < r as real + 1.0
  {
    (x + 0.5).Floor
  }

  lemma RoundMonotonic(x: real, y: real)
    requires x <= y
    ensures Round(x) <= Round(y)
  {
  }

  lemma RoundOfInteger(n: int)
    ensures Round(n as real) == n
  {
  }

  /** One visual component of a layout, with the props its type requires. */
  datatype UiComponentConfig =
    | TableComponent(title: string, cities: seq<string>, dataKeys: seq<string>)
    | CardComponent(title: string, cities: seq<string>)
    | BarChartComponent(title: string, dataKeys: seq<string>)
    | LineChartComponent(title: string, xAxisKey: string, yAxisKey: string, cities: seq<string>,
                         limitDays: Option<int>)
    | ScatterChartComponent(title: string, xAxisKey: string, yAxisKey: string, zAxisKey: string)

  /** The layout the AI service describes: a blurb, an image prompt and the components in display order. */
  datatype GeneratedLayout = GeneratedLayout(blurb: string, imagePrompt: string, uiComponents: seq<UiComponentConfig>)
}
