/** The data-selection part of `WeatherScatterChart` (components/ui/WeatherScatterChart.tsx):
    the tooltip's guard, the formatting of the three plotted values and their unit symbols. */
module ScatterChart {
  import opened Wrappers
  import opened Types
  import opened UnitLabels

  /** `String(array)` for an array of `n` plain objects. */
  function ObjectsString(n: nat): (s: string)
    ensures n == 0 <==> s == ""
  {
    if n == 0 then "" else if n == 1 then "[object Object]" else "[object Object]," + ObjectsString(n - 1)
  }

  /** `formatValue`: a number through the runtime's number-to-string conversion `show`,
      a string unchanged, `undefined` as `N/A`; the forecast array is stringified. */
  function FormatValue(v: Value, show: real -> string): (s: string)
    ensures v.Number? ==> s == show(v.x)
    ensures v.Text? ==> s == v.s
    ensures v.Undefined? ==> s == "N/A"
  {
    match v
    case Number(x) => show(x)
    case Text(t) => t
    case Undefined => "N/A"
    case Forecasts(items) => ObjectsString(|items|)
  }

  /** A key that is not a weather field shows as `N/A`; the numeric fields show their
      number and the text fields their text. */
  lemma FormatFieldValue(d: WeatherData, key: string, show: real -> string)
    ensures key !in WeatherKeys ==> FormatValue(FieldValue(d, key), show) == "N/A"
    ensures key == "temp" ==> FormatValue(FieldValue(d, key), show) == show(d.temp)
    ensures key == "humidity" ==> FormatValue(FieldValue(d, key), show) == show(d.humidity as real)
    ensures key == "city" ==> FormatValue(FieldValue(d, key), show) == d.city
  {
  }

  /** The tooltip's text: a heading with the city and one line per axis. */
  datatype Tooltip = Tooltip(heading: string, lines: seq<string>)

  /** One tooltip line: `key: value` followed by the key's unit symbol. */
  function TooltipLine(d: WeatherData, key: string, unit: Unit, show: real -> string): string {
    key + ": " + FormatValue(FieldValue(d, key), show) + ChartSymbol(key, unit)
  }

  /** The tooltip `content` callback: nothing when inactive or without a payload,
      otherwise the first payload record's city and its x, y and z lines. */
  function ScatterTooltip(active: bool, payload: Option<seq<WeatherData>>,
                          xKey: string, yKey: string, zKey: string, unit: Unit, show: real -> string)
    : (t: Option<Tooltip>)
    ensures t.None? <==> !active || payload.None? || |payload.value| == 0
    ensures t.Some? ==>
              var d := payload.value[0];
              && t.value.heading == d.city
              && t.value.lines == [TooltipLine(d, xKey, unit, show), TooltipLine(d, yKey, unit, show),
                                   TooltipLine(d, zKey, unit, show)]
  {
    if !active || payload.None? || |payload.value| == 0 then None
    else
      var d := payload.value[0];
      Some(Tooltip(d.city, [TooltipLine(d, xKey, unit, show), TooltipLine(d, yKey, unit, show),
                            TooltipLine(d, zKey, unit, show)]))
  }

  /** A line starts with its key and a colon, shows the formatted value next and ends
      with the key's unit symbol. */
  lemma TooltipLineParts(d: WeatherData, key: string, unit: Unit, show: real -> string)
    ensures var line := TooltipLine(d, key, unit, show);
            var value := FormatValue(FieldValue(d, key), show);
            var sym := ChartSymbol(key, unit);
            && |line| == |key| + 2 + |value| + |sym|
            && line[..|key|] == key && line[|key|..|key| + 2] == ": "
            && line[|key| + 2..|key| + 2 + |value|] == value
            && line[|line| - |sym|..] == sym
  {
    ConcatParts(key, ": ", FormatValue(FieldValue(d, key), show), ChartSymbol(key, unit));
  }

  /** Where the four parts of `a + b + c + e` sit. */
  lemma ConcatParts(a: string, b: string, c: string, e: string)
    ensures var s := a + b + c + e;
            && |s| == |a| + |b| + |c| + |e|
            && s[..|a|] == a && s[|a|..|a| + |b|] == b
            && s[|a| + |b|..|a| + |b| + |c|] == c
            && s[|s| - |e|..] == e
  {
    var s := a + b + c + e;
    assert s == ((a + b) + c) + e;
    assert s[..|a| + |b| + |c|] == (a + b) + c;
    assert s[..|a| + |b|] == a + b;
  }

  /** The temperature line of an imperial tooltip ends in degrees Fahrenheit. */
  lemma TemperatureLineUnit(d: WeatherData, show: real -> string)
    ensures var line := TooltipLine(d, "temp", Imperial, show);
            line[|line| - 2..] == "°F"
  {
    TooltipLineParts(d, "temp", Imperial, show);
  }
}
