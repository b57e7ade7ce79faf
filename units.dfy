/** The `getUnitSymbol` helpers of the chart components: the line chart's version
    (components/ui/WeatherLineChart.tsx) and the one the scatter and bar charts share
    word for word (components/ui/WeatherScatterChart.tsx, components/ui/WeatherBarChart.tsx). */
module UnitLabels {
  import opened Types
  import opened Strings

  /** The temperature symbol of a unit system. */
  function TempSymbol(unit: Unit): string {
    if unit == Imperial then "°F" else "°C"
  }

  /** The wind-speed symbol of a unit system. */
  function WindSymbol(unit: Unit): string {
    if unit == Imperial then "mph" else "m/s"
  }

  /** Fahrenheit and miles per hour go with the imperial system, and only with it. */
  lemma SymbolsFollowUnit(unit: Unit)
    ensures TempSymbol(unit) == "°F" <==> unit == Imperial
    ensures TempSymbol(unit) == "°C" <==> unit == Metric
    ensures WindSymbol(unit) == "mph" <==> unit == Imperial
    ensures WindSymbol(unit) == "m/s" <==> unit == Metric
  {
  }

  /** The line chart's `getUnitSymbol` for a forecast field name. */
  function LineSymbol(key: string, unit: Unit): (sym: string)
    ensures HasSubstring(key, "temp") ==> sym == TempSymbol(unit)
    ensures (!HasSubstring(key, "temp") && (HasSubstring(key, "humidity") || HasSubstring(key, "chance_of_rain")))
              ==> sym == "%"
    ensures sym == "" <==>
              !HasSubstring(key, "temp") && !HasSubstring(key, "humidity") && !HasSubstring(key, "chance_of_rain")
  {
    if Includes(key, "temp") then TempSymbol(unit)
    else if Includes(key, "humidity") || Includes(key, "chance_of_rain") then "%"
    else ""
  }

  /** The scatter and bar charts' `getUnitSymbol` for a weather field name: substring
      tests for temperatures and wind, exact names for humidity and pressure. */
  function ChartSymbol(key: string, unit: Unit): (sym: string)
    ensures HasSubstring(key, "temp") || HasSubstring(key, "feels_like") ==> sym == TempSymbol(unit)
    ensures (!HasSubstring(key, "temp") && !HasSubstring(key, "feels_like") && HasSubstring(key, "wind"))
              ==> sym == WindSymbol(unit)
    ensures (!HasSubstring(key, "temp") && !HasSubstring(key, "feels_like") && !HasSubstring(key, "wind"))
              ==> (sym == "%" <==> key == "humidity") && (sym == "hPa" <==> key == "pressure")
    ensures sym == "" <==>
              !HasSubstring(key, "temp") && !HasSubstring(key, "feels_like") && !HasSubstring(key, "wind")
              && key != "humidity" && key != "pressure"
  {
    if Includes(key, "temp") || Includes(key, "feels_like") then TempSymbol(unit)
    else if Includes(key, "wind") then WindSymbol(unit)
    else if key == "humidity" then "%"
    else if key == "pressure" then "hPa"
    else ""
  }

  /** Each helper yields one of a fixed handful of symbols. */
  lemma SymbolRanges(key: string, unit: Unit)
    ensures LineSymbol(key, unit) in ["°F", "°C", "%", ""]
    ensures ChartSymbol(key, unit) in ["°F", "°C", "mph", "m/s", "%", "hPa", ""]
  {
  }

  /** The humidity and pressure symbols do not depend on the unit system. */
  lemma UnitFreeSymbols(key: string)
    ensures LineSymbol(key, Imperial) == "%" <==> LineSymbol(key, Metric) == "%"
    ensures ChartSymbol(key, Imperial) == "%" <==> ChartSymbol(key, Metric) == "%"
    ensures ChartSymbol(key, Imperial) == "hPa" <==> ChartSymbol(key, Metric) == "hPa"
  {
  }

  /** Every temperature field of a weather record carries the temperature symbol. */
  lemma ChartSymbolsOfTemperatureFields(key: string, unit: Unit)
    requires key == "temp" || key == "feels_like" || key == "temp_min" || key == "temp_max"
    ensures ChartSymbol(key, unit) == TempSymbol(unit)
  {
    if key == "feels_like" {
      assert OccursAt(key, "feels_like", 0);
    } else {
      assert OccursAt(key, "temp", 0);
    }
  }

  /** The wind field carries the wind-speed symbol. */
  lemma ChartSymbolOfWindField(unit: Unit)
    ensures ChartSymbol("wind_speed", unit) == WindSymbol(unit)
  {
    assert OccursAt("wind_speed", "wind", 0);
    MissingCharNoSubstring("wind_speed", "temp", 0);
    MissingCharNoSubstring("wind_speed", "feels_like", 0);
  }

  /** Humidity and pressure are recognised by their exact names; a field matching none
      of the patterns, such as `sunrise`, gets no symbol. */
  lemma ChartSymbolsOfExactNames(key: string, unit: Unit)
    requires key == "humidity" || key == "pressure" || key == "sunrise"
    ensures ChartSymbol(key, unit) == if key == "humidity" then "%" else if key == "pressure" then "hPa" else ""
  {
    MissingCharNoSubstring(key, "temp", if key == "humidity" then 1 else 0);
    MissingCharNoSubstring(key, "feels_like", 0);
    MissingCharNoSubstring(key, "wind", 0);
  }

  /** The line chart labels the forecast fields: `chance_of_rain` and `humidity` in
      percent, `temp` in the unit's degrees, `day` with nothing. */
  lemma LineSymbolsOfForecastFields(unit: Unit)
    ensures LineSymbol("temp", unit) == TempSymbol(unit)
    ensures LineSymbol("humidity", unit) == "%"
    ensures LineSymbol("chance_of_rain", unit) == "%"
    ensures LineSymbol("day", unit) == ""
  {
    MissingCharNoSubstring("humidity", "temp", 1);
    assert OccursAt("humidity", "humidity", 0);
    MissingCharNoSubstring("chance_of_rain", "temp", 0);
    assert OccursAt("chance_of_rain", "chance_of_rain", 0);
  }
}
