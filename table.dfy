/** The data-selection part of `WeatherTable` (components/ui/WeatherTable.tsx): the
    header labels, the case-sensitive row filter, the header list and the cells of a row. */
module Table {
  import opened Wrappers
  import opened Types
  import opened Strings
  import opened Seqs
  import opened UnitLabels

  /** `getKeyLabels(unit)[key]`: the label of a weather field, absent for any other key. */
  function KeyLabel(key: string, unit: Unit): (text: Option<string>)
    ensures text.Some? <==> key in WeatherKeys
    ensures text.Some? ==> text.value != ""
  {
    match key
    case "city" => Some("City")
    case "country" => Some("Country")
    case "temp" => Some("Temp (" + TempSymbol(unit) + ")")
    case "feels_like" => Some("Feels Like (" + TempSymbol(unit) + ")")
    case "temp_min" => Some("Min Temp (" + TempSymbol(unit) + ")")
    case "temp_max" => Some("Max Temp (" + TempSymbol(unit) + ")")
    case "humidity" => Some("Humidity (%)")
    case "pressure" => Some("Pressure (hPa)")
    case "wind_speed" => Some("Wind (" + WindSymbol(unit) + ")")
    case "description" => Some("Description")
    case "icon" => Some("Icon")
    case "sunrise" => Some("Sunrise")
    case "sunset" => Some("Sunset")
    case "lon" => Some("Longitude")
    case "lat" => Some("Latitude")
    case "forecast" => Some("5-Day Forecast")
    case _ => None
  }

  /** `KEY_LABELS[key] || key`: every label is non-empty, so the raw key shows exactly
      when the key is not a weather field. */
  function HeaderLabel(key: string, unit: Unit): (text: string)
    ensures key in WeatherKeys ==> text == KeyLabel(key, unit).value
    ensures key !in WeatherKeys ==> text == key
  {
    match KeyLabel(key, unit)
    case Some(l) => if l != "" then l else key
    case None => key
  }

  /** The header of a column is its key's label exactly when a record has a value under
      that key. */
  lemma LabelledIffField(d: WeatherData, key: string, unit: Unit)
    ensures KeyLabel(key, unit).Some? <==> FieldValue(d, key) != Undefined
  {
  }

  /** The temperature labels carry the unit's degree symbol. */
  lemma TemperatureLabelsFollowUnit(key: string, unit: Unit)
    requires key == "temp" || key == "feels_like" || key == "temp_min" || key == "temp_max"
    ensures HasSubstring(HeaderLabel(key, unit), TempSymbol(unit))
  {
    var t := TempSymbol(unit);
    var prefix :=
      if key == "temp" then "Temp (" else if key == "feels_like" then "Feels Like ("
      else if key == "temp_min" then "Min Temp (" else "Max Temp (";
    assert HeaderLabel(key, unit) == prefix + t + ")";
    InfixOccurs(prefix, t, ")");
  }

  /** The wind label carries the unit's speed symbol, while the humidity and pressure
      labels are the same in both systems. */
  lemma OtherLabelsFollowUnit(unit: Unit)
    ensures HasSubstring(HeaderLabel("wind_speed", unit), WindSymbol(unit))
    ensures HeaderLabel("humidity", unit) == HeaderLabel("humidity", if unit == Imperial then Metric else Imperial)
    ensures HeaderLabel("pressure", unit) == HeaderLabel("pressure", if unit == Imperial then Metric else Imperial)
  {
    var w := WindSymbol(unit);
    assert HeaderLabel("wind_speed", unit) == "Wind (" + w + ")";
    InfixOccurs("Wind (", w, ")");
  }

  /** `allData.filter(d => cities.includes(d.city))`. */
  function TableRows(cities: seq<string>, allData: seq<WeatherData>): (rows: seq<WeatherData>)
    ensures |rows| <= |allData|
    ensures forall i :: 0 <= i < |rows| ==> rows[i] in allData && rows[i].city in cities
    ensures forall i :: 0 <= i < |allData| ==> (allData[i] in rows <==> allData[i].city in cities)
  {
    Filter(allData, (d: WeatherData) => d.city in cities)
  }

  /** The filter keeps the order of `allData`. */
  lemma TableRowsOrder(cities: seq<string>, a: seq<WeatherData>, b: seq<WeatherData>)
    ensures TableRows(cities, a + b) == TableRows(cities, a) + TableRows(cities, b)
  {
    FilterAppend(a, b, (d: WeatherData) => d.city in cities);
  }

  /** The match is case-sensitive: a request for `london` does not show a `London` record. */
  lemma TableRowsCaseSensitive(d: WeatherData)
    requires d.city == "London"
    ensures TableRows(["london"], [d]) == []
  {
    assert [d][1..] == [];
  }

  /** `['city', ...dataKeys.filter(k => k !== 'city')]`. */
  function Headers(dataKeys: seq<string>): (headers: seq<string>)
    ensures |headers| >= 1 && headers[0] == "city"
  {
    ["city"] + Filter(dataKeys, k => k != "city")
  }

  /** `city` is the first header and appears only there; the other headers are the data
      keys other than `city`, each of them present. */
  lemma HeadersShape(dataKeys: seq<string>)
    ensures forall i :: 1 <= i < |Headers(dataKeys)| ==> Headers(dataKeys)[i] != "city" && Headers(dataKeys)[i] in dataKeys
    ensures forall k :: k in dataKeys && k != "city" ==> k in Headers(dataKeys)
    ensures |Headers(dataKeys)| <= |dataKeys| + 1
  {
    var rest := Filter(dataKeys, k => k != "city");
    assert forall i :: 1 <= i < |Headers(dataKeys)| ==> Headers(dataKeys)[i] == rest[i - 1];
  }

  /** The header keys keep the order of `dataKeys`. */
  lemma HeadersOrder(a: seq<string>, b: seq<string>)
    ensures Headers(a + b) == Headers(a) + Headers(b)[1..]
  {
    FilterAppend(a, b, k => k != "city");
  }

  /** One row's cells: the record's value under each header, in header order. */
  function Cells(d: WeatherData, headers: seq<string>): (cells: seq<Value>)
    ensures |cells| == |headers|
    ensures forall i :: 0 <= i < |headers| ==> cells[i] == FieldValue(d, headers[i])
  {
    seq(|headers|, i requires 0 <= i < |headers| => FieldValue(d, headers[i]))
  }

  /** The table: its header labels and one row of cells per shown record. */
  datatype TableView = TableView(labels: seq<string>, rows: seq<seq<Value>>)

  function WeatherTable(dataKeys: seq<string>, cities: seq<string>, allData: seq<WeatherData>, unit: Unit): TableView {
    var headers := Headers(dataKeys);
    var shown := TableRows(cities, allData);
    TableView(
      seq(|headers|, i requires 0 <= i < |headers| => HeaderLabel(headers[i], unit)),
      seq(|shown|, r requires 0 <= r < |shown| => Cells(shown[r], headers)))
  }

  /** The table has one label per header, the first being `City`, one row per shown record,
      and each row has one cell per header, its first cell being the record's city. */
  lemma WeatherTableShape(dataKeys: seq<string>, cities: seq<string>, allData: seq<WeatherData>, unit: Unit)
    ensures var t := WeatherTable(dataKeys, cities, allData, unit);
            && |t.labels| == |Headers(dataKeys)|
            && t.labels[0] == "City"
            && |t.rows| == |TableRows(cities, allData)|
            && forall r :: 0 <= r < |t.rows| ==>
                 |t.rows[r]| == |t.labels| && t.rows[r][0] == Text(TableRows(cities, allData)[r].city)
  {
  }
}
