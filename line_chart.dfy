/** The data-selection part of `WeatherLineChart` (components/ui/WeatherLineChart.tsx):
    the case-insensitive city filter, the x-values of the reference forecast cut to
    `limitDays`, and the pivot into one data point per x-value with a column per city. */
module LineChart {
  import opened Wrappers
  import opened Types
  import opened Strings
  import opened Seqs

  const DefaultLimitDays := 5

  /** A chart row: a JavaScript object from property names to values. */
  type DataPoint = map<string, Value>

  // ---------------------------------------------------------------------------
  // City filter

  /** A record is charted when its city matches a requested city ignoring case and it
      has a non-empty forecast. */
  predicate IsSelected(cities: seq<string>, d: WeatherData) {
    Lower(d.city) in LowerAll(cities) && |d.forecast| > 0
  }

  function SelectedCities(cities: seq<string>, allData: seq<WeatherData>): (r: seq<WeatherData>)
    ensures |r| <= |allData|
    ensures forall i :: 0 <= i < |r| ==> r[i] in allData && |r[i].forecast| > 0
  {
    Filter(allData, d => IsSelected(cities, d))
  }

  /** A record of `allData` is selected iff some requested city equals its city ignoring
      case and its forecast is non-empty. */
  lemma SelectedCitiesMembership(cities: seq<string>, allData: seq<WeatherData>, i: nat)
    requires i < |allData|
    ensures allData[i] in SelectedCities(cities, allData) <==>
              (exists j :: 0 <= j < |cities| && SameIgnoringCase(cities[j], allData[i].city))
              && |allData[i].forecast| > 0
  {
    LowerAllMembership(cities, allData[i].city);
  }

  /** The filter keeps the order of `allData`: it distributes over concatenation. */
  lemma SelectedCitiesOrder(cities: seq<string>, a: seq<WeatherData>, b: seq<WeatherData>)
    ensures SelectedCities(cities, a + b) == SelectedCities(cities, a) + SelectedCities(cities, b)
  {
    FilterAppend(a, b, d => IsSelected(cities, d));
  }

  // ---------------------------------------------------------------------------
  // Rows

  /** The end index `Array.prototype.slice(0, end)` uses on an array of length `n`:
      a negative end counts from the back. */
  function SliceEnd(n: nat, end: int): (k: nat)
    ensures k <= n
    ensures end >= 0 ==> k == (if end < n then end else n)
    ensures end < 0 ==> k == (if n + end < 0 then 0 else n + end)
  {
    if end < 0 then (if n + end < 0 then 0 else n + end)
    else if end < n then end else n
  }

  /** `selectedCitiesData[0]?.forecast || []`. */
  function ReferenceForecast(selected: seq<WeatherData>): seq<DailyForecast> {
    if |selected| > 0 then selected[0].forecast else []
  }

  /** `referenceForecast.map(f => f[xAxisKey]).slice(0, limitDays)`, with `limitDays`
      defaulting to five when absent. */
  function OrderedXValues(selected: seq<WeatherData>, xKey: string, limitDays: Option<int>): (xs: seq<Value>)
    ensures |xs| == SliceEnd(|ReferenceForecast(selected)|, limitDays.GetOr(DefaultLimitDays))
    ensures forall i :: 0 <= i < |xs| ==> xs[i] == ForecastFieldValue(ReferenceForecast(selected)[i], xKey)
  {
    var ref := ReferenceForecast(selected);
    var all := seq(|ref|, i requires 0 <= i < |ref| => ForecastFieldValue(ref[i], xKey));
    all[..SliceEnd(|ref|, limitDays.GetOr(DefaultLimitDays))]
  }

  /** `forecast.find(f => f[xAxisKey] === xValue)`, as the index of the entry found. */
  function FirstWithX(forecast: seq<DailyForecast>, xKey: string, xValue: Value): (r: Option<nat>)
    ensures r.Some? ==> r.value < |forecast| && ForecastFieldValue(forecast[r.value], xKey) == xValue
    ensures r.Some? ==> forall j :: 0 <= j < r.value ==> ForecastFieldValue(forecast[j], xKey) != xValue
    ensures r.None? <==> forall j :: 0 <= j < |forecast| ==> ForecastFieldValue(forecast[j], xKey) != xValue
  {
    if forecast == [] then None
    else if ForecastFieldValue(forecast[0], xKey) == xValue then Some(0)
    else match FirstWithX(forecast[1..], xKey, xValue)
      case None => None
      case Some(k) => Some(k + 1)
  }

  /** The data point for one x-value after the cities of `selected` have been visited in
      order: it starts as `{ [xAxisKey]: xValue }`, and each city whose forecast has an
      entry with that x-value sets the property named after the city. */
  function Point(selected: seq<WeatherData>, xKey: string, yKey: string, xValue: Value): DataPoint
    decreases |selected|
  {
    if selected == [] then map[xKey := xValue]
    else
      var n := |selected| - 1;
      var prev := Point(selected[..n], xKey, yKey, xValue);
      var c := selected[n];
      match FirstWithX(c.forecast, xKey, xValue)
      case None => prev
      case Some(k) => prev[c.city := ForecastFieldValue(c.forecast[k], yKey)]
  }

  /** The `forEach` that fills one data point. */
  method BuildDataPoint(selected: seq<WeatherData>, xKey: string, yKey: string, xValue: Value)
    returns (dataPoint: DataPoint)
    ensures dataPoint == Point(selected, xKey, yKey, xValue)
  {
    dataPoint := map[xKey := xValue];
    for i := 0 to |selected|
      invariant dataPoint == Point(selected[..i], xKey, yKey, xValue)
    {
      assert selected[..i + 1][..i] == selected[..i];
      var cityData := selected[i];
      var forecastPoint := FirstWithX(cityData.forecast, xKey, xValue);
      if forecastPoint.Some? {
        dataPoint := dataPoint[cityData.city := ForecastFieldValue(cityData.forecast[forecastPoint.value], yKey)];
      }
    }
    assert selected[..|selected|] == selected;
  }

  /** The points for the x-values `xs`, in order. */
  function PointsFor(selected: seq<WeatherData>, xKey: string, yKey: string, xs: seq<Value>): (r: seq<DataPoint>)
    ensures |r| == |xs|
    ensures forall i :: 0 <= i < |xs| ==> r[i] == Point(selected, xKey, yKey, xs[i])
    decreases |xs|
  {
    if xs == [] then []
    else PointsFor(selected, xKey, yKey, xs[..|xs| - 1]) + [Point(selected, xKey, yKey, xs[|xs| - 1])]
  }

  /** The chart's data: one point per ordered x-value. */
  function Rows(cities: seq<string>, allData: seq<WeatherData>, xKey: string, yKey: string, limitDays: Option<int>)
    : seq<DataPoint>
  {
    var selected := SelectedCities(cities, allData);
    PointsFor(selected, xKey, yKey, OrderedXValues(selected, xKey, limitDays))
  }

  /** `orderedXValues.map(...)` building `chartData`. */
  method ChartData(cities: seq<string>, allData: seq<WeatherData>, xKey: string, yKey: string, limitDays: Option<int>)
    returns (chartData: seq<DataPoint>)
    ensures chartData == Rows(cities, allData, xKey, yKey, limitDays)
  {
    var selected := SelectedCities(cities, allData);
    var xs := OrderedXValues(selected, xKey, limitDays);
    chartData := [];
    for i := 0 to |xs|
      invariant chartData == PointsFor(selected, xKey, yKey, xs[..i])
    {
      assert xs[..i + 1][..i] == xs[..i];
      var dataPoint := BuildDataPoint(selected, xKey, yKey, xs[i]);
      chartData := chartData + [dataPoint];
    }
    assert xs[..|xs|] == xs;
  }

  // ---------------------------------------------------------------------------
  // Properties of the pivot

  /** There are as many rows as `slice(0, limitDays)` keeps of the reference forecast:
      none when no city is selected, otherwise the smaller of `limitDays` and the
      reference forecast's length (five by default), that length less `-limitDays` for a
      negative limit, and at least one when `limitDays` is positive. */
  lemma RowCount(cities: seq<string>, allData: seq<WeatherData>, xKey: string, yKey: string, limitDays: Option<int>)
    ensures SelectedCities(cities, allData) == [] ==> Rows(cities, allData, xKey, yKey, limitDays) == []
    ensures SelectedCities(cities, allData) != [] ==>
              var n := |SelectedCities(cities, allData)[0].forecast|;
              var limit := limitDays.GetOr(DefaultLimitDays);
              && (limit >= 0 ==> |Rows(cities, allData, xKey, yKey, limitDays)| == (if limit < n then limit else n))
              && (limit < 0 ==> |Rows(cities, allData, xKey, yKey, limitDays)| == (if n + limit < 0 then 0 else n + limit))
              && (limitDays.None? ==> |Rows(cities, allData, xKey, yKey, limitDays)| == (if n < 5 then n else 5))
              && (limit > 0 ==> |Rows(cities, allData, xKey, yKey, limitDays)| > 0)
  {
  }

  /** Every key of a data point is the x-axis key or the name of a selected city. */
  lemma {:induction false} PointKeys(selected: seq<WeatherData>, xKey: string, yKey: string, xValue: Value)
    ensures xKey in Point(selected, xKey, yKey, xValue)
    ensures forall k :: k in Point(selected, xKey, yKey, xValue) ==>
              k == xKey || exists i :: 0 <= i < |selected| && selected[i].city == k
    decreases |selected|
  {
    if selected != [] {
      var n := |selected| - 1;
      var front := selected[..n];
      PointKeys(front, xKey, yKey, xValue);
      forall k | k in Point(selected, xKey, yKey, xValue) && k != xKey
        ensures exists i :: 0 <= i < |selected| && selected[i].city == k
      {
        if k != selected[n].city {
          var i :| 0 <= i < |front| && front[i].city == k;
          assert selected[i].city == k;
        }
      }
    }
  }

  /** When no selected city is named like the x-axis key, the point's x-axis property
      is the x-value it was built for. */
  lemma {:induction false} PointX(selected: seq<WeatherData>, xKey: string, yKey: string, xValue: Value)
    requires forall i :: 0 <= i < |selected| ==> selected[i].city != xKey
    ensures xKey in Point(selected, xKey, yKey, xValue)
    ensures Point(selected, xKey, yKey, xValue)[xKey] == xValue
    decreases |selected|
  {
    if selected != [] {
      var n := |selected| - 1;
      PointX(selected[..n], xKey, yKey, xValue);
    }
  }

  /** A city's column is set iff its forecast has an entry with the point's x-value, and
      then holds the y-value of the first such entry, whatever its position (for city
      names that are distinct and differ from the x-axis key). */
  lemma {:induction false} PointColumn(selected: seq<WeatherData>, xKey: string, yKey: string, xValue: Value, j: nat)
    requires j < |selected|
    requires forall k :: 0 <= k < |selected| && k != j ==> selected[k].city != selected[j].city
    requires selected[j].city != xKey
    ensures var c := selected[j];
            var found := FirstWithX(c.forecast, xKey, xValue);
            && (c.city in Point(selected, xKey, yKey, xValue) <==> found.Some?)
            && (found.Some? ==> Point(selected, xKey, yKey, xValue)[c.city] == ForecastFieldValue(c.forecast[found.value], yKey))
    decreases |selected|
  {
    var n := |selected| - 1;
    var front := selected[..n];
    var c := selected[j];
    if j < n {
      assert front[j] == c;
      assert selected[n].city != c.city;
      forall k | 0 <= k < |front| && k != j ensures front[k].city != front[j].city {
        assert front[k] == selected[k];
      }
      PointColumn(front, xKey, yKey, xValue, j);
    } else {
      PointColumnLast(selected, xKey, yKey, xValue);
    }
  }

  /** The case of `PointColumn` for the last city visited. */
  lemma PointColumnLast(selected: seq<WeatherData>, xKey: string, yKey: string, xValue: Value)
    requires |selected| > 0
    requires forall k :: 0 <= k < |selected| - 1 ==> selected[k].city != selected[|selected| - 1].city
    requires selected[|selected| - 1].city != xKey
    ensures var c := selected[|selected| - 1];
            var found := FirstWithX(c.forecast, xKey, xValue);
            && (c.city in Point(selected, xKey, yKey, xValue) <==> found.Some?)
            && (found.Some? ==> Point(selected, xKey, yKey, xValue)[c.city] == ForecastFieldValue(c.forecast[found.value], yKey))
  {
    var n := |selected| - 1;
    var front := selected[..n];
    var c := selected[n];
    PointKeys(front, xKey, yKey, xValue);
    forall i | 0 <= i < |front| ensures front[i].city != c.city {
      assert front[i] == selected[i];
    }
    assert c.city !in Point(front, xKey, yKey, xValue);
  }

  /** Row `i` is the point for the reference forecast's `i`-th x-value: rows keep the
      reference order, and the x-axis property holds that x-value when no selected
      city is named like the x-axis key. */
  lemma RowXValues(cities: seq<string>, allData: seq<WeatherData>, xKey: string, yKey: string, limitDays: Option<int>, i: nat)
    requires i < |Rows(cities, allData, xKey, yKey, limitDays)|
    ensures var selected := SelectedCities(cities, allData);
            var x := ForecastFieldValue(ReferenceForecast(selected)[i], xKey);
            && Rows(cities, allData, xKey, yKey, limitDays)[i] == Point(selected, xKey, yKey, x)
            && xKey in Rows(cities, allData, xKey, yKey, limitDays)[i]
            && ((forall k :: 0 <= k < |selected| ==> selected[k].city != xKey) ==>
                  Rows(cities, allData, xKey, yKey, limitDays)[i][xKey] == x)
  {
    var selected := SelectedCities(cities, allData);
    var x := ForecastFieldValue(ReferenceForecast(selected)[i], xKey);
    PointKeys(selected, xKey, yKey, x);
    if forall k :: 0 <= k < |selected| ==> selected[k].city != xKey {
      PointX(selected, xKey, yKey, x);
    }
  }

  // ---------------------------------------------------------------------------
  // A worked example

  /** A weather record with the given city and forecast and every other field zero. */
  function CityWith(city: string, forecast: seq<DailyForecast>): WeatherData {
    WeatherData(city, "", 0.0, 0.0, 0.0, 0.0, 0, 0, 0.0, "", "", 0, 0, 0.0, 0.0, forecast)
  }

  const CityA := CityWith("CityA", [DailyForecast("Mon", 10, 0, 0), DailyForecast("Tue", 12, 0, 0)])
  const CityB := CityWith("CityB", [DailyForecast("Mon", 20, 0, 0)])

  /** Both cities of the example are selected, in order. */
  lemma ExampleSelection()
    ensures SelectedCities(["CityA", "CityB"], [CityA, CityB]) == [CityA, CityB]
  {
    var cities := ["CityA", "CityB"];
    var p := d => IsSelected(cities, d);
    assert IsSelected(cities, CityA) by {
      assert LowerAll(cities)[0] == Lower("CityA");
    }
    assert IsSelected(cities, CityB) by {
      assert LowerAll(cities)[1] == Lower("CityB");
    }
    assert [CityA, CityB][1..] == [CityB];
    assert [CityB][1..] == [];
    assert Filter([CityB], p) == [CityB];
    assert Filter([CityA, CityB], p) == [CityA] + Filter([CityB], p);
  }

  /** The one-city points of the example. */
  lemma ExampleFirstCity()
    ensures Point([CityA], "day", "temp", Text("Mon")) == map["day" := Text("Mon"), "CityA" := Number(10.0)]
    ensures Point([CityA], "day", "temp", Text("Tue")) == map["day" := Text("Tue"), "CityA" := Number(12.0)]
  {
    assert [CityA][..0] == [];
    assert FirstWithX(CityA.forecast, "day", Text("Mon")) == Some(0);
    assert FirstWithX(CityA.forecast, "day", Text("Tue")) == Some(1) by {
      assert CityA.forecast[1..] == [DailyForecast("Tue", 12, 0, 0)];
    }
  }

  /** The two-city points of the example: CityB has a Monday entry only. */
  lemma ExampleBothCities()
    ensures Point([CityA, CityB], "day", "temp", Text("Mon")) ==
              map["day" := Text("Mon"), "CityA" := Number(10.0), "CityB" := Number(20.0)]
    ensures Point([CityA, CityB], "day", "temp", Text("Tue")) == map["day" := Text("Tue"), "CityA" := Number(12.0)]
  {
    ExampleFirstCity();
    assert [CityA, CityB][..1] == [CityA];
    assert FirstWithX(CityB.forecast, "day", Text("Mon")) == Some(0);
    assert FirstWithX(CityB.forecast, "day", Text("Tue")) == None;
  }

  /** Two cities, the second missing Tuesday: pivoting on `day`/`temp` gives a Monday row
      with both cities and a Tuesday row with the first city only. */
  lemma PivotExample()
    ensures Rows(["CityA", "CityB"], [CityA, CityB], "day", "temp", None) ==
              [map["day" := Text("Mon"), "CityA" := Number(10.0), "CityB" := Number(20.0)],
               map["day" := Text("Tue"), "CityA" := Number(12.0)]]
  {
    ExampleRows();
    PointsForTwo([CityA, CityB], "day", "temp", Text("Mon"), Text("Tue"));
    ExampleBothCities();
  }

  /** The example's rows are the points for its two days. */
  lemma ExampleRows()
    ensures Rows(["CityA", "CityB"], [CityA, CityB], "day", "temp", None) ==
              PointsFor([CityA, CityB], "day", "temp", [Text("Mon"), Text("Tue")])
  {
    ExampleSelection();
    ExampleXValues();
  }

  /** The points for two x-values. */
  lemma PointsForTwo(selected: seq<WeatherData>, xKey: string, yKey: string, x0: Value, x1: Value)
    ensures PointsFor(selected, xKey, yKey, [x0, x1]) ==
              [Point(selected, xKey, yKey, x0), Point(selected, xKey, yKey, x1)]
  {
  }

  /** The example's x-values: the days of CityA's forecast. */
  lemma ExampleXValues()
    ensures OrderedXValues([CityA, CityB], "day", None) == [Text("Mon"), Text("Tue")]
  {
    var xs := OrderedXValues([CityA, CityB], "day", None);
    assert |xs| == 2;
    assert xs[0] == ForecastFieldValue(CityA.forecast[0], "day");
    assert xs[1] == ForecastFieldValue(CityA.forecast[1], "day");
  }
}
