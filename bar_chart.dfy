/** The data-selection part of `WeatherBarChart` (components/ui/WeatherBarChart.tsx): the
    tooltip text and one bar series per data key with cycling colours. */
module BarChart {
  import opened Types
  import opened UnitLabels

  const Colors: seq<string> := ["#facc15", "#4f46e5", "#d946ef"]

  /** The tooltip formatter's text for a bar: the value through the runtime's
      number-to-string conversion `show`, a space, then the series' unit symbol. */
  function BarTooltip(value: real, name: string, unit: Unit, show: real -> string): (text: string)
    ensures |text| == |show(value)| + 1 + |ChartSymbol(name, unit)|
    ensures text[..|show(value)|] == show(value)
    ensures text[|show(value)|] == ' '
    ensures text[|show(value)| + 1..] == ChartSymbol(name, unit)
  {
    show(value) + " " + ChartSymbol(name, unit)
  }

  /** A series with no unit symbol ends its tooltip in a bare space. */
  lemma BarTooltipWithoutSymbol(value: real, name: string, unit: Unit, show: real -> string)
    requires ChartSymbol(name, unit) == ""
    ensures BarTooltip(value, name, unit, show) == show(value) + " "
  {
  }

  /** One `<Bar>`: the field it plots, its legend name and its fill colour. */
  datatype BarSeries = BarSeries(dataKey: string, name: string, fill: string)

  /** `dataKeys.map((key, index) => <Bar ... fill={COLORS[index % COLORS.length]} />)`. */
  function Series(dataKeys: seq<string>): (series: seq<BarSeries>)
    ensures |series| == |dataKeys|
    ensures forall i :: 0 <= i < |dataKeys| ==>
              series[i].dataKey == dataKeys[i] && series[i].name == dataKeys[i] && series[i].fill in Colors
  {
    seq(|dataKeys|, i requires 0 <= i < |dataKeys| => BarSeries(dataKeys[i], dataKeys[i], Colors[i % |Colors|]))
  }

  /** The colours repeat every third series, and any two series less than three apart
      have different colours. */
  lemma SeriesColours(dataKeys: seq<string>)
    ensures forall i :: 0 <= i < |dataKeys| ==> Series(dataKeys)[i].fill == Colors[i % 3]
    ensures forall i :: 0 <= i && i + 3 < |dataKeys| ==> Series(dataKeys)[i].fill == Series(dataKeys)[i + 3].fill
    ensures forall i, j :: 0 <= i < j < |dataKeys| && j - i < 3 ==> Series(dataKeys)[i].fill != Series(dataKeys)[j].fill
  {
    forall i, j | 0 <= i < j < |dataKeys| && j - i < 3
      ensures Series(dataKeys)[i].fill != Series(dataKeys)[j].fill
    {
      assert i % 3 != j % 3;
    }
  }
}
