/** The data-selection part of `WeatherCard` (components/ui/WeatherCard.tsx): the
    case-sensitive city filter, the empty case, and what one card shows. */
module Card {
  import opened Types
  import opened UnitLabels
  import opened Table

  /** What one card shows. */
  datatype CardInfo = CardInfo(
    city: string, description: string,
    temp: int, feelsLike: int, tempUnit: string,
    humidity: int, windSpeed: real, windUnit: string, pressure: int)

  /** The component's output: the "No data available" message, or one card per record. */
  datatype CardView = NoData | Cards(cards: seq<CardInfo>)

  function CardFor(d: WeatherData, unit: Unit): CardInfo {
    CardInfo(d.city, d.description, Round(d.temp), Round(d.feelsLike), TempSymbol(unit),
             d.humidity, d.windSpeed, WindSymbol(unit), d.pressure)
  }

  /** The message shows exactly when no record's city is among `cities` (compared exactly,
      case included); otherwise there is one card per matching record, in `allData` order,
      with the temperatures rounded and the units of the chosen system. */
  function WeatherCards(cities: seq<string>, allData: seq<WeatherData>, unit: Unit): (v: CardView)
    ensures v.NoData? <==> forall i :: 0 <= i < |allData| ==> allData[i].city !in cities
    ensures v.Cards? ==>
              var shown := TableRows(cities, allData);
              && |v.cards| == |shown| > 0
              && forall i :: 0 <= i < |shown| ==>
                   && v.cards[i].city == shown[i].city
                   && v.cards[i].temp == Round(shown[i].temp)
                   && v.cards[i].feelsLike == Round(shown[i].feelsLike)
                   && v.cards[i].tempUnit == TempSymbol(unit)
                   && v.cards[i].windUnit == WindSymbol(unit)
  {
    var cityData := TableRows(cities, allData);
    if |cityData| == 0 then NoData
    else
      assert cityData[0] in allData;
      Cards(seq(|cityData|, i requires 0 <= i < |cityData| => CardFor(cityData[i], unit)))
  }

  /** A card's temperatures are within half a degree of the record's, and its units are
      Fahrenheit and miles per hour iff the system is imperial. */
  lemma CardValues(cities: seq<string>, allData: seq<WeatherData>, unit: Unit, i: nat)
    requires WeatherCards(cities, allData, unit).Cards?
    requires i < |WeatherCards(cities, allData, unit).cards|
    ensures var c := WeatherCards(cities, allData, unit).cards[i];
            var d := TableRows(cities, allData)[i];
            && d.temp - 0.5 < c.temp as real <= d.temp + 0.5
            && d.feelsLike - 0.5 < c.feelsLike as real <= d.feelsLike + 0.5
            && (c.tempUnit == "°F" <==> unit == Imperial)
            && (c.windUnit == "mph" <==> unit == Imperial)
  {
    SymbolsFollowUnit(unit);
  }
}
