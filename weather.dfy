/**
 * `get_weather_forecast` of the weather server: a mock forecast of one to
 * five days built from fixed tables indexed by the day number modulo 5.
 */
module Weather {
  import opened Text

  const DefaultDays: int := 5
  const BaseTemp: int := 20
  const Timestamp: string := "2025-10-27T22:55:00Z"
  const Source: string := "OpenWeatherMap API (Demo Mode)"

  const Mains: seq<string> := ["Sunny", "Cloudy", "Rainy", "Partly Cloudy", "Clear"]
  const Descriptions: seq<string> := ["clear sky", "few clouds", "light rain", "partly cloudy", "clear sky"]
  const Chances: seq<int> := [10, 30, 80, 20, 5]

  /** One forecast day; the fractional wind speed and precipitation amount are not modelled. */
  datatype Day = Day(date: string, high: int, low: int, main: string, description: string,
                     chance: int, windDirection: int)

  datatype Forecast = Forecast(city: string, country: string, days: seq<Day>, forecastDays: int,
                               timestamp: string, source: string, success: bool)

  /** `days` outside 1..5 becomes 5; a value inside is kept. */
  function Clamp(days: int): (d: int)
    ensures 1 <= d <= 5
    ensures 1 <= days <= 5 ==> d == days
    ensures days < 1 || days > 5 ==> d == DefaultDays
  {
    if days < 1 || days > 5 then DefaultDays else days
  }

  /** Day `i` of the forecast (counting from 0). */
  function DayOf(i: nat): (d: Day)
    ensures d.date == "2025-10-" + IntToString(28 + i)
    ensures d.high == 22 + i && d.low == 17 + i && d.high - d.low == 5
    ensures d.main == Mains[i % 5] && d.description == Descriptions[i % 5] && d.chance == Chances[i % 5]
  {
    Day("2025-10-" + IntToString(28 + i), BaseTemp + i + 2, BaseTemp + i - 3,
        Mains[i % 5], Descriptions[i % 5], Chances[i % 5], 180 + i * 30)
  }

  /** `country_code.upper() if country_code else "Unknown"`. */
  function Country(countryCode: string): (c: string)
    ensures countryCode == [] ==> c == "Unknown"
    ensures countryCode != [] ==> |c| == |countryCode| && forall i :: 0 <= i < |c| ==> !IsLower(c[i])
    ensures countryCode != [] ==> forall i :: 0 <= i < |c| ==> c[i] == UpperChar(countryCode[i])
  {
    if countryCode != [] then Upper(countryCode) else "Unknown"
  }

  /** `get_weather_forecast(city, country_code, days)`. */
  method GetWeatherForecast(city: string, countryCode: string, days: int) returns (r: Forecast)
    ensures r.forecastDays == Clamp(days) && |r.days| == r.forecastDays
    ensures forall i :: 0 <= i < |r.days| ==> r.days[i] == DayOf(i)
    ensures r.city == city && r.country == Country(countryCode)
    ensures r.timestamp == Timestamp && r.source == Source && r.success
  {
    var n := days;
    if n < 1 || n > 5 {
      n := 5;
    }
    var forecast: seq<Day> := [];
    for i := 0 to n
      invariant |forecast| == i
      invariant forall k :: 0 <= k < i ==> forecast[k] == DayOf(k)
    {
      var day := Day("2025-10-" + IntToString(28 + i), BaseTemp + i + 2, BaseTemp + i - 3,
                     Mains[i % 5], Descriptions[i % 5], Chances[i % 5], 180 + i * 30);
      forecast := forecast + [day];
    }
    r := Forecast(city, Country(countryCode), forecast, n, Timestamp, Source, true);
  }

  /** The first day is the 28th; the high is always five degrees above the low. */
  lemma FirstDay()
    ensures DayOf(0).date == "2025-10-28" && DayOf(0).high == 22 && DayOf(0).low == 17
    ensures DayOf(0).main == "Sunny" && DayOf(0).chance == 10 && DayOf(0).windDirection == 180
  {
    assert NatToString(28) == NatToString(2) + [DigitChar(8)];
  }

  /** Dates do not roll over into November: the fifth day is dated the 32nd. */
  lemma NoCalendarRollover()
    ensures DayOf(4).date == "2025-10-32"
  {
    assert NatToString(32) == NatToString(3) + [DigitChar(2)];
  }

  /** The tables repeat every five days. */
  lemma TablesRepeat(i: nat)
    ensures DayOf(i + 5).main == DayOf(i).main
    ensures DayOf(i + 5).description == DayOf(i).description
    ensures DayOf(i + 5).chance == DayOf(i).chance
  {
    assert (i + 5) % 5 == i % 5;
  }
}
