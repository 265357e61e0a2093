/** The weather payload and the records the widget renders from it. */
module Forecast {
  import opened Wrappers
  import WeatherCodes

  /** The `current` block of the weather payload (only the fields the widget reads). */
  datatype Current = Current(
    time: string,
    temperature: real,
    apparentTemperature: real,
    humidity: real,
    windSpeed: real,
    precipitation: Option<real>,
    weatherCode: int)

  /** The `daily` block: parallel arrays indexed by day. */
  datatype Daily = Daily(
    time: seq<string>,
    weatherCode: seq<int>,
    temperatureMax: seq<real>,
    temperatureMin: seq<real>,
    precipitationSum: seq<Option<real>>)

  /** A whole weather answer. */
  datatype Weather = Weather(current: Current, daily: Daily, timezone: string)

  /** One day of the forecast, as the zip builds it. */
  datatype Day = Day(date: string, code: int, hi: real, lo: real, precipitation: Option<real>)

  /** Every daily array covers every entry of `time`. */
  predicate WellFormed(d: Daily)
  {
    && |d.weatherCode| >= |d.time|
    && |d.temperatureMax| >= |d.time|
    && |d.temperatureMin| >= |d.time|
    && |d.precipitationSum| >= |d.time|
  }

  /** `daily.time.map((t, i) => ...)`: one record per entry of `time`, record i made of the
      i-th entry of every array. */
  function Zip(d: Daily): (days: seq<Day>)
    requires WellFormed(d)
    ensures |days| == |d.time|
    ensures forall i :: 0 <= i < |days| ==>
              days[i] == Day(d.time[i], d.weatherCode[i], d.temperatureMax[i],
                             d.temperatureMin[i], d.precipitationSum[i])
  {
    seq(|d.time|, i requires 0 <= i < |d.time| =>
      Day(d.time[i], d.weatherCode[i], d.temperatureMax[i], d.temperatureMin[i], d.precipitationSum[i]))
  }

  /** The parallel arrays a list of days is made of. */
  function Unzip(days: seq<Day>): (d: Daily)
    ensures WellFormed(d)
    ensures |d.time| == |d.weatherCode| == |d.temperatureMax| == |d.temperatureMin|
            == |d.precipitationSum| == |days|
  {
    Daily(seq(|days|, i requires 0 <= i < |days| => days[i].date),
          seq(|days|, i requires 0 <= i < |days| => days[i].code),
          seq(|days|, i requires 0 <= i < |days| => days[i].hi),
          seq(|days|, i requires 0 <= i < |days| => days[i].lo),
          seq(|days|, i requires 0 <= i < |days| => days[i].precipitation))
  }

  /** The daily block with every array cut to the length of `time`. */
  function Truncated(d: Daily): Daily
    requires WellFormed(d)
  {
    var n := |d.time|;
    Daily(d.time, d.weatherCode[..n], d.temperatureMax[..n], d.temperatureMin[..n], d.precipitationSum[..n])
  }

  /** Zipping loses nothing that `time` covers: unzipping gives back the (cut) arrays. */
  lemma UnzipZip(d: Daily)
    requires WellFormed(d)
    ensures Unzip(Zip(d)) == Truncated(d)
  {
  }

  /** Zipping invents nothing: every list of days is the zip of its own arrays. */
  lemma ZipUnzip(days: seq<Day>)
    ensures Zip(Unzip(days)) == days
  {
  }

  /** What a forecast card shows (before number and date formatting). */
  datatype Card = Card(date: string, description: string, hi: real, lo: real, precipitation: real)

  /** The card of one day: the description from the table (blank when unknown), and a
      missing precipitation sum shown as zero. */
  function CardOf(day: Day): (c: Card)
    ensures c.date == day.date && c.hi == day.hi && c.lo == day.lo
    ensures c.description == "" <==> day.code !in WeatherCodes.DescribedCodes
    ensures day.code in WeatherCodes.DescribedCodes ==> c.description == WeatherCodes.Wmo[day.code]
    ensures day.precipitation.None? ==> c.precipitation == 0.0
    ensures day.precipitation.Some? ==> c.precipitation == day.precipitation.value
  {
    Card(day.date, WeatherCodes.ForecastDescription(day.code), day.hi, day.lo, day.precipitation.GetOr(0.0))
  }

  /** What the current-conditions panel shows (before number formatting). */
  datatype Panel = Panel(
    temperature: real,
    description: string,
    apparentTemperature: real,
    humidity: real,
    windSpeed: real,
    precipitation: real)

  /** The panel for a `current` block: the description from the table (an em dash when
      unknown), and a missing precipitation shown as zero. */
  function PanelOf(c: Current): (p: Panel)
    ensures p.temperature == c.temperature && p.apparentTemperature == c.apparentTemperature
    ensures p.humidity == c.humidity && p.windSpeed == c.windSpeed
    ensures p.description != ""
    ensures p.description == WeatherCodes.CurrentPlaceholder <==> c.weatherCode !in WeatherCodes.DescribedCodes
    ensures c.weatherCode in WeatherCodes.DescribedCodes ==> p.description == WeatherCodes.Wmo[c.weatherCode]
    ensures c.precipitation.None? ==> p.precipitation == 0.0
    ensures c.precipitation.Some? ==> p.precipitation == c.precipitation.value
  {
    Panel(c.temperature, WeatherCodes.CurrentDescription(c.weatherCode), c.apparentTemperature,
          c.humidity, c.windSpeed, c.precipitation.GetOr(0.0))
  }
}
