/** The weather-code table and the background themes of the widget.
    The table covers part of WMO code table 4677, as simplified by Open-Meteo. */
module WeatherCodes {

  /** The description of each known weather code. */
  const Wmo: map<int, string> := map[
    0 := "Clear sky",
    1 := "Mainly clear", 2 := "Partly cloudy", 3 := "Overcast",
    45 := "Fog", 48 := "Depositing rime fog",
    51 := "Light drizzle", 53 := "Moderate drizzle", 55 := "Dense drizzle",
    56 := "Light freezing drizzle", 57 := "Dense freezing drizzle",
    61 := "Slight rain", 63 := "Moderate rain", 65 := "Heavy rain",
    66 := "Light freezing rain", 67 := "Heavy freezing rain",
    71 := "Slight snow", 73 := "Moderate snow", 75 := "Heavy snow",
    77 := "Snow grains", 80 := "Slight rain showers", 81 := "Moderate rain showers", 82 := "Violent rain showers",
    85 := "Slight snow showers", 86 := "Heavy snow showers",
    95 := "Thunderstorm", 96 := "Thunderstorm with slight hail", 99 := "Thunderstorm with heavy hail"
  ]

  /** The 28 codes the table describes. */
  const DescribedCodes: set<int> :=
    {0, 1, 2, 3, 45, 48, 51, 53, 55, 56, 57, 61, 63, 65, 66, 67,
     71, 73, 75, 77, 80, 81, 82, 85, 86, 95, 96, 99}

  /** Placeholder shown in current conditions for an unknown code: an em dash. */
  const CurrentPlaceholder: string := "\U{2014}"

  /** Placeholder shown on a forecast card for an unknown code. */
  const ForecastPlaceholder: string := ""

  /** `WMO[code] || fallback`: the table entry when it is truthy, else the fallback. */
  function Describe(code: int, fallback: string): (r: string)
    ensures code in DescribedCodes ==> code in Wmo && r == Wmo[code] && r != ""
    ensures code !in DescribedCodes ==> r == fallback
  {
    if code in Wmo && Wmo[code] != "" then Wmo[code] else fallback
  }

  /** The description in the current-conditions panel: never blank. */
  function CurrentDescription(code: int): (r: string)
    ensures r != ""
    ensures code in DescribedCodes <==> r != CurrentPlaceholder
    ensures code in DescribedCodes ==> r == Wmo[code]
  {
    Describe(code, CurrentPlaceholder)
  }

  /** The description on a forecast card: blank exactly for the codes the table lacks. */
  function ForecastDescription(code: int): (r: string)
    ensures r == "" <==> code !in DescribedCodes
    ensures code in DescribedCodes ==> r == Wmo[code]
  {
    Describe(code, ForecastPlaceholder)
  }

  /** The seven background themes. */
  datatype Theme = Sunny | Cloudy | Foggy | Drizzle | Rainy | Snowy | Stormy

  /** The classification chain: the first group that lists the code wins, `Cloudy` otherwise. */
  function ThemeOf(code: int): (t: Theme)
    ensures code in ListedCodes ==> code in Listed(t)
    ensures code !in ListedCodes ==> t == Cloudy
  {
    if code in [0, 1] then Sunny
    else if code in [2, 3] then Cloudy
    else if code in [45, 48] then Foggy
    else if code in [51, 53, 55] then Drizzle
    else if code in [61, 63, 65, 80, 81, 82] then Rainy
    else if code in [71, 73, 75, 85, 86] then Snowy
    else if code in [95, 96, 99] then Stormy
    else Cloudy
  }

  /** The codes the chain lists explicitly for each theme (for `Cloudy`, only its own group). */
  function Listed(t: Theme): seq<int>
  {
    match t
    case Sunny => [0, 1]
    case Cloudy => [2, 3]
    case Foggy => [45, 48]
    case Drizzle => [51, 53, 55]
    case Rainy => [61, 63, 65, 80, 81, 82]
    case Snowy => [71, 73, 75, 85, 86]
    case Stormy => [95, 96, 99]
  }

  /** Every code some group of the chain lists. */
  const ListedCodes: set<int> :=
    {0, 1, 2, 3, 45, 48, 51, 53, 55, 61, 63, 65, 80, 81, 82, 71, 73, 75, 85, 86, 95, 96, 99}

  /** Each code is listed by at most one group, so the order of the chain does not matter. */
  lemma ListedOnce(code: int, t: Theme, u: Theme)
    requires code in Listed(t) && code in Listed(u)
    ensures t == u
  {
  }

  /** The chain, stated without its order: a code gets the theme whose group lists it,
      and `Cloudy` when no group does. */
  lemma ThemeOfListed(code: int, t: Theme)
    ensures ThemeOf(code) == t <==> code in Listed(t) || (t == Cloudy && code !in ListedCodes)
  {
    if code in Listed(t) {
      ListedOnce(code, t, ThemeOf(code));
    }
  }

  /** Every code the chain lists has a description. */
  lemma ListedAreDescribed(code: int)
    requires code in ListedCodes
    ensures code in DescribedCodes
  {
  }

  /** Codes 56, 57, 66, 67 and 77 (freezing drizzle, freezing rain, snow grains) have a
      description but no group, so they fall to the `Cloudy` default; no other described code does. */
  lemma DescribedButUnlisted(code: int)
    ensures code in DescribedCodes && code !in ListedCodes <==> code in [56, 57, 66, 67, 77]
    ensures code in [56, 57, 66, 67, 77] ==> ThemeOf(code) == Cloudy
  {
  }

  /** The class names of the themes on the page root. */
  const ThemeClasses: set<string> := {"sunny", "cloudy", "foggy", "drizzle", "rainy", "snowy", "stormy"}

  /** The class of a theme. */
  function ThemeClass(t: Theme): (name: string)
    ensures name in ThemeClasses
  {
    match t
    case Sunny => "sunny"
    case Cloudy => "cloudy"
    case Foggy => "foggy"
    case Drizzle => "drizzle"
    case Rainy => "rainy"
    case Snowy => "snowy"
    case Stormy => "stormy"
  }

  /** Distinct themes have distinct classes. */
  lemma ThemeClassInjective(t: Theme, u: Theme)
    requires ThemeClass(t) == ThemeClass(u)
    ensures t == u
  {
  }

  /** The page root's classes after the theme update for `code`: exactly one theme class,
      the one of `ThemeOf(code)`, and every other class as it was. */
  function Themed(classes: set<string>, code: int): (r: set<string>)
    ensures r * ThemeClasses == {ThemeClass(ThemeOf(code))}
    ensures r - ThemeClasses == classes - ThemeClasses
  {
    classes - ThemeClasses + {ThemeClass(ThemeOf(code))}
  }

  /** Updating twice is updating once with the later code: no theme lingers. */
  lemma LastThemeWins(classes: set<string>, first: int, second: int)
    ensures Themed(Themed(classes, first), second) == Themed(classes, second)
  {
  }
}
