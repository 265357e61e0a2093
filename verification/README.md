# Skylens weather widget: a verified model of its decision logic

Skylens is a single-page weather widget. The user types a place name; after a 250 ms pause the
text is sent to the Open-Meteo geocoder and the matches are listed under the search box.
Picking one (or pressing "use my location") fetches the weather for that place. The widget
then shows the current conditions, paints the page in one of seven weather themes and lists
a multi-day forecast.

This project models the logic inside `logic.js` that makes decisions, separated from the
browser glue around it:

- `WeatherCodes` (`weather_codes.dfy`): the table of weather-code descriptions, which covers
  part of WMO code table 4677 as Open-Meteo simplifies it. It also holds the chain that picks
  one of seven themes (sunny, cloudy, foggy, drizzle, rainy, snowy, stormy) and the update of
  the theme classes on the page root.
- `Places` (`places.dfy`): the place title: the non-empty fields among name, region and
  country, joined with `", "`. Also the place chosen for the user's position.
- `Forecast` (`forecast.dfy`): the weather payload. It zips the parallel daily arrays into
  day records and builds the card and panel contents shown for them.
- `Search` (`search.dfy`): the search box. `trim`, and the state machine behind the debounce
  and duplicate check: the last query sent and the query of the pending timer.
- `Page` (`page.dfy`): the class `App`. It holds the state the event handlers change and has
  one method per handler or render step.
- `Wrappers` (`wrappers.dfy`): `Option`, and `Response`, the outcome of a remote request.

The timer is an abstract `Fire` event. The answers of the geocoder, the reverse geocoder and
the weather service are parameters of the methods that consume them.

The weather-code table and the theme chain do not agree. Codes 56, 57, 66, 67 and 77
(freezing drizzle, freezing rain, snow grains) have descriptions but belong to no theme
group, so they get the `cloudy` default. `WeatherCodes.DescribedButUnlisted` states this
exactly, and the model keeps the behaviour as written.

## Model

| member | source | states |
|---|---|---|
| `WeatherCodes.Describe` | logic.js:9-21 | a code listed in the table gets its (non-empty) table entry; any other code gets the fallback |
| `WeatherCodes.CurrentDescription` | logic.js:97 | the current-conditions description is never blank; a code in the table gets its table text, and the em dash appears exactly for codes the table lacks |
| `WeatherCodes.ForecastDescription` | logic.js:128 | a forecast card's description is the table text for a code in the table, and blank exactly for codes the table lacks |
| `WeatherCodes.ThemeOf` | logic.js:104-112 | a code some group lists gets a theme whose group lists it; every other integer gets `Cloudy` |
| `WeatherCodes.ListedOnce` | logic.js:105-111 | no code is listed by two groups, so the order of the chain does not decide anything |
| `WeatherCodes.ThemeOfListed` | logic.js:104-112 | each integer code has exactly one theme: the one whose group lists it, or `Cloudy` when no group does |
| `WeatherCodes.ListedAreDescribed` | logic.js:105-111 | every code the chain lists has a description in the table |
| `WeatherCodes.DescribedButUnlisted` | logic.js:104-112 | the described codes no group lists are exactly 56, 57, 66, 67 and 77, and they all get `Cloudy` |
| `WeatherCodes.ThemeClass` | logic.js:105-112 | every theme's class is one of the seven theme classes |
| `WeatherCodes.ThemeClassInjective` | logic.js:103-112 | distinct themes have distinct classes |
| `WeatherCodes.Themed` | logic.js:103-112 | after the update, the page root holds exactly one theme class, that of the code's theme, and every non-theme class is unchanged |
| `WeatherCodes.LastThemeWins` | logic.js:103-112 | two updates in a row leave what the second alone leaves: no earlier theme lingers |
| `Places.NonEmpty` | logic.js:64 | `filter(Boolean)` keeps exactly the non-empty fields; it keeps all of them, in order, when all are present, and nothing when all are empty |
| `Places.NonEmptyAppend` | logic.js:64 | filtering a concatenation is the concatenation of the filtered parts, so the kept fields stay in their original order |
| `Places.Join` | logic.js:65 | `join` of no parts is "" and of one part is that part |
| `Places.JoinEnds` | logic.js:65 | a join of one or more parts starts with the first part and ends with the last; with two or more parts, the separator follows the first |
| `Places.JoinLength` | logic.js:65 | a join holds its parts plus exactly one separator between each two of them |
| `Places.NonEmptyMeasures` | logic.js:64 | dropping empty fields loses no character; the number of parts left is the number of non-empty fields |
| `Places.TitleFieldsKept` | logic.js:77 | the title keeps each present field, in the order name, region, country |
| `Places.TitleEnds` | logic.js:77 | a present name opens the title, followed by ", " when the region or the country is present too; a present country closes it |
| `Places.TitleInOrder` | logic.js:77 | for every pattern of present fields, the title is exactly the present ones in order joined by ", ": `name, admin1, country` when all are present, `name, country` without a region, `admin1, country` without a name, `name, admin1` without a country, a lone field when only one is present |
| `Places.TitleLength` | logic.js:77 | the title's length is the fields' lengths plus one `", "` between each two present fields: no empty segment, no stray separator |
| `Places.TitleBlank` | logic.js:77 | the title is blank exactly when all three fields are |
| `Places.LocatedPlace` | logic.js:171-174 | the located place is the first reverse-geocoding result when there is one; otherwise (no results, or the lookup threw) it is titled "Current location" and carries the raw coordinates |
| `Forecast.Zip` | logic.js:116-118 | one day record per entry of `daily.time`; record i pairs the i-th time, code, maximum, minimum and precipitation sum |
| `Forecast.Unzip` | logic.js:116-118 | the parallel arrays rebuilt from a list of days are all as long as the list |
| `Forecast.UnzipZip` | logic.js:116-118 | unzipping the zip gives back every array cut to the length of `time`: the zip loses nothing |
| `Forecast.ZipUnzip` | logic.js:116-118 | every list of days is the zip of its own arrays: the zip invents nothing |
| `Forecast.CardOf` | logic.js:121-131 | a card shows the day's date and temperatures, the table's description for a known code and a blank one exactly for unknown codes, and zero for a missing precipitation sum |
| `Forecast.PanelOf` | logic.js:94-101 | the panel shows the current values, the table's description for a known code (never blank; an em dash for unknown codes), and zero for missing precipitation |
| `Search.IsSpaceCodePoints` | logic.js:140 | the characters `trim` removes are exactly the ECMAScript WhiteSpace and LineTerminator code points: U+0009 to U+000D, U+0020, U+00A0, U+1680, U+2000 to U+200A, U+2028, U+2029, U+202F, U+205F, U+3000, U+FEFF |
| `Search.TrimStart` | logic.js:140 | the result is a suffix of the text; everything cut is white space; it does not start with white space |
| `Search.TrimEnd` | logic.js:140 | the result is a prefix of the text; everything cut is white space; it does not end with white space |
| `Search.Trim` | logic.js:140 | exactly the leading and trailing white space is removed: the trimmed query is the text with a white-space prefix and a white-space suffix cut off; it is empty exactly when the text is all white space, and otherwise starts and ends with a visible character |
| `Search.Step` | logic.js:139-145 | an input never sends a request or changes `lastQuery`; it cancels the pending timer, then hides the panel and arms nothing when the trimmed query is empty, and otherwise arms a timer for the trimmed query. A request goes out exactly when a pending timer fires with a query other than `lastQuery`, and then `lastQuery` becomes that query |
| `Search.Run` | logic.js:139-145 | a run of handler invocations sends no more requests than there are events, keeps the pending timer's query non-blank, and leaves no timer pending after a firing |
| `Search.RequestsNeverRepeat` | logic.js:137-145 | over any sequence of inputs and timer firings, no request is blank, no request repeats the one before it, and `lastQuery` ends as the last request sent |
| `Search.SameQueryTwice` | logic.js:143-144 | typing the same query twice, each time letting the timer fire, sends at most one request |
| `Search.BlankInputCancels` | logic.js:141-142 | a blank input after a query cancels that query's timer: when the timer would have fired, nothing is sent |
| `Page.App.constructor` | logic.js:137-138 | a fresh page starts with an empty `lastQuery`, no pending timer, a hidden empty panel and nothing rendered |
| `Page.App.RenderSuggestions` | logic.js:60-74 | the panel holds one button per result, in order, labelled with the result's title; it is shown iff the list is non-empty |
| `Page.App.FillCurrent` | logic.js:93-113 | the current panel is shown for the block; the page root ends with exactly the theme class of its code and its other classes unchanged |
| `Page.App.FillForecast` | logic.js:114-134 | the forecast list is replaced by one card per entry of `time`, card i built from the i-th entry of every array |
| `Page.App.SelectPlace` | logic.js:76-91 | the title and coordinates are shown; a successful fetch renders panel, theme, forecast and time zone and reports the update time; a failed fetch reports the failure and leaves all rendered weather as it was |
| `Page.App.OnInput` | logic.js:139-142 | the pending timer is cancelled; a blank query hides the panel and arms nothing; any other query arms a timer for its trimmed text; `lastQuery` never changes |
| `Page.App.OnFire` | logic.js:143-145 | the timer's query is sent, and becomes `lastQuery`, exactly when it differs from `lastQuery`; otherwise nothing is sent and nothing changes |
| `Page.App.OnSearchResult` | logic.js:146-152 | results fill the panel (shown iff non-empty) with "pick a place" or "no matches"; a failed search only reports the failure |
| `Page.App.OnSuggestionClick` | logic.js:66-70 | the button's text, which is the place's title, goes into the search box and the panel is hidden; the place is selected with the whole outcome of `SelectPlace`: title and coordinates, then on success panel, theme, forecast, time zone and update time, and on failure the failure status with all rendered weather kept |
| `Page.App.OnDocumentClick` | logic.js:156-158 | a click outside both the panel and the search box hides the panel; any other click leaves it as it was |
| `Page.App.OnUseLocation` | logic.js:160-179 | without geolocation, or when the position is refused, only the status changes; otherwise the located place is selected with the whole outcome of `SelectPlace`: title and coordinates, then on success panel, theme, forecast, time zone and update time, and on failure the failure status with all rendered weather kept |
| `Page.SearchTwice` | logic.js:137-145 | against the class itself: the same query typed twice, each time followed by the timer, is sent at most once |

## Left out

- HTTP plumbing: building the geocoding, reverse-geocoding and forecast URLs, the `res.ok` checks and JSON parsing, including the `timezone || 'auto'` parameter. A request is an abstract `Response`: a decoded answer or `NetworkError`. A reverse lookup is `Threw` or an answer whose `results` may be missing.
- Number and date formatting (`fmtTemp`, `fmtWind`, `fmtPerc`, `fmtMm`, `toFixed(3)` on coordinates, `Math.round` on the forecast temperatures, `toLocaleString` and `toLocaleDateString`). These are floating-point and locale behaviour. Panels and cards carry the raw values. Only the `?? 0` of `fmtMm` is modelled.
- DOM access, markup, the status line's HTML and styling, and `console.error`. The status line is the `Status` datatype, and each constructor's comment gives its message.
- Wall-clock time. The 250 ms debounce and the 120 ms delay of `hideSuggestionsSoon` are not modelled. The timer firing is the `Fire` event. `OnSuggestionClick` hides the panel at once instead of after the delay.
- Races between overlapping requests. Each handler runs to completion with the outcome of its request as a parameter. Because `OnSearchResult` can come in any order relative to other events, a late answer overwriting the panel can still be expressed. Nothing is proved about it.
- `navigator.geolocation` and its options. `OnUseLocation` receives whether geolocation is supported and the position (or `None` when it was refused or failed).
- The startup routine at logic.js:182-185 (prefill "Kolkata" and select its first match). It is one-shot glue.
- Absent place fields (`undefined`) are modelled as the empty string, because `filter(Boolean)` drops both alike. So the two "Current location" fallbacks (logic.js:171 gives empty region and country; logic.js:174 leaves them out) are the same place in the model.
- `Page.App.FillForecast`, `Page.App.SelectPlace`, `Page.App.OnSuggestionClick`, `Page.App.OnUseLocation`: these require every daily array to be at least as long as `daily.time`. On a shorter payload the script still renders a card for every day; past the end of a short array a card shows an empty description (`WMO[undefined] || ''`), `NaN°` temperatures (`Math.round(undefined)`) and `0.0 mm` (`undefined ?? 0`). The model does not describe those cards.
- Errors thrown while rendering a malformed payload (for example a missing `current` block after part of the page was updated) are not modelled.
