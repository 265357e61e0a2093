/** The page and session state the widget's event handlers change: the search box and its
    debounce state, the suggestion panel, the status line, the place header, the current
    conditions, the theme classes on the page root and the forecast list. */
module Page {
  import opened Wrappers
  import opened WeatherCodes
  import opened Places
  import opened Forecast
  import opened Search

  /** The message on the status line. */
  datatype Status =
    | Idle
    | SearchingPlaces          // "Searching places…"
    | PickPlace                // "Pick a place from the list."
    | NoMatches                // "No matches. Try a different query."
    | SearchFailed             // "Search failed. Check your connection."
    | FetchingWeather          // "Fetching latest weather…"
    | Updated(time: string)    // "Updated: <time of the current block>"
    | WeatherFailed            // "Failed to fetch weather. Try another location."
    | Locating                 // "Getting your location…"
    | GeolocationUnsupported   // "Geolocation is not supported on this device."
    | LocationDenied           // "Location access denied. Search by name instead."

  /** One button of the suggestion panel: its text and the place it selects. */
  datatype Suggestion = Suggestion(text: string, place: Place)

  /** The button for a place: labelled with its title. */
  function SuggestionOf(place: Place): Suggestion
  {
    Suggestion(Title(place), place)
  }

  class App {
    // The search box and the session variables of the input handler.
    var query: string
    var lastQuery: string
    var armed: Option<string>
    // The suggestion panel.
    var suggestions: seq<Suggestion>
    var panelShown: bool
    // The status line and the place header.
    var status: Status
    var placeTitle: string
    var coordinates: Option<(real, real)>
    var timezone: string
    // The rendered weather.
    var current: Option<Panel>
    var bodyClasses: set<string>
    var forecast: seq<Card>

    /** The search box's debounce state. */
    function SearchState(): Search.SearchState
      reads this
    {
      Search.SearchState(lastQuery, armed)
    }

    /** Every suggestion button is labelled with the title of the place it selects. */
    predicate Valid()
      reads this`suggestions
    {
      forall i :: 0 <= i < |suggestions| ==> suggestions[i] == SuggestionOf(suggestions[i].place)
    }

    /** The page shows the weather answer `wx`: its current conditions, the theme of its
        code over the root classes `classesBefore`, one card per day in order, its time zone,
        and the time it was updated. */
    predicate ShowsWeather(wx: Weather, classesBefore: set<string>)
      reads this`current, this`bodyClasses, this`forecast, this`timezone, this`status
    {
      && current == Some(PanelOf(wx.current))
      && bodyClasses == Themed(classesBefore, wx.current.weatherCode)
      && WellFormed(wx.daily)
      && |forecast| == |wx.daily.time|
      && (forall i :: 0 <= i < |forecast| ==> forecast[i] == CardOf(Zip(wx.daily)[i]))
      && timezone == wx.timezone
      && status == Updated(wx.current.time)
    }

    /** A freshly loaded page whose root carries `classes`. */
    constructor (classes: set<string>)
      ensures SearchState() == Initial && query == ""
      ensures suggestions == [] && !panelShown && status == Idle
      ensures placeTitle == "" && coordinates == None && timezone == ""
      ensures current == None && bodyClasses == classes && forecast == []
      ensures Valid()
    {
      query, lastQuery, armed := "", "", None;
      suggestions, panelShown := [], false;
      status, placeTitle, coordinates, timezone := Idle, "", None, "";
      current, bodyClasses, forecast := None, classes, [];
    }

    /** Fills the panel with one button per result, in order, and shows it iff there is one. */
    method RenderSuggestions(results: seq<Place>)
      modifies this`suggestions, this`panelShown
      ensures |suggestions| == |results|
      ensures forall i :: 0 <= i < |results| ==> suggestions[i] == SuggestionOf(results[i])
      ensures panelShown <==> results != []
      ensures Valid()
    {
      suggestions := [];
      for i := 0 to |results|
        invariant |suggestions| == i
        invariant forall j :: 0 <= j < i ==> suggestions[j] == SuggestionOf(results[j])
      {
        suggestions := suggestions + [SuggestionOf(results[i])];
      }
      panelShown := |results| > 0;
    }

    /** Shows the current conditions and puts exactly the matching theme class on the page
        root: all seven theme classes are removed, then the one for the code is added. */
    method FillCurrent(c: Current)
      modifies this`current, this`bodyClasses
      ensures current == Some(PanelOf(c))
      ensures bodyClasses == Themed(old(bodyClasses), c.weatherCode)
      ensures bodyClasses * ThemeClasses == {ThemeClass(ThemeOf(c.weatherCode))}
      ensures bodyClasses - ThemeClasses == old(bodyClasses) - ThemeClasses
    {
      current := Some(PanelOf(c));
      bodyClasses := bodyClasses - ThemeClasses;
      bodyClasses := bodyClasses + {ThemeClass(ThemeOf(c.weatherCode))};
    }

    /** Replaces the forecast list with one card per day, in order. */
    method FillForecast(d: Daily)
      requires WellFormed(d)
      modifies this`forecast
      ensures |forecast| == |d.time|
      ensures forall i :: 0 <= i < |forecast| ==>
                forecast[i] == CardOf(Day(d.time[i], d.weatherCode[i], d.temperatureMax[i],
                                          d.temperatureMin[i], d.precipitationSum[i]))
    {
      var days := Zip(d);
      forecast := [];
      for i := 0 to |days|
        invariant |forecast| == i
        invariant forall j :: 0 <= j < i ==> forecast[j] == CardOf(days[j])
      {
        forecast := forecast + [CardOf(days[i])];
      }
    }

    /** Selects a place: shows its title and coordinates, then renders the fetched weather,
        or, when the fetch failed, reports it and leaves the rendered weather as it was. */
    method SelectPlace(place: Place, fetched: Response<Weather>)
      requires fetched.Ok? ==> WellFormed(fetched.value.daily)
      modifies this`placeTitle, this`coordinates, this`status, this`timezone
      modifies this`current, this`bodyClasses, this`forecast
      ensures placeTitle == Title(place) && coordinates == Some((place.latitude, place.longitude))
      ensures fetched.Ok? ==>
                ShowsWeather(fetched.value, old(bodyClasses))
      ensures fetched.NetworkError? ==>
                && current == old(current) && bodyClasses == old(bodyClasses)
                && forecast == old(forecast) && timezone == old(timezone)
                && status == WeatherFailed
    {
      placeTitle := Title(place);
      coordinates := Some((place.latitude, place.longitude));
      status := FetchingWeather;
      match fetched
      case Ok(wx) =>
        FillCurrent(wx.current);
        FillForecast(wx.daily);
        timezone := wx.timezone;
        status := Updated(wx.current.time);
      case NetworkError =>
        status := WeatherFailed;
    }

    /** The input handler: cancels the pending timer; a blank query hides the panel, any
        other query arms a timer for it. */
    method OnInput(value: string)
      modifies this`query, this`armed, this`panelShown
      ensures query == value
      ensures SearchState() == Step(old(SearchState()), Input(value)).next
      ensures lastQuery == old(lastQuery)
      ensures Trim(value) == "" ==> armed == None && !panelShown
      ensures Trim(value) != "" ==> armed == Some(Trim(value)) && panelShown == old(panelShown)
    {
      query := value;
      var q := Trim(value);
      armed := None;
      if q == "" {
        panelShown := false;
        return;
      }
      armed := Some(q);
    }

    /** The pending timer fires: its query is sent, and becomes the last query, unless it
        equals the last query; nothing happens when no timer is pending. */
    method OnFire() returns (request: Option<string>)
      modifies this`lastQuery, this`armed, this`status
      ensures SearchState() == Step(old(SearchState()), Fire).next
      ensures request == Step(old(SearchState()), Fire).request
      ensures request.Some? <==> old(armed).Some? && old(armed).value != old(lastQuery)
      ensures request.Some? ==> request == old(armed) && lastQuery == request.value && status == SearchingPlaces
      ensures request.None? ==> lastQuery == old(lastQuery) && status == old(status)
      ensures armed == None
    {
      request := None;
      match armed
      case None =>
      case Some(q) =>
        armed := None;
        if q == lastQuery {
          return;
        }
        lastQuery := q;
        status := SearchingPlaces;
        request := Some(q);
    }

    /** The geocoder answers a request: the results fill the panel, or the failure is reported
        and the panel is left as it was. */
    method OnSearchResult(answer: Response<seq<Place>>)
      modifies this`suggestions, this`panelShown, this`status
      ensures answer.Ok? ==>
                && |suggestions| == |answer.value|
                && (forall i :: 0 <= i < |answer.value| ==>
                      suggestions[i] == SuggestionOf(answer.value[i]))
                && (panelShown <==> answer.value != [])
                && status == (if answer.value != [] then PickPlace else NoMatches)
      ensures answer.NetworkError? ==>
                suggestions == old(suggestions) && panelShown == old(panelShown) && status == SearchFailed
      ensures old(Valid()) ==> Valid()
    {
      match answer
      case Ok(results) =>
        RenderSuggestions(results);
        status := if |results| > 0 then PickPlace else NoMatches;
      case NetworkError =>
        status := SearchFailed;
    }

    /** A click on the suggestion button `i`: its text goes into the search box, its place
        is selected and the panel is hidden. */
    method OnSuggestionClick(i: nat, fetched: Response<Weather>)
      requires Valid() && i < |suggestions|
      requires fetched.Ok? ==> WellFormed(fetched.value.daily)
      modifies this`query, this`panelShown
      modifies this`placeTitle, this`coordinates, this`status, this`timezone
      modifies this`current, this`bodyClasses, this`forecast
      ensures query == old(suggestions[i].text) && !panelShown
      ensures placeTitle == query
      ensures var place := old(suggestions[i].place);
              && placeTitle == Title(place)
              && coordinates == Some((place.latitude, place.longitude))
      ensures fetched.Ok? ==>
                ShowsWeather(fetched.value, old(bodyClasses))
      ensures fetched.NetworkError? ==>
                && current == old(current) && bodyClasses == old(bodyClasses)
                && forecast == old(forecast) && timezone == old(timezone)
                && status == WeatherFailed
    {
      var chosen := suggestions[i];
      assert chosen.text == Title(chosen.place);
      query := chosen.text;
      SelectPlace(chosen.place, fetched);
      panelShown := false;
    }

    /** A click anywhere on the page: outside both the panel and the search box it hides the panel. */
    method OnDocumentClick(onPanel: bool, onSearchBox: bool)
      modifies this`panelShown
      ensures panelShown == (old(panelShown) && (onPanel || onSearchBox))
    {
      if !onPanel && !onSearchBox {
        panelShown := false;
      }
    }

    /** The "use my location" button. Without geolocation support, or when the position is
        refused, only the status line changes; otherwise the place for the position is
        selected: the first reverse-geocoding result, or "Current location" at the raw
        coordinates. */
    method OnUseLocation(supported: bool, position: Option<(real, real)>, lookup: ReverseLookup,
                         fetched: Response<Weather>)
      requires fetched.Ok? ==> WellFormed(fetched.value.daily)
      modifies this`placeTitle, this`coordinates, this`status, this`timezone
      modifies this`current, this`bodyClasses, this`forecast
      ensures !supported ==> status == GeolocationUnsupported && placeTitle == old(placeTitle)
      ensures supported && position.None? ==> status == LocationDenied && placeTitle == old(placeTitle)
      ensures !supported || position.None? ==>
                && current == old(current) && forecast == old(forecast) && coordinates == old(coordinates)
                && bodyClasses == old(bodyClasses) && timezone == old(timezone)
      ensures supported && position.Some? ==>
                var place := LocatedPlace(lookup, position.value.0, position.value.1);
                && placeTitle == Title(place)
                && coordinates == Some((place.latitude, place.longitude))
      ensures supported && position.Some? && fetched.Ok? ==>
                ShowsWeather(fetched.value, old(bodyClasses))
      ensures supported && position.Some? && fetched.NetworkError? ==>
                && current == old(current) && bodyClasses == old(bodyClasses)
                && forecast == old(forecast) && timezone == old(timezone)
                && status == WeatherFailed
    {
      if !supported {
        status := GeolocationUnsupported;
        return;
      }
      status := Locating;
      match position
      case None =>
        status := LocationDenied;
      case Some((latitude, longitude)) =>
        SelectPlace(LocatedPlace(lookup, latitude, longitude), fetched);
    }
  }

  /** Two identical queries typed in a row, each followed by its timer, send one request at most. */
  method SearchTwice(app: App, value: string) returns (first: Option<string>, second: Option<string>)
    modifies app
    ensures first.None? || second.None?
  {
    app.OnInput(value);
    first := app.OnFire();
    app.OnInput(value);
    second := app.OnFire();
  }
}
