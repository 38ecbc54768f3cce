/** src/context/WeatherContext.jsx: the weather session. Six state fields, the two
    fetch transitions (by name and by coordinates), refresh, the unit switch and
    the initial load. A fetch is one atomic transition: it starts (loading on,
    error cleared), issues its two requests, and settles with the outcome, which
    is an input. */
module WeatherContext {
  import opened Wrappers
  import opened Payloads
  import Constants
  import StorageService
  import WeatherService

  /** How the two parallel requests of a fetch settle: both replies, or the first
      rejection with the server's `message`, if any. A reply body may be null. */
  datatype FetchOutcome =
    | Success(weather: Option<Weather>, forecast: Option<Forecast>)
    | Failure(message: Option<string>)

  const DefaultError := "Failed to fetch weather data"
  const ForecastDays := 7

  /** The session's state fields. */
  datatype SessionState = SessionState(
    currentWeather: Option<Weather>,
    forecast: Option<Forecast>,
    loading: bool,
    error: Option<string>,
    location: Option<Location>,
    units: string)

  /** What a settled fetch writes to the last-location slot of the store. */
  datatype LastWrite = NoWrite | WriteLast(loc: Option<Location>)

  predicate Truthy(s: Option<string>) {
    s.Some? && s.value != ""
  }

  /** `err.response?.data?.message || 'Failed to fetch weather data'` */
  function ErrorText(message: Option<string>): (r: string)
    ensures r != ""
    ensures Truthy(message) ==> r == message.value
    ensures !Truthy(message) ==> r == DefaultError
  {
    if Truthy(message) then message.value else DefaultError
  }

  /** fetchWeatherByCoords's in-place tag: a truthy station name is written into
      the reply's location. None where the tag throws because the reply has no
      location. */
  function Tagged(w: Weather, stationName: Option<string>): (r: Option<Weather>)
    ensures !Truthy(stationName) ==> r == Some(w)
    ensures Truthy(stationName) ==> (r.Some? <==> w.location.Some?)
    ensures Truthy(stationName) && r.Some? ==>
              r.value.current == w.current && r.value.location == Some(w.location.value.(stationName := stationName))
  {
    if !Truthy(stationName) then Some(w)
    else
      match w.location
      case None => None
      case Some(l) => Some(w.(location := Some(l.(stationName := stationName))))
  }

  /** The state right after a fetch starts: loading on, the error cleared, the
      data, location and units as they were. */
  function Begun(s: SessionState): (r: SessionState)
    ensures r.loading && r.error.None?
    ensures r.currentWeather == s.currentWeather && r.forecast == s.forecast
    ensures r.location == s.location && r.units == s.units
  {
    s.(loading := true, error := None)
  }

  /** The state after a fetch settles, and what it persists. The fetch by name
      passes no station name. A null weather body makes reading its location
      throw: after the current weather (null) and the forecast are set by name,
      and before anything is set when a station name is to be tagged. */
  function Settled(s: SessionState, outcome: FetchOutcome, stationName: Option<string>): (r: (SessionState, LastWrite))
    ensures !r.0.loading && r.0.units == s.units
    ensures outcome.Failure? ==> r == (s.(loading := false, error := Some(ErrorText(outcome.message))), NoWrite)
    ensures r.1.WriteLast? ==>
              && outcome.Success? && r.0.error == s.error
              && r.0.currentWeather.Some? && r.0.location == r.1.loc == r.0.currentWeather.value.location
              && r.0.forecast == outcome.forecast
    ensures r.1 == NoWrite ==> r.0.error.Some? && r.0.error.value != "" && r.0.location == s.location
  {
    match outcome
    case Failure(m) => (s.(loading := false, error := Some(ErrorText(m))), NoWrite)
    case Success(None, f) =>
      if Truthy(stationName) then (s.(loading := false, error := Some(DefaultError)), NoWrite)
      else (s.(currentWeather := None, forecast := f, loading := false, error := Some(DefaultError)), NoWrite)
    case Success(Some(w), f) =>
      match Tagged(w, stationName)
      case None => (s.(loading := false, error := Some(DefaultError)), NoWrite)
      case Some(t) =>
        (s.(currentWeather := Some(t), forecast := f, loading := false, location := t.location), WriteLast(t.location))
  }

  /** The query of the initial load: the last location's name, else London. */
  function InitialQuery(last: Option<Location>): (r: string)
    ensures r != ""
    ensures last.Some? && last.value.name != "" ==> r == last.value.name
    ensures last.None? || last.value.name == "" ==> r == Constants.DefaultLocation
  {
    if last.Some? && last.value.name != "" then last.value.name else Constants.DefaultLocation
  }

  /** The store after a settled fetch: the last-location key rewritten when the
      fetch succeeded, nothing otherwise. */
  function Persisted(items: map<string, string>, write: LastWrite): (r: map<string, string>)
    ensures write == NoWrite ==> r == items
    ensures write.WriteLast? ==>
              StorageService.LastLocationKey in r && StorageService.ReadLocation(Some(r[StorageService.LastLocationKey])) == write.loc
    ensures forall k :: k != StorageService.LastLocationKey ==> (k in r <==> k in items) && (k in r ==> r[k] == items[k])
  {
    match write
    case NoWrite => items
    case WriteLast(loc) =>
      StorageService.LastLocationRoundTrip(loc);
      items[StorageService.LastLocationKey := StorageService.WriteLocation(loc)]
  }

  // ---------------------------------------------------------------- transition facts

  /** Starting a fetch turns loading on and clears the error; every fetch, however
      it ends, turns loading off and leaves the units alone. */
  lemma LoadingBrackets(s: SessionState, outcome: FetchOutcome, stationName: Option<string>)
    ensures Begun(s).loading && Begun(s).error.None?
    ensures !Settled(Begun(s), outcome, stationName).0.loading
    ensures Settled(Begun(s), outcome, stationName).0.units == s.units
  {
  }

  /** A failed fetch shows the server's message (or the fallback) and keeps the
      weather, forecast and location it had; nothing is persisted. */
  lemma FailureKeepsData(s: SessionState, message: Option<string>, stationName: Option<string>)
    ensures var (t, w) := Settled(Begun(s), FetchOutcome.Failure(message), stationName);
      && t.error == Some(ErrorText(message))
      && t.currentWeather == s.currentWeather && t.forecast == s.forecast && t.location == s.location
      && w == NoWrite
  {
  }

  /** A successful fetch by name shows the reply, takes the reply's location as
      the session location, persists exactly that location, and leaves no error. */
  lemma SuccessByName(s: SessionState, w: Weather, f: Option<Forecast>)
    ensures var (t, write) := Settled(Begun(s), FetchOutcome.Success(Some(w), f), None);
      && t.currentWeather == Some(w) && t.forecast == f && t.location == w.location
      && t.error.None? && write == WriteLast(w.location)
  {
  }

  /** By coordinates with a truthy station name, the station name is in the
      location that is shown and persisted; without a location in the reply the
      fetch fails with the fallback message and nothing changes but the error. */
  lemma StationTagPersisted(s: SessionState, w: Weather, f: Option<Forecast>, stationName: Option<string>)
    requires Truthy(stationName)
    ensures var (t, write) := Settled(Begun(s), FetchOutcome.Success(Some(w), f), stationName);
      && (w.location.Some? ==>
            && t.location == Some(w.location.value.(stationName := stationName))
            && t.location.value.stationName == stationName
            && write == WriteLast(t.location)
            && t.currentWeather == Tagged(w, stationName) && t.forecast == f
            && t.currentWeather.Some? && t.currentWeather.value.current == w.current
            && t.currentWeather.Some? && t.currentWeather.value.location == t.location)
      && (w.location.None? ==>
            && t.error == Some(DefaultError) && write == NoWrite
            && t.currentWeather == s.currentWeather && t.location == s.location && t.forecast == s.forecast)
  {
  }

  /** A reload after a fetch that persisted a named location starts from that
      location's name. */
  lemma InitialQueryResumes(l: Location)
    requires l.name != ""
    ensures InitialQuery(StorageService.ReadLocation(Some(StorageService.WriteLocation(Some(l))))) == l.name
  {
    StorageService.LastLocationRoundTrip(Some(l));
  }

  // ---------------------------------------------------------------- the session

  class WeatherSession {
    var currentWeather: Option<Weather>
    var forecast: Option<Forecast>
    var loading: bool
    var error: Option<string>
    var location: Option<Location>
    var units: string
    const store: StorageService.Storage

    function State(): SessionState
      reads this
    {
      SessionState(currentWeather, forecast, loading, error, location, units)
    }

    /** The provider's initial state: nothing loaded, units from the store. */
    constructor(store: StorageService.Storage)
      ensures this.store == store
      ensures State() == SessionState(None, None, false, None, None, store.Units())
    {
      this.store := store;
      currentWeather := None;
      forecast := None;
      loading := false;
      error := None;
      location := None;
      units := store.Units();
    }

    method Begin()
      modifies this
      ensures State() == Begun(old(State()))
    {
      loading := true;
      error := None;
    }

    method Settle(outcome: FetchOutcome, stationName: Option<string>)
      modifies this, store
      ensures State() == Settled(old(State()), outcome, stationName).0
      ensures store.items == Persisted(old(store.items), Settled(old(State()), outcome, stationName).1)
      ensures store.RecentSearches() == old(store.RecentSearches()) && store.Favorites() == old(store.Favorites())
    {
      match outcome {
        case Failure(m) =>
          error := Some(ErrorText(m));
        case Success(None, f) =>
          if !Truthy(stationName) {
            currentWeather := None;
            forecast := f;
          }
          error := Some(DefaultError);
        case Success(Some(w), f) =>
          var t := Tagged(w, stationName);
          if t.None? {
            error := Some(DefaultError);
          } else {
            currentWeather := t;
            forecast := f;
            location := t.value.location;
            store.SetLastLocation(t.value.location);
          }
      }
      loading := false;
    }

    /** fetchWeatherData(query): the current conditions and a seven-day forecast
        for the query. */
    method FetchWeatherData(query: string, outcome: FetchOutcome) returns (requests: seq<WeatherService.Request>)
      modifies this, store
      ensures requests == [WeatherService.CurrentWeatherRequest(query), WeatherService.ForecastRequest(query, ForecastDays)]
      ensures State() == Settled(Begun(old(State())), outcome, None).0
      ensures store.items == Persisted(old(store.items), Settled(Begun(old(State())), outcome, None).1)
      ensures store.RecentSearches() == old(store.RecentSearches()) && store.Favorites() == old(store.Favorites())
    {
      Begin();
      requests := [WeatherService.CurrentWeatherRequest(query), WeatherService.ForecastRequest(query, ForecastDays)];
      Settle(outcome, None);
    }

    /** fetchWeatherByCoords(lat, lon, stationName): the conditions at the
        coordinates and a seven-day forecast for the query "lat,lon". */
    method FetchWeatherByCoords(lat: string, lon: string, stationName: Option<string>, outcome: FetchOutcome)
      returns (requests: seq<WeatherService.Request>)
      modifies this, store
      ensures requests == [WeatherService.CoordinatesRequest(lat, lon),
                           WeatherService.ForecastRequest(lat + "," + lon, ForecastDays)]
      ensures State() == Settled(Begun(old(State())), outcome, stationName).0
      ensures store.items == Persisted(old(store.items), Settled(Begun(old(State())), outcome, stationName).1)
      ensures store.RecentSearches() == old(store.RecentSearches()) && store.Favorites() == old(store.Favorites())
    {
      Begin();
      requests := [WeatherService.CoordinatesRequest(lat, lon),
                   WeatherService.ForecastRequest(lat + "," + lon, ForecastDays)];
      Settle(outcome, stationName);
    }

    /** refreshWeather: without a location nothing happens; otherwise a fetch by
        the location's name. */
    method RefreshWeather(outcome: FetchOutcome) returns (requests: seq<WeatherService.Request>)
      modifies this, store
      ensures old(location).None? ==> requests == [] && State() == old(State()) && store.items == old(store.items)
      ensures old(location).Some? ==>
                && requests == [WeatherService.CurrentWeatherRequest(old(location).value.name),
                                WeatherService.ForecastRequest(old(location).value.name, ForecastDays)]
                && State() == Settled(Begun(old(State())), outcome, None).0
                && store.items == Persisted(old(store.items), Settled(Begun(old(State())), outcome, None).1)
    {
      if location.None? {
        requests := [];
      } else {
        requests := FetchWeatherData(location.value.name, outcome);
      }
    }

    /** changeUnits: the session's units and the stored units. */
    method ChangeUnits(newUnits: string)
      modifies this, store
      ensures State() == old(State()).(units := newUnits)
      ensures store.items == old(store.items)[StorageService.UnitsKey := newUnits]
    {
      units := newUnits;
      store.SetUnits(newUnits);
    }

    /** The mount effect: a fetch by the last location's name, or London. */
    method InitialLoad(outcome: FetchOutcome) returns (requests: seq<WeatherService.Request>)
      modifies this, store
      ensures requests == [WeatherService.CurrentWeatherRequest(InitialQuery(old(store.LastLocation()))),
                           WeatherService.ForecastRequest(InitialQuery(old(store.LastLocation())), ForecastDays)]
      ensures State() == Settled(Begun(old(State())), outcome, None).0
      ensures store.items == Persisted(old(store.items), Settled(Begun(old(State())), outcome, None).1)
    {
      var query := InitialQuery(store.LastLocation());
      requests := FetchWeatherData(query, outcome);
    }
  }
}
