/** src/services/weatherService.js: the backend requests the app issues and the
    normalisation of the search replies. A request is modelled by the path and the
    query parameters it carries; the reply (or its rejection) is an input. */
module WeatherService {
  import opened Wrappers
  import opened Payloads
  import Text

  /** A GET request against the backend: path and query parameters in order. */
  datatype Request = Get(path: string, params: seq<(string, string)>)

  /** The value axios sends for a query parameter: the first with that name. */
  function Param(params: seq<(string, string)>, key: string): (r: Option<string>)
    ensures r.Some? ==> exists i :: 0 <= i < |params| && params[i] == (key, r.value)
    ensures r.None? ==> forall i :: 0 <= i < |params| ==> params[i].0 != key
  {
    if params == [] then None
    else if params[0].0 == key then Some(params[0].1)
    else Param(params[1..], key)
  }

  /** getCurrentWeather: GET /weather/current with the location, and nothing else. */
  function CurrentWeatherRequest(location: string): (r: Request)
    ensures r.path == "/weather/current" && |r.params| == 1
    ensures Param(r.params, "location") == Some(location)
  {
    Get("/weather/current", [("location", location)])
  }

  /** getForecast; `days` defaults to 3 when the caller omits it. */
  function ForecastRequest(location: string, days: int := 3): (r: Request)
    ensures r.path == "/weather/forecast" && |r.params| == 2
    ensures r.params[0] == ("location", location) && r.params[1].0 == "days"
    ensures Text.ParseInt(r.params[1].1) == Some(days)
  {
    Text.ParseIntRoundTrip(days);
    Get("/weather/forecast", [("location", location), ("days", Text.IntToString(days))])
  }

  /** getWeatherByCoordinates: GET /weather/by-coordinates with lat and lon. */
  function CoordinatesRequest(lat: string, lon: string): (r: Request)
    ensures r.path == "/weather/by-coordinates" && |r.params| == 2
    ensures Param(r.params, "lat") == Some(lat) && Param(r.params, "lon") == Some(lon)
  {
    Get("/weather/by-coordinates", [("lat", lat), ("lon", lon)])
  }

  /** searchLocation: GET /weather/search with the query. */
  function SearchRequest(query: string): (r: Request)
    ensures r.path == "/weather/search" && |r.params| == 1
    ensures Param(r.params, "query") == Some(query)
  {
    Get("/weather/search", [("query", query)])
  }

  /** searchAqiStations: GET /aqi/search with the keyword. */
  function StationSearchRequest(keyword: string): (r: Request)
    ensures r.path == "/aqi/search" && |r.params| == 1
    ensures Param(r.params, "keyword") == Some(keyword)
  {
    Get("/aqi/search", [("keyword", keyword)])
  }

  /** The five requests go to five different endpoints, and each request
      determines the arguments it was built from. */
  lemma RequestsDistinct(a: string, b: string, c: string, d: int)
    ensures CurrentWeatherRequest(a) != ForecastRequest(b, d) && CurrentWeatherRequest(a) != CoordinatesRequest(b, c)
    ensures CurrentWeatherRequest(a) != SearchRequest(b) && SearchRequest(a) != StationSearchRequest(b)
    ensures ForecastRequest(a, d) != CoordinatesRequest(b, c)
    ensures CurrentWeatherRequest(a) == CurrentWeatherRequest(b) ==> a == b
    ensures SearchRequest(a) == SearchRequest(b) ==> a == b
    ensures StationSearchRequest(a) == StationSearchRequest(b) ==> a == b
  {
    assert "/weather/current"[9] != "/weather/forecast"[9];
    assert "/weather/current"[9] != "/weather/by-coordinates"[9];
    assert "/weather/current"[9] != "/weather/search"[9];
    assert "/weather/forecast"[9] != "/weather/by-coordinates"[9];
    assert |"/weather/search"| != |"/aqi/search"|;
    if CurrentWeatherRequest(a) == CurrentWeatherRequest(b) {
      assert CurrentWeatherRequest(a).params[0].1 == a;
    }
    if SearchRequest(a) == SearchRequest(b) {
      assert SearchRequest(a).params[0].1 == a;
    }
    if StationSearchRequest(a) == StationSearchRequest(b) {
      assert StationSearchRequest(a).params[0].1 == a;
    }
  }

  /** A forecast requested without a day count asks for three days. */
  lemma ForecastDefaultDays(location: string)
    ensures ForecastRequest(location) == ForecastRequest(location, 3)
    ensures Text.ParseInt(ForecastRequest(location).params[1].1) == Some(3)
  {
  }

  // ---------------------------------------------------------------- search replies

  /** What a request promise settles with: a rejection, or the reply's body. */
  datatype Reply<T> = Rejected | Resolved(body: T)

  /** The body of the location search reply: an array of cities, an object
      (with its `value` property, which may itself be any body), null or
      undefined, or another falsy value ("", 0, false). */
  datatype SearchBody =
    | Array(cities: seq<City>)
    | Object(value: SearchBody)
    | Null
    | FalsyPrimitive

  predicate Truthy(b: SearchBody) {
    b.Array? || b.Object?
  }

  /** searchLocation's normalisation: an array as it is; otherwise `value` if
      truthy, else the body itself if truthy, else []. None where reading
      `value` of null throws. */
  function SearchLocation(b: SearchBody): (r: Option<SearchBody>)
    ensures r.None? <==> b.Null?
    ensures r.Some? ==> Truthy(r.value)
    ensures b.Array? ==> r == Some(b)
    ensures b.Object? && Truthy(b.value) ==> r == Some(b.value)
    ensures b.Object? && !Truthy(b.value) ==> r == Some(b)
  {
    match b
    case Array(_) => Some(b)
    case Null => None
    case FalsyPrimitive => Some(Array([]))
    case Object(v) => if Truthy(v) then Some(v) else Some(b)
  }

  /** The body of the station search reply: null, or an object whose `data`
      property is the station list (None when absent or falsy). */
  datatype StationsBody = NullStations | StationsObject(data: Option<seq<Station>>)

  /** searchEnhanced's result; `cities` is whatever searchLocation gave. */
  datatype EnhancedResult = EnhancedResult(cities: SearchBody, stations: seq<Station>)

  const NoResults := EnhancedResult(Array([]), [])

  /** The cities searchEnhanced takes from the city search: what searchLocation
      gave, or [] when the search failed (a null body makes it throw). */
  function CitiesOf(cityReply: Reply<SearchBody>): (r: SearchBody)
    ensures Truthy(r)
    ensures cityReply.Rejected? || cityReply.body.Null? ==> r == Array([])
  {
    match cityReply
    case Rejected => Array([])
    case Resolved(b) => SearchLocation(b).GetOr(Array([]))
  }

  /** The station source: a failed search stands for `{data: []}`. */
  function StationsBodyOf(stationReply: Reply<StationsBody>): StationsBody {
    match stationReply
    case Rejected => StationsObject(Some([]))
    case Resolved(s) => s
  }

  /** searchEnhanced: each source's failure is caught on its own; reading `data`
      of a null station body throws inside the outer try, which answers with no
      results at all. */
  function SearchEnhanced(cityReply: Reply<SearchBody>, stationReply: Reply<StationsBody>): (r: EnhancedResult)
    ensures Truthy(r.cities)
  {
    match StationsBodyOf(stationReply)
    case NullStations => NoResults
    case StationsObject(data) => EnhancedResult(CitiesOf(cityReply), data.GetOr([]))
  }

  /** Failure isolation: unless the station body is null, the cities are those
      of the city reply alone and the stations those of the station reply alone;
      a failed city search yields [] and a failed station search yields []. */
  lemma SourcesIsolated(cityReply: Reply<SearchBody>, stationReply: Reply<StationsBody>)
    ensures stationReply != Resolved(NullStations) ==> SearchEnhanced(cityReply, stationReply).cities == CitiesOf(cityReply)
    ensures stationReply.Rejected? ==> SearchEnhanced(cityReply, stationReply).stations == []
    ensures stationReply.Resolved? && stationReply.body.StationsObject? ==>
              SearchEnhanced(cityReply, stationReply).stations == stationReply.body.data.GetOr([])
    ensures cityReply.Rejected? && stationReply != Resolved(NullStations) ==>
              SearchEnhanced(cityReply, stationReply).cities == Array([])
    ensures stationReply == Resolved(NullStations) ==> SearchEnhanced(cityReply, stationReply) == NoResults
  {
  }

  /** The stations never depend on the city search, whatever it returned. */
  lemma StationsIndependentOfCities(c1: Reply<SearchBody>, c2: Reply<SearchBody>, stationReply: Reply<StationsBody>)
    ensures SearchEnhanced(c1, stationReply).stations == SearchEnhanced(c2, stationReply).stations
  {
  }
}
