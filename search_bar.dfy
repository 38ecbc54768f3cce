/** src/components/search/SearchBar.jsx: the search box's state (query, the three
    suggestion lists, the open flag, the busy flag), the suggestion fetch, the
    three selection handlers, the station index label and colour, and the order
    and caps of the suggestion panel. The search replies, the Places results and
    the weather fetch outcome are inputs. */
module SearchBar {
  import opened Wrappers
  import opened Payloads
  import Text
  import Constants
  import AqiCalculator
  import StorageService
  import JsonCodec
  import WeatherService
  import WeatherContext

  const MinQueryLength := 2
  const MaxPlacesShown := 5
  const MaxStationsShown := 8
  const StationRegion := "AQI Station"

  // ---------------------------------------------------------------- records

  /** handleSelectCity's recent-search entry. */
  function CityRecord(c: City): Location {
    Location(c.name, c.region, c.country, None)
  }

  /** handleSelectStation's recent-search entry. */
  function StationRecord(s: Station): Location {
    Location(s.name, StationRegion, "", None)
  }

  /** handleSelectGooglePlace's recent-search entry: the region is the
      prediction's secondary text, or "". */
  function PlaceRecord(place: Prediction, details: PlaceDetails): (r: Location)
    ensures r.name == details.name && r.country == "" && r.stationName.None?
    ensures place.secondaryText.Some? ==> r.region == place.secondaryText.value
    ensures place.secondaryText.None? ==> r.region == ""
  {
    Location(details.name, place.secondaryText.GetOr(""), "", None)
  }

  /** The store after addRecentSearch(loc), given the recent searches it read:
      only the recent-search key changes. */
  function AfterRecord(items: map<string, string>, recent: seq<Location>, loc: Location): map<string, string> {
    items[StorageService.RecentSearchesKey := JsonCodec.EncodeLocations(StorageService.PushRecent(recent, loc))]
  }

  /** `const [lat, lon] = station.station.geo`: a missing coordinate is undefined,
      which the template literal renders as "undefined". */
  function GeoPart(geo: seq<string>, i: nat): string {
    if i < |geo| then geo[i] else "undefined"
  }

  // ---------------------------------------------------------------- station index badge

  /** getAqiLabel: the label of the AQI_LEVELS band holding parseInt(aqi); NaN
      fails every comparison and is Hazardous. */
  function AqiLabel(aqi: string): (r: string)
    ensures Text.ParseInt(aqi).None? ==> r == BadgeLabels[5]
    ensures Text.ParseInt(aqi).Some? ==> var n := Text.ParseInt(aqi).value;
      && (forall k :: 0 <= k < |Constants.AqiLevels| && Constants.InAqiLevel(k, n) ==> r == BadgeLabels[k])
      && (n < Constants.AqiLevels[0].min ==> r == BadgeLabels[0])
      && (n > Constants.AqiLevels[5].max ==> r == BadgeLabels[5])
  {
    Constants.AqiBounds();
    match Text.ParseInt(aqi)
    case None => "Hazardous"
    case Some(n) =>
      if n <= 50 then "Good"
      else if n <= 100 then "Moderate"
      else if n <= 150 then "Unhealthy for Sensitive"
      else if n <= 200 then "Unhealthy"
      else if n <= 300 then "Very Unhealthy"
      else "Hazardous"
  }

  /** getAqiColor: the colour of the same band. */
  function AqiColor(aqi: string): (r: string)
    ensures Text.ParseInt(aqi).None? ==> r == BadgeColors[5]
    ensures Text.ParseInt(aqi).Some? ==> var n := Text.ParseInt(aqi).value;
      && (forall k :: 0 <= k < |Constants.AqiLevels| && Constants.InAqiLevel(k, n) ==> r == BadgeColors[k])
      && (n < Constants.AqiLevels[0].min ==> r == BadgeColors[0])
      && (n > Constants.AqiLevels[5].max ==> r == BadgeColors[5])
  {
    Constants.AqiBounds();
    match Text.ParseInt(aqi)
    case None => "text-red-900 dark:text-red-500"
    case Some(n) =>
      if n <= 50 then "text-green-600 dark:text-green-400"
      else if n <= 100 then "text-yellow-600 dark:text-yellow-400"
      else if n <= 150 then "text-orange-600 dark:text-orange-400"
      else if n <= 200 then "text-red-600 dark:text-red-400"
      else if n <= 300 then "text-purple-600 dark:text-purple-400"
      else "text-red-900 dark:text-red-500"
  }

  const BadgeLabels := ["Good", "Moderate", "Unhealthy for Sensitive", "Unhealthy", "Very Unhealthy", "Hazardous"]
  const BadgeColors := [
    "text-green-600 dark:text-green-400", "text-yellow-600 dark:text-yellow-400",
    "text-orange-600 dark:text-orange-400", "text-red-600 dark:text-red-400",
    "text-purple-600 dark:text-purple-400", "text-red-900 dark:text-red-500"]

  /** The label and the colour of a badge name the same band k; for a numeric
      index it is the band of AQI_LEVELS that getAQICategory gives the same
      number; text without a number is the last band. */
  lemma BadgeBandsAgree(aqi: string) returns (k: nat)
    ensures k < |BadgeLabels| && k < |BadgeColors|
    ensures AqiLabel(aqi) == BadgeLabels[k] && AqiColor(aqi) == BadgeColors[k]
    ensures Text.ParseInt(aqi).None? ==> k == 5
    ensures Text.ParseInt(aqi).Some? ==>
              AqiCalculator.GetAqiCategory(Text.ParseInt(aqi).value) == AqiCalculator.AsCategory(Constants.AqiLevels[k])
  {
    match Text.ParseInt(aqi)
    case None => k := 5;
    case Some(n) =>
      k := AqiCalculator.CategoryAndRecommendationAgree(n);
      NumericBadge(aqi, n, k);
  }

  /** The badge of a numeric index is the first band whose upper bound reaches it. */
  lemma NumericBadge(aqi: string, n: int, k: nat)
    requires Text.ParseInt(aqi) == Some(n) && k < |Constants.AqiLevels|
    requires forall j :: 0 <= j < k ==> Constants.AqiLevels[j].max < n
    requires k < |Constants.AqiLevels| - 1 ==> n <= Constants.AqiLevels[k].max
    ensures k < |BadgeLabels| && k < |BadgeColors|
    ensures AqiLabel(aqi) == BadgeLabels[k] && AqiColor(aqi) == BadgeColors[k]
  {
    Constants.AqiBounds();
    if k > 0 {
      assert Constants.AqiLevels[k - 1].max < n;
    }
  }

  /** A station reporting its index as a number gets the band of that number; the
      placeholder "-" is Hazardous. */
  lemma BadgeOfNumber(n: int)
    ensures n <= 50 ==> AqiLabel(Text.IntToString(n)) == "Good"
    ensures 100 < n <= 150 ==> AqiLabel(Text.IntToString(n)) == "Unhealthy for Sensitive"
    ensures n > 300 ==> AqiLabel(Text.IntToString(n)) == "Hazardous"
    ensures AqiLabel("-") == "Hazardous"
  {
    Text.ParseIntRoundTrip(n);
    LabelOfParsed(Text.IntToString(n), n);
    PlaceholderBadge();
  }

  lemma LabelOfParsed(aqi: string, n: int)
    requires Text.ParseInt(aqi) == Some(n)
    ensures n <= 50 ==> AqiLabel(aqi) == "Good"
    ensures 100 < n <= 150 ==> AqiLabel(aqi) == "Unhealthy for Sensitive"
    ensures n > 300 ==> AqiLabel(aqi) == "Hazardous"
  {
  }

  lemma PlaceholderBadge()
    ensures AqiLabel("-") == "Hazardous"
  {
    Text.ParseIntSignOnly("-");
  }

  // ---------------------------------------------------------------- the query threshold

  /** One character outside the Basic Multilingual Plane, such as an emoji, is
      two code units long and therefore searched; one other character is not. */
  lemma AstralCharacterSearched(c: char)
    ensures c as int > 0xFFFF ==> Text.Utf16Length([c]) >= MinQueryLength
    ensures c as int <= 0xFFFF ==> Text.Utf16Length([c]) < MinQueryLength
    ensures Text.Utf16Length("\U{1F600}") >= MinQueryLength
  {
    Text.Utf16LengthBelowTwo([c]);
    Text.Utf16LengthBelowTwo("\U{1F600}");
  }

  // ---------------------------------------------------------------- the panel

  datatype Row = PlaceRow(place: Prediction) | CityRow(city: City) | StationRow(station: Station)

  function Take<T>(s: seq<T>, n: nat): (r: seq<T>)
    ensures |r| == if |s| <= n then |s| else n
    ensures r == s[..|r|]
  {
    if |s| <= n then s else s[..n]
  }

  /** The cities the panel can list: an array reply; any other value has no
      length and shows nothing. */
  function CitiesShown(b: WeatherService.SearchBody): seq<City> {
    if b.Array? then b.cities else []
  }

  /** The panel's rows, top to bottom: the first five places, all cities, the
      first eight stations. */
  function DisplayRows(places: seq<Prediction>, cities: WeatherService.SearchBody, stations: seq<Station>): (rows: seq<Row>)
    ensures var p, c, s := Take(places, MaxPlacesShown), CitiesShown(cities), Take(stations, MaxStationsShown);
      && |rows| == |p| + |c| + |s|
      && (forall i :: 0 <= i < |p| ==> rows[i] == PlaceRow(places[i]))
      && (forall i :: 0 <= i < |c| ==> rows[|p| + i] == CityRow(c[i]))
      && (forall i :: 0 <= i < |s| ==> rows[|p| + |c| + i] == StationRow(stations[i]))
  {
    var p, c, s := Take(places, MaxPlacesShown), CitiesShown(cities), Take(stations, MaxStationsShown);
    seq(|p|, i requires 0 <= i < |p| => PlaceRow(p[i]))
    + seq(|c|, i requires 0 <= i < |c| => CityRow(c[i]))
    + seq(|s|, i requires 0 <= i < |s| => StationRow(s[i]))
  }

  /** The panel is open when the box has focus and some list is non-empty. */
  predicate PanelOpen(showSuggestions: bool, places: seq<Prediction>, cities: WeatherService.SearchBody, stations: seq<Station>) {
    showSuggestions && (|places| > 0 || |CitiesShown(cities)| > 0 || |stations| > 0)
  }

  /** An open panel has at least one row, and rows never exceed five places and
      eight stations. */
  lemma PanelRows(showSuggestions: bool, places: seq<Prediction>, cities: WeatherService.SearchBody, stations: seq<Station>)
    ensures PanelOpen(showSuggestions, places, cities, stations) ==> |DisplayRows(places, cities, stations)| > 0
    ensures |DisplayRows(places, cities, stations)| <= MaxPlacesShown + |CitiesShown(cities)| + MaxStationsShown
  {
  }

  // ---------------------------------------------------------------- the component

  class SearchBox {
    var query: string
    var cities: WeatherService.SearchBody
    var stations: seq<Station>
    var places: seq<Prediction>
    var showSuggestions: bool
    var searching: bool
    const session: WeatherContext.WeatherSession

    predicate Cleared()
      reads this
    {
      cities == WeatherService.Array([]) && stations == [] && places == []
    }

    constructor(session: WeatherContext.WeatherSession)
      ensures this.session == session
      ensures query == "" && Cleared() && !showSuggestions && !searching
    {
      this.session := session;
      query := "";
      cities := WeatherService.Array([]);
      stations := [];
      places := [];
      showSuggestions := false;
      searching := false;
    }

    method ClearSuggestions()
      modifies this`cities, this`stations, this`places
      ensures Cleared()
    {
      cities := WeatherService.Array([]);
      stations := [];
      places := [];
    }

    /** fetchSuggestions: a query under two UTF-16 code units clears the lists and
        searches nothing; otherwise both backend searches run, Places is asked
        only when loaded, and the lists take the merged results, or are cleared
        when the Places call throws. */
    method FetchSuggestions(searchQuery: string,
                            cityReply: WeatherService.Reply<WeatherService.SearchBody>,
                            stationReply: WeatherService.Reply<WeatherService.StationsBody>,
                            googleLoaded: bool,
                            google: WeatherService.Reply<seq<Prediction>>)
      returns (requests: seq<WeatherService.Request>)
      modifies this`cities, this`stations, this`places, this`searching
      ensures Text.Utf16Length(searchQuery) < MinQueryLength ==> requests == [] && Cleared() && searching == old(searching)
      ensures Text.Utf16Length(searchQuery) >= MinQueryLength ==>
                requests == [WeatherService.SearchRequest(searchQuery), WeatherService.StationSearchRequest(searchQuery)]
                && !searching
      ensures Text.Utf16Length(searchQuery) >= MinQueryLength && googleLoaded && google.Rejected? ==> Cleared()
      ensures Text.Utf16Length(searchQuery) >= MinQueryLength && !(googleLoaded && google.Rejected?) ==>
                && cities == WeatherService.SearchEnhanced(cityReply, stationReply).cities
                && stations == WeatherService.SearchEnhanced(cityReply, stationReply).stations
                && places == (if googleLoaded then google.body else [])
    {
      if Text.Utf16Length(searchQuery) < MinQueryLength {
        ClearSuggestions();
        requests := [];
        return;
      }
      searching := true;
      requests := [WeatherService.SearchRequest(searchQuery), WeatherService.StationSearchRequest(searchQuery)];
      var api := WeatherService.SearchEnhanced(cityReply, stationReply);
      if googleLoaded && google.Rejected? {
        ClearSuggestions();
      } else {
        cities := api.cities;
        stations := api.stations;
        places := if googleLoaded then google.body else [];
      }
      searching := false;
    }

    /** What every successful selection ends with. */
    method Reset()
      modifies this`query, this`cities, this`stations, this`places, this`showSuggestions
      ensures query == "" && Cleared() && !showSuggestions
    {
      query := "";
      ClearSuggestions();
      showSuggestions := false;
    }

    /** handleSelectCity: record {name, region, country}, fetch by name, reset. */
    method SelectCity(city: City, outcome: WeatherContext.FetchOutcome) returns (requests: seq<WeatherService.Request>)
      modifies this, session, session.store
      ensures requests == [WeatherService.CurrentWeatherRequest(city.name),
                           WeatherService.ForecastRequest(city.name, WeatherContext.ForecastDays)]
      ensures session.store.RecentSearches() == StorageService.PushRecent(old(session.store.RecentSearches()), CityRecord(city))
      ensures session.State() == WeatherContext.Settled(WeatherContext.Begun(old(session.State())), outcome, None).0
      ensures session.store.items ==
                WeatherContext.Persisted(AfterRecord(old(session.store.items), old(session.store.RecentSearches()), CityRecord(city)),
                                         WeatherContext.Settled(WeatherContext.Begun(old(session.State())), outcome, None).1)
      ensures query == "" && Cleared() && !showSuggestions && searching == old(searching)
    {
      ghost var items0, recent0, state0 := session.store.items, session.store.RecentSearches(), session.State();
      session.store.AddRecentSearch(CityRecord(city));
      assert session.store.items == AfterRecord(items0, recent0, CityRecord(city)) && session.State() == state0;
      requests := session.FetchWeatherData(city.name, outcome);
      Reset();
    }

    /** handleSelectStation: record {station name, "AQI Station", ""}, fetch by the
        station's coordinates tagged with its name, reset. */
    method SelectStation(station: Station, outcome: WeatherContext.FetchOutcome) returns (requests: seq<WeatherService.Request>)
      modifies this, session, session.store
      ensures requests == [WeatherService.CoordinatesRequest(GeoPart(station.geo, 0), GeoPart(station.geo, 1)),
                           WeatherService.ForecastRequest(GeoPart(station.geo, 0) + "," + GeoPart(station.geo, 1), WeatherContext.ForecastDays)]
      ensures session.store.RecentSearches() == StorageService.PushRecent(old(session.store.RecentSearches()), StationRecord(station))
      ensures session.State() == WeatherContext.Settled(WeatherContext.Begun(old(session.State())), outcome, Some(station.name)).0
      ensures session.store.items ==
                WeatherContext.Persisted(AfterRecord(old(session.store.items), old(session.store.RecentSearches()), StationRecord(station)),
                                         WeatherContext.Settled(WeatherContext.Begun(old(session.State())), outcome, Some(station.name)).1)
      ensures query == "" && Cleared() && !showSuggestions && searching == old(searching)
    {
      requests := RecordAndFetchByCoords(StationRecord(station), GeoPart(station.geo, 0), GeoPart(station.geo, 1), station.name, outcome);
    }

    /** The tail that the station and the place handlers share: record the entry,
        fetch by coordinates tagged with the name, reset. */
    method RecordAndFetchByCoords(rec: Location, lat: string, lon: string, name: string, outcome: WeatherContext.FetchOutcome)
      returns (requests: seq<WeatherService.Request>)
      modifies this, session, session.store
      ensures requests == [WeatherService.CoordinatesRequest(lat, lon),
                           WeatherService.ForecastRequest(lat + "," + lon, WeatherContext.ForecastDays)]
      ensures session.store.RecentSearches() == StorageService.PushRecent(old(session.store.RecentSearches()), rec)
      ensures session.State() == WeatherContext.Settled(WeatherContext.Begun(old(session.State())), outcome, Some(name)).0
      ensures session.store.items ==
                WeatherContext.Persisted(AfterRecord(old(session.store.items), old(session.store.RecentSearches()), rec),
                                         WeatherContext.Settled(WeatherContext.Begun(old(session.State())), outcome, Some(name)).1)
      ensures query == "" && Cleared() && !showSuggestions && searching == old(searching)
    {
      ghost var items0, recent0, state0 := session.store.items, session.store.RecentSearches(), session.State();
      session.store.AddRecentSearch(rec);
      assert session.store.items == AfterRecord(items0, recent0, rec) && session.State() == state0;
      requests := session.FetchWeatherByCoords(lat, lon, Some(name), outcome);
      Reset();
    }

    /** handleSelectGooglePlace, given what getPlaceDetails resolved with: only
        details with a geometry are acted on (record, fetch by coordinates tagged
        with the place name, reset); otherwise nothing changes. */
    method SelectPlace(place: Prediction, details: Option<PlaceDetails>, outcome: WeatherContext.FetchOutcome)
      returns (requests: seq<WeatherService.Request>)
      modifies this, session, session.store
      ensures (details.None? || details.value.geometry.None?) ==>
                && requests == []
                && query == old(query) && cities == old(cities) && stations == old(stations) && places == old(places)
                && showSuggestions == old(showSuggestions) && searching == old(searching)
                && session.State() == old(session.State()) && session.store.items == old(session.store.items)
      ensures details.Some? && details.value.geometry.Some? ==>
                && requests == [WeatherService.CoordinatesRequest(details.value.geometry.value.lat, details.value.geometry.value.lng),
                                WeatherService.ForecastRequest(details.value.geometry.value.lat + "," + details.value.geometry.value.lng,
                                                               WeatherContext.ForecastDays)]
                && session.store.RecentSearches() ==
                   StorageService.PushRecent(old(session.store.RecentSearches()), PlaceRecord(place, details.value))
                && session.State() == WeatherContext.Settled(WeatherContext.Begun(old(session.State())), outcome, Some(details.value.name)).0
                && session.store.items ==
                   WeatherContext.Persisted(AfterRecord(old(session.store.items), old(session.store.RecentSearches()), PlaceRecord(place, details.value)),
                                            WeatherContext.Settled(WeatherContext.Begun(old(session.State())), outcome, Some(details.value.name)).1)
                && query == "" && Cleared() && !showSuggestions && searching == old(searching)
    {
      if details.Some? && details.value.geometry.Some? {
        var d := details.value;
        var g := d.geometry.value;
        requests := RecordAndFetchByCoords(PlaceRecord(place, d), g.lat, g.lng, d.name, outcome);
      } else {
        requests := [];
      }
    }
  }
}
