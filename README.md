# weather-frontend core, modelled in Dafny

This project models the logic under the weather-frontend React app:

- **The US EPA Air Quality Index.** Piecewise-linear interpolation over the PM2.5 and PM10 breakpoint tables, the index-to-category and guidance bands, and the AQI and UV band tables. It also covers the rule the AQI card uses to choose between the provider's index and the computed one.
- **The persistent store.** This is localStorage as a class holding a `map<string, string>`. It keeps:
  - recent searches: most recent first, deduplicated by name, at most 5;
  - favourites: deduplicated by name;
  - the last location;
  - the theme and units, with their defaults.
  Its getters tolerate corrupt data. The theme provider sits on top of the store.
- **The weather session.** Six state fields and the fetch, refresh, unit-change and initial-load transitions. Each fetch is one atomic transition given its network outcome.
- **The search pipeline:**
  - the backend requests and the normalisation of the search replies;
  - the merge of the city, station and Places suggestions, each failure isolated to its source;
  - the three selection handlers;
  - the station index badge;
  - the panel's order and caps;
  - the Places hook's guards and its reverse-geocode result choice.
- **The precipitation nowcast panel:**
  - rain detection;
  - the choice of the first 15-minute slot at or after now (a `while` loop proved against a specification function);
  - the four-slot window and the 12-hour labels;
  - the bar scale and highlights, the totals and the two status lines.

Modelling conventions:

- JavaScript `null`, `undefined` and `NaN` values are `None`. Zero and `""` are handled explicitly where the code tests falsiness.
- Numbers the app only forwards into text are kept as their decimal renderings: coordinates, station indices, speeds, pressures.
- Concentrations and precipitation are `real`. Indices and timestamps are `int`. Slot times are whole minutes on the local clock.
- `Math.round(x)` is `floor(x + 0.5)` (`Text.Round`).
- `JSON.stringify`/`JSON.parse` for location records is a strict codec (`JsonCodec`). Text it did not produce reads as corrupt.
- Network replies, Places statuses, "now" and the presence of the Places library are parameters.
- `Text.ParseInt` reads optional ASCII blanks, an optional sign and decimal digits. JavaScript's `parseInt` also accepts a `0x` prefix and non-ASCII white space. Neither occurs in the index text the model feeds it.
- `Helpers.FormatTemperature` gives "--" for every absent temperature. JavaScript gives "--" only for null or undefined, and "NaN°C" for `NaN`. Temperatures come from JSON, which has no `NaN`.

Modules:

| module | file | models |
|---|---|---|
| `Wrappers`, `Text`, `Payloads`, `JsonCodec` | wrappers.dfy, text.dfy, payloads.dfy, json_codec.dfy | Option/Result; lower-casing, substring search, decimal rendering and `parseInt`; response shapes; the JSON text of location records |
| `Constants` | constants.dfy | src/utils/constants.js |
| `AqiCalculator` | aqi_calculator.dfy | src/utils/aqiCalculator.js |
| `Helpers` | helpers.dfy | src/utils/helpers.js |
| `AqiCard` | aqi_card.dfy | src/components/aqi/AQICard.jsx |
| `StorageService` | storage_service.dfy | src/services/storageService.js |
| `ThemeContext` | theme_context.dfy | src/context/ThemeContext.jsx |
| `WeatherService` | weather_service.dfy | src/services/weatherService.js |
| `WeatherContext` | weather_context.dfy | src/context/WeatherContext.jsx |
| `GooglePlaces` | google_places.dfy | src/hooks/useGooglePlaces.js |
| `SearchBar` | search_bar.dfy | src/components/search/SearchBar.jsx |
| `PrecipitationRadar` | precipitation_radar.dfy | src/components/weather/PrecipitationRadar.jsx |

Where the code and its documented intent differ, the model follows the code:

- Concentrations are not truncated before the table lookup, so values between two brackets score 500.
- `getAQILevel` sends non-integers between two bands to Hazardous.
- `getAQICategory` puts negative indices in Good.
- A search reply that is an object without a truthy `value` becomes the suggestion list as it is. The panel then lists no cities.
- The suggestion panel responds to clicks only: there is no keyboard navigation over it.
- A station selection only tags the fetched location with the station's name. There is no station air-quality overlay and no provenance tag.
- Refresh always fetches by the location's name, even after a fetch by coordinates or by station.

## Model

| member | source | states |
|---|---|---|
| Text.Round | src/utils/aqiCalculator.js:31 | `Math.round`: the integer r with r ≤ x + 0.5 < r + 1 |
| Text.ParseIntRoundTrip | src/components/search/SearchBar.jsx:105 | `parseInt` reads back every rendered integer |
| Text.Utf16Length | src/components/search/SearchBar.jsx:21 | JavaScript's `length`: between the number of characters and twice that |
| Text.Utf16LengthBmp | src/components/search/SearchBar.jsx:21 | text with no character above U+FFFF has one code unit per character |
| Text.Utf16LengthBelowTwo | src/components/search/SearchBar.jsx:21 | `length < 2` exactly for "" and for one character up to U+FFFF |
| Text.ParseIntSignOnly | src/components/search/SearchBar.jsx:105 | `parseInt` of a lone sign is NaN (None) |
| Text.ParseIntNoDigits | src/components/search/SearchBar.jsx:105 | `parseInt` of text without leading digits is NaN (None) |
| Constants.AqiLevelsContiguous | src/utils/constants.js:1-8 | the six AQI bands ascend and each min is the previous max + 1, from 0 to 500 |
| Constants.UvLevelsContiguous | src/utils/constants.js:38-44 | the five UV bands ascend contiguously from 0 to 20 |
| Constants.ContiguousPartition | src/utils/constants.js:1-44 | contiguous bands: every integer from the first min to the last max lies in exactly one band |
| Constants.AqiLevelsPartition | src/utils/constants.js:1-8 | each integer 0..500 lies in exactly one AQI band |
| Constants.AscendingBands | src/utils/constants.js:1-44 | in contiguous bands every earlier band's max is below every later band's min |
| Constants.UvLevelsPartition | src/utils/constants.js:38-44 | each integer 0..20 lies in exactly one UV band |
| Constants.AqiKeysDistinct | src/utils/constants.js:1-17 | the band keys are distinct and every band has a recommendation |
| Constants.WindDirectionsSixteen | src/utils/constants.js:19-36 | the keys are exactly the sixteen distinct compass abbreviations |
| AqiCalculator.FirstBracket | src/utils/aqiCalculator.js:27-33 | the for-of search: the first bracket containing c, or none when no bracket does |
| AqiCalculator.CalculateAqi | src/utils/aqiCalculator.js:24-37 | 0 for a missing, zero or negative concentration; 500 when no bracket matches; otherwise within the first matching bracket's iLow..iHigh; always 0..500 |
| AqiCalculator.InterpolateBounds | src/utils/aqiCalculator.js:29-31 | inside a bracket, the rounded interpolation lies in iLow..iHigh |
| AqiCalculator.InterpolateMonotone | src/utils/aqiCalculator.js:29-31 | the interpolation is non-decreasing in the concentration |
| AqiCalculator.InterpolateEndpoints | src/utils/aqiCalculator.js:29-31 | at cLow the index is iLow and at cHigh it is iHigh |
| AqiCalculator.AscendingPairwise | src/utils/aqiCalculator.js:4-22 | in ascending tables every later bracket lies above every earlier one |
| AqiCalculator.OnlyBracket | src/utils/aqiCalculator.js:27-33 | in ascending tables a bracket containing c is the first one containing c |
| AqiCalculator.AqiInBracket | src/utils/aqiCalculator.js:27-32 | a concentration inside bracket k scores the interpolation of bracket k |
| AqiCalculator.AqiAtEndpoints | src/utils/aqiCalculator.js:4-31 | in ascending tables a bracket's cLow scores its iLow (a zero cLow only when iLow is 0) and a positive cHigh scores its iHigh |
| AqiCalculator.AqiMonotone | src/utils/aqiCalculator.js:4-36 | over concentrations that match a bracket, the index is non-decreasing |
| AqiCalculator.TablesValid | src/utils/aqiCalculator.js:4-22 | both tables are well formed and ascending |
| AqiCalculator.BracketExamples | src/utils/aqiCalculator.js:4-36 | PM2.5 12.0→50, 12.1→51, 12.05→500, 500.5→500; PM10 54→50, 55→51, 54.5→500, 604.5→500 |
| AqiCalculator.Pm25Aqi | src/utils/aqiCalculator.js:42 | the PM2.5 sub-index of a record, 0..500 |
| AqiCalculator.Pm10Aqi | src/utils/aqiCalculator.js:43 | the PM10 sub-index of a record, 0..500 |
| AqiCalculator.CalculateAqiFromPollutants | src/utils/aqiCalculator.js:39-47 | 0 without a record; otherwise the larger of the two sub-indices, at least each, and one of them; 0..500 |
| AqiCalculator.OnlyParticulatesCount | src/utils/aqiCalculator.js:39-47 | records that agree on PM2.5 and PM10 score the same, whatever their other pollutants |
| AqiCalculator.CombinedIndexExample | src/utils/aqiCalculator.js:39-47 | PM2.5 40.0 with no PM10 scores 112 |
| AqiCalculator.GetAqiCategory | src/utils/aqiCalculator.js:49-56 | the category of the AQI_LEVELS band containing the index; Good below 0 and Hazardous above 500 |
| AqiCalculator.GetAqiRecommendation | src/utils/aqiCalculator.js:58-75 | the recommendation of the AQI_LEVELS band containing the index; Good's below 0 and Hazardous's above 500 |
| AqiCalculator.CategoryAndRecommendationAgree | src/utils/aqiCalculator.js:49-75 | category and recommendation name the same AQI_LEVELS band, whose label and colours the category repeats; it is the band containing the index for 0..500, Good below 0 and Hazardous above 300 |
| Helpers.FirstAqiBand | src/utils/helpers.js:6-10 | the first AQI band in table order that contains the value, or none |
| Helpers.GetAqiLevel | src/utils/helpers.js:3-12 | null for a missing or zero value; otherwise the first band containing it, else Hazardous |
| Helpers.AqiLevelOfInteger | src/utils/helpers.js:3-12 | for an integer 1..500, the band containing it, which is also getAQICategory's band |
| Helpers.AqiLevelFallThrough | src/utils/helpers.js:11 | 50.5, 501 and −3 fall through to Hazardous; getAQICategory(−3) is Good instead |
| Helpers.FirstUvBand | src/utils/helpers.js:17-21 | the first UV band containing the value, or none |
| Helpers.GetUvLevel | src/utils/helpers.js:14-23 | Low for a missing or zero value; otherwise the first band containing it, else Extreme |
| Helpers.UvLevelOfInteger | src/utils/helpers.js:14-23 | for an integer 1..20, the band containing it |
| Helpers.UvLevelFallThrough | src/utils/helpers.js:22 | 2.5, 21 and −1 give Extreme |
| Helpers.FormatTemperature | src/utils/helpers.js:25-28 | "--" for a missing temperature; otherwise the rounded value, read back by `parseInt`, then "°C" exactly when the unit is metric (the default) and "°F" otherwise |
| Helpers.GetWeatherIcon | src/utils/helpers.js:42-45 | "" exactly for a falsy URL; a protocol-relative URL gains "https:"; others are unchanged; the result never starts with "//" |
| Helpers.GetWeatherIconIdempotent | src/utils/helpers.js:42-45 | applying it twice equals applying it once |
| Helpers.GetWindSpeed | src/utils/helpers.js:55-57 | the km/h value and suffix exactly when metric, else the mph ones |
| Helpers.GetPressure | src/utils/helpers.js:59-61 | the mb value and suffix exactly when metric, else the inHg ones |
| Helpers.GetVisibility | src/utils/helpers.js:63-65 | the km value and suffix exactly when metric, else the miles ones |
| Helpers.UnitPicksOneValue | src/utils/helpers.js:55-65 | each formatter depends only on the value of the chosen unit system |
| AqiCard.AqiValue | src/components/aqi/AQICard.jsx:24 | a truthy provider index is used as it is; 0 or a missing one falls back to the computed index, which is 0..500 |
| AqiCard.View | src/components/aqi/AQICard.jsx:9-26 | the card is unavailable exactly when there is no air-quality record; otherwise it shows AqiValue of that record |
| AqiCard.CardBandConsistent | src/components/aqi/AQICard.jsx:24-26 | the badge and the guidance come from one band of AQI_LEVELS, which contains the shown value when it is 0..500 |
| AqiCard.ComputedCardBounded | src/components/aqi/AQICard.jsx:24 | without a provider index the card shows the computed index, 0..500 |
| JsonCodec.LocationsRoundTrip | src/services/storageService.js:9-24 | a stored list of location records decodes to the list written |
| JsonCodec.LocationRoundTrip | src/services/storageService.js:55-67 | a stored location record decodes to the record written |
| StorageService.NamedCopies | src/services/storageService.js:21 | the entries a filter on the name drops all carry that name |
| StorageService.WithoutName | src/services/storageService.js:21 | `filter(s => s.name !== name)`: no entry has the name, every entry without it stays, in order, and as a multiset the kept entries plus the dropped named ones are the whole list, so duplicates without the name are kept |
| StorageService.ReadList | src/services/storageService.js:9-17 | [] for a missing key, "", "undefined" or corrupt text; otherwise the decoded list |
| StorageService.ReadLocation | src/services/storageService.js:55-63 | null for a missing key, "", "undefined", "null" or corrupt text; otherwise the decoded record |
| StorageService.ReadScalar | src/services/storageService.js:69-79 | the stored string, or the default when it is missing or empty |
| StorageService.Storage.Raw | src/services/storageService.js:11 | `localStorage.getItem`: the stored string exactly when the key is present, else null |
| StorageService.Storage.RecentSearches | src/services/storageService.js:9-17 | [] when the key is missing or its text does not decode; otherwise the decoded list |
| StorageService.Storage.Favorites | src/services/storageService.js:26-34 | [] when the key is missing or its text does not decode; otherwise the decoded list |
| StorageService.Storage.IsFavorite | src/services/storageService.js:50-53 | true exactly when some stored favourite has the name |
| StorageService.Storage.LastLocation | src/services/storageService.js:55-63 | null when the key is missing or its text does not decode; otherwise the decoded record, except for "undefined" and "null" |
| StorageService.Storage.Theme | src/services/storageService.js:69-71 | never ""; the stored theme when non-empty, else light |
| StorageService.Storage.Units | src/services/storageService.js:77-79 | never ""; the stored units when non-empty, else metric |
| StorageService.Storage.AddRecentSearch | src/services/storageService.js:19-24 | the recent-search key becomes PushRecent of the old list; every other getter is unchanged |
| StorageService.Storage.AddFavorite | src/services/storageService.js:36-42 | appends only when no favourite has the name (nothing is written otherwise); other getters are unchanged |
| StorageService.Storage.RemoveFavorite | src/services/storageService.js:44-48 | the favourites lose every entry with the name; the name is no longer a favourite |
| StorageService.Storage.SetLastLocation | src/services/storageService.js:65-67 | writes only the last-location key, and reading it back gives the location |
| StorageService.Storage.SetTheme | src/services/storageService.js:73-75 | writes only the theme key; a non-empty theme reads back |
| StorageService.Storage.SetUnits | src/services/storageService.js:81-83 | writes only the units key; non-empty units read back |
| StorageService.ListRoundTrip | src/services/storageService.js:9-24 | a written list is read back as written |
| StorageService.LastLocationRoundTrip | src/services/storageService.js:55-67 | setLastLocation then getLastLocation gives the location back, and null for null |
| StorageService.SubsequencePrefix | src/services/storageService.js:22 | a prefix of a subsequence is a subsequence |
| StorageService.PushRecentShape | src/services/storageService.js:19-24 | at most 5 entries, the new location first, no later entry with its name, the rest an order-preserving subsequence of the old list |
| StorageService.WithoutAbsentName | src/services/storageService.js:21 | filtering out an absent name changes nothing |
| StorageService.PushRecentIdempotent | src/services/storageService.js:19-24 | adding the same location twice equals adding it once |
| StorageService.WithFavoriteShape | src/services/storageService.js:36-42 | afterwards a favourite has the name; the old list is kept as a prefix with at most one entry appended; adding twice equals adding once |
| StorageService.WithoutNameShape | src/services/storageService.js:44-53 | after removal isFavorite(name) is false and the other favourites keep their order |
| ThemeContext.Toggled | src/context/ThemeContext.jsx:24-26 | dark exactly from light; light from anything else |
| ThemeContext.ToggleTwice | src/context/ThemeContext.jsx:24-26 | toggling twice restores light and dark |
| ThemeContext.EffectClasses | src/context/ThemeContext.jsx:17-22 | the theme is in the class set; light and dark are removed unless they are the theme; other classes stay |
| ThemeContext.ThemeProvider.constructor | src/context/ThemeContext.jsx:15-22 | the initial theme is the stored one (light by default), and the effect runs once |
| ThemeContext.ThemeProvider.ApplyEffect | src/context/ThemeContext.jsx:16-22 | the class swap and the persisted theme; the provider stays Valid |
| ThemeContext.ThemeProvider.ToggleTheme | src/context/ThemeContext.jsx:16-26 | from a Valid provider: the theme toggles, the classes follow, it is persisted, and the provider stays Valid |
| WeatherService.Param | src/services/weatherService.js:35-69 | the value of the first parameter with the name, and none exactly when no parameter has it |
| WeatherService.CurrentWeatherRequest | src/services/weatherService.js:35-40 | GET /weather/current with the location as its one parameter |
| WeatherService.CoordinatesRequest | src/services/weatherService.js:57-62 | GET /weather/by-coordinates with exactly the parameters lat and lon |
| WeatherService.SearchRequest | src/services/weatherService.js:49-52 | GET /weather/search with the query as its one parameter |
| WeatherService.StationSearchRequest | src/services/weatherService.js:64-69 | GET /aqi/search with the keyword as its one parameter |
| WeatherService.RequestsDistinct | src/services/weatherService.js:35-69 | the five requests go to different endpoints, and a request determines its location, query or keyword |
| WeatherService.ForecastRequest | src/services/weatherService.js:42-47 | GET /weather/forecast with the location and a days parameter that `parseInt` reads back as the day count |
| WeatherService.ForecastDefaultDays | src/services/weatherService.js:42 | without a day count the request asks for 3 days |
| WeatherService.SearchLocation | src/services/weatherService.js:49-55 | an array as it is; an object by its truthy `value`, else itself; another falsy body becomes []; a null body throws |
| WeatherService.CitiesOf | src/services/weatherService.js:71-87 | the normalised cities; [] when the search fails or its body is null |
| WeatherService.SearchEnhanced | src/services/weatherService.js:71-86 | the cities in the result are always a truthy value |
| WeatherService.SourcesIsolated | src/services/weatherService.js:71-86 | the cities come from the city reply alone and the stations from the station reply alone (`data`, or []); a failed source gives []; a null station body gives no results at all |
| WeatherService.StationsIndependentOfCities | src/services/weatherService.js:71-86 | the stations never depend on the city search |
| WeatherContext.ErrorText | src/context/WeatherContext.jsx:39 | the server message when non-empty, else "Failed to fetch weather data" |
| WeatherContext.Tagged | src/context/WeatherContext.jsx:56-59 | a truthy station name is written into the reply's location; a missing location throws |
| WeatherContext.InitialQuery | src/context/WeatherContext.jsx:84-88 | the last location's name when non-empty, else London |
| WeatherContext.Begun | src/context/WeatherContext.jsx:24-26 | loading on and the error cleared; the data, location and units unchanged |
| WeatherContext.Settled | src/context/WeatherContext.jsx:28-70 | loading off and units kept; a failure sets the error text and changes nothing else; a last-location write happens only on success, of the shown location, with the reply's forecast; without one an error is shown and the location kept |
| WeatherContext.Persisted | src/context/WeatherContext.jsx:37 | the store after `setLastLocation`: the written location reads back, and every other key is untouched; no write leaves it unchanged |
| WeatherContext.LoadingBrackets | src/context/WeatherContext.jsx:24-71 | a fetch starts with loading on and the error cleared, and ends with loading off and the units untouched |
| WeatherContext.FailureKeepsData | src/context/WeatherContext.jsx:38-43 | a failure sets the error text and keeps the weather, forecast and location; nothing is persisted |
| WeatherContext.SuccessByName | src/context/WeatherContext.jsx:28-37 | success shows the reply and its location, persists exactly that location, and leaves no error |
| WeatherContext.StationTagPersisted | src/context/WeatherContext.jsx:50-70 | with a truthy station name, the tagged location is shown and persisted, and the shown reply keeps its current conditions and the forecast; a reply without a location fails with the fallback message |
| WeatherContext.InitialQueryResumes | src/context/WeatherContext.jsx:84-88 | a reload after persisting a named location starts from that name |
| WeatherContext.WeatherSession.constructor | src/context/WeatherContext.jsx:16-22 | nothing loaded, no error, the stored units |
| WeatherContext.WeatherSession.Begin | src/context/WeatherContext.jsx:25-26 | loading on, error cleared |
| WeatherContext.WeatherSession.Settle | src/context/WeatherContext.jsx:28-43 | the settled state, and the store changes exactly by the last-location write the outcome makes |
| WeatherContext.WeatherSession.FetchWeatherData | src/context/WeatherContext.jsx:24-44 | requests the current weather and a 7-day forecast for the query, then settles |
| WeatherContext.WeatherSession.FetchWeatherByCoords | src/context/WeatherContext.jsx:46-71 | requests the weather at lat/lon and a 7-day forecast for "lat,lon", then settles with the station tag |
| WeatherContext.WeatherSession.RefreshWeather | src/context/WeatherContext.jsx:73-77 | nothing, the store included, without a location; otherwise a fetch by the location's name, whose state and last-location write are those of Settled |
| WeatherContext.WeatherSession.ChangeUnits | src/context/WeatherContext.jsx:79-82 | the units change in the session and in the store, nothing else |
| WeatherContext.WeatherSession.InitialLoad | src/context/WeatherContext.jsx:84-88 | a fetch by InitialQuery of the stored last location; the state and the store change as Settled and Persisted say |
| GooglePlaces.PlacesHook.constructor | src/hooks/useGooglePlaces.js:6-8 | not loaded, no services |
| GooglePlaces.PlacesHook.Mount | src/hooks/useGooglePlaces.js:10-18 | with the library present the hook is loaded with both services; otherwise nothing changes |
| GooglePlaces.PlacesHook.ScriptLoaded | src/hooks/useGooglePlaces.js:25-30 | loaded with both services |
| GooglePlaces.SearchPlaces | src/hooks/useGooglePlaces.js:39-59 | a request exactly when the service is ready and the input non-empty; predictions only on OK with a list, [] otherwise |
| GooglePlaces.GetPlaceDetails | src/hooks/useGooglePlaces.js:61-81 | a request exactly when the service is ready and the id truthy; the place exactly on OK with a place |
| GooglePlaces.FindPreferred | src/hooks/useGooglePlaces.js:96-100 | the first result typed locality, sublocality or neighborhood, or none |
| GooglePlaces.BestResult | src/hooks/useGooglePlaces.js:96-100 | the chosen result is one of the results |
| GooglePlaces.ResultName | src/hooks/useGooglePlaces.js:103 | the first component's long name when non-empty, else the formatted address |
| GooglePlaces.ReverseGeocode | src/hooks/useGooglePlaces.js:83-114 | null before loading, for a status other than OK, or without results; otherwise the chosen result's name with the query's own coordinates |
| GooglePlaces.BestResultChoice | src/hooks/useGooglePlaces.js:96-100 | the first preferred result when there is one, else the first result |
| SearchBar.PlaceRecord | src/components/search/SearchBar.jsx:88-92 | the details' name, the secondary text or "" as region, "" as country |
| SearchBar.AqiColor | src/components/search/SearchBar.jsx:104-112 | the colour of the band containing the parsed number; the first below 0, the last above 500 and for NaN |
| SearchBar.AqiLabel | src/components/search/SearchBar.jsx:114-122 | the label of the band containing the parsed number; the first below 0, the last above 500 and for NaN |
| SearchBar.BadgeBandsAgree | src/components/search/SearchBar.jsx:104-122 | the label and colour name one band, the one getAQICategory gives the parsed number; NaN is the last band |
| SearchBar.BadgeOfNumber | src/components/search/SearchBar.jsx:114-122 | sample bands of rendered numbers; "-" is Hazardous |
| SearchBar.DisplayRows | src/components/search/SearchBar.jsx:171-259 | the rows are the first five places, then all cities, then the first eight stations |
| SearchBar.PanelRows | src/components/search/SearchBar.jsx:171-259 | an open panel has rows, and the caps bound their number |
| SearchBar.SearchBox.constructor | src/components/search/SearchBar.jsx:12-15 | empty query and lists, panel closed, not searching |
| SearchBar.AstralCharacterSearched | src/components/search/SearchBar.jsx:21 | one character above U+FFFF (an emoji) is long enough to search; one other character is not |
| SearchBar.SearchBox.FetchSuggestions | src/components/search/SearchBar.jsx:20-48 | under two UTF-16 code units the lists clear and nothing is requested; otherwise both searches are issued and the lists take searchEnhanced's cities and stations and the Places results (Places only when loaded), or all clear when Places throws; searching ends off |
| SearchBar.SearchBox.Reset | src/components/search/SearchBar.jsx:62-64 | query "", lists empty, panel closed |
| SearchBar.SearchBox.SelectCity | src/components/search/SearchBar.jsx:54-65 | records {name, region, country} in the recent searches, fetches by name, resets; the store changes by exactly that record and the fetch's last-location write; `searching` is kept |
| SearchBar.SearchBox.SelectStation | src/components/search/SearchBar.jsx:67-79 | records {station name, "AQI Station", ""}, fetches by geo[0], geo[1] tagged with the name, resets; the store changes by exactly that record and the fetch's last-location write; `searching` is kept |
| SearchBar.SearchBox.SelectPlace | src/components/search/SearchBar.jsx:81-102 | acts only on details with a geometry (record, fetch by coordinates tagged with the name, reset; the store changes by exactly that record and the fetch's last-location write); otherwise nothing changes |
| PrecipitationRadar.RainCheckIgnoresCase | src/components/weather/PrecipitationRadar.jsx:34-40 | the rain check is the same for a condition text and its lower-cased form |
| PrecipitationRadar.ThunderstormImpliesStorm | src/components/weather/PrecipitationRadar.jsx:38 | every condition containing "thunderstorm" contains "storm" |
| PrecipitationRadar.IsCurrentlyRaining | src/components/weather/PrecipitationRadar.jsx:34-40 | false without current conditions; otherwise true exactly when the condition mentions a rain keyword or the current precipitation is positive |
| PrecipitationRadar.RainExamples | src/components/weather/PrecipitationRadar.jsx:34-40 | "Heavy Rain" and 0.2 mm are detected; no condition and no precipitation is not |
| PrecipitationRadar.FirstAtOrAfter | src/components/weather/PrecipitationRadar.jsx:60-65 | the first slot at or after now, or none, with all earlier slots before now |
| PrecipitationRadar.StartSlot | src/components/weather/PrecipitationRadar.jsx:57-70 | the first slot at or after now when there is one (FirstAtOrAfter); with none, max(0, n − 4); 0 for no slots |
| PrecipitationRadar.StartIndex | src/components/weather/PrecipitationRadar.jsx:57-70 | the loop with its break computes StartSlot |
| PrecipitationRadar.Window | src/components/weather/PrecipitationRadar.jsx:73-74 | min(4, n − start) consecutive entries from start |
| PrecipitationRadar.DisplayHour | src/components/weather/PrecipitationRadar.jsx:84 | 1..12, congruent to the hour mod 12 |
| PrecipitationRadar.TimeLabelRoundTrip | src/components/weather/PrecipitationRadar.jsx:81-88 | the label reads back as the slot's hour (mod 12, plus 12 for PM) and two-digit minute |
| PrecipitationRadar.TimeLabelInjective | src/components/weather/PrecipitationRadar.jsx:81-88 | slots with equal labels are at the same time of day |
| PrecipitationRadar.MidnightLabel | src/components/weather/PrecipitationRadar.jsx:81-88 | midnight is "12:00 AM" |
| PrecipitationRadar.AfternoonLabel | src/components/weather/PrecipitationRadar.jsx:81-88 | 13:45 is "1:45 PM" |
| PrecipitationRadar.MaxPrecip | src/components/weather/PrecipitationRadar.jsx:93 | at least 0.1, at least every amount, and equal to one of them or to 0.1 |
| PrecipitationRadar.Total | src/components/weather/PrecipitationRadar.jsx:98 | the sum of the amounts, missing ones as 0: non-negative when no amount is negative, 0 when all are 0 |
| PrecipitationRadar.TotalPositive | src/components/weather/PrecipitationRadar.jsx:94-98 | with no negative amount, the total is positive exactly when some windowed amount is |
| PrecipitationRadar.DisplayTotal | src/components/weather/PrecipitationRadar.jsx:99-100 | the total when positive; otherwise current precipitation (0.1 if falsy) when raining, else 0 |
| PrecipitationRadar.BarWidth | src/components/weather/PrecipitationRadar.jsx:183 | at least 5 and, for amounts up to the scale, at most 100 |
| PrecipitationRadar.Radar | src/components/weather/PrecipitationRadar.jsx:42-100 | a panel's scale is at least 0.1 and it shows at most four slots |
| PrecipitationRadar.PanelFlags | src/components/weather/PrecipitationRadar.jsx:94-156 | rain is shown exactly when a windowed amount is positive or it is raining; status priority Currently Raining > Rain Expected > Clear Skies, with the matching second line; the total reads "mm now" exactly when it is raining and the window is dry |
| PrecipitationRadar.PanelSlots | src/components/weather/PrecipitationRadar.jsx:73-185 | the slots are those from the start slot, with their labels and amounts; missing amounts are 0; a bar is highlighted exactly above the 0.1 mm highlight threshold |
| PrecipitationRadar.ContextWeather | src/context/WeatherContext.jsx:90-101 | only the `currentWeather` key of the context value holds the current conditions; keys it lacks are undefined |
| PrecipitationRadar.AsWrittenNeverRaining | src/components/weather/PrecipitationRadar.jsx:8 | reading `weather` from the context, the radar is never "Currently Raining" |
| PrecipitationRadar.RainMissedExample | src/components/weather/PrecipitationRadar.jsx:8-100 | with "Heavy Rain" and a dry window: "Clear Skies", total 0 as written; "Currently Raining", total 0.1 when reading currentWeather |

## Left out

- Network: the axios instance, its interceptors and timeout, the health check, and every HTTP and Places call. Replies, rejections and statuses are parameters.
- Time and locale: `debounce` and the 200 ms close on blur are timing only. `formatTime` and `formatDate` depend on the browser locale. "Now" is a parameter, and slot times are local minutes, since time zones are not modelled.
- Concurrency: each fetch is one atomic transition given its outcome. A `Begin`/`Settle` split shows the loading state in between. Overlapping fetches and out-of-order settling are not modelled.
- Floating point: concentrations, amounts and indices are exact. IEEE-754 rounding of the interpolation and of `Math.round` at .5 is not reproduced.
- JSON: only the shapes the store writes are decoded. Any other valid JSON the user could have put under a key (a number, an object with extra fields) reads as corrupt. `JSON.parse` would instead return it.
- WeatherService.SearchBody: a search reply body is an array, an object, null or a falsy primitive. A truthy primitive body (a non-empty string or a non-zero number), at top level or as `value`, is not modelled. `searchLocation` (src/services/weatherService.js:54) would return it as it is; the panel would then list no cities for a number, and would fail calling `.map` on a string (src/components/search/SearchBar.jsx:203-208).
- The Google Maps script injection and its key. Only its effect on the hook (`ScriptLoaded`) is modelled.
- SearchBar's geolocation button and effect (src/components/search/SearchBar.jsx:124-132): the geolocation hook is not part of this model.
- The "undefined" text of a missing station coordinate (`SearchBar.GeoPart`) stands for the `undefined` value. The axios layer would drop such a parameter rather than send it.
- The radar's data fetch effect (src/components/weather/PrecipitationRadar.jsx:12-31) is left out:
  - It is I/O.
  - It calls `getPrecipitationMinutely`, which src/services/weatherService.js does not define. A named import of an export that does not exist (src/components/weather/PrecipitationRadar.jsx:3) is a link error for ES modules and for a Rollup build, so as written the panel, and possibly the page that imports it, may never render (not executed). The model describes what the panel renders once it has data.
  - It reads `location.lat`/`location.lon`, which the modelled location records do not carry.
  The loading flag and the 15-minute data are therefore parameters of `PrecipitationRadar.Radar`.
- Markup, styling and icon choice in every component. The gauge geometry and the display-only components are also not modelled. The card's, badge's and panel's data and text are modelled.
- ThemeContext.ThemeProvider.ToggleTheme requires a Valid provider, and ApplyEffect a non-empty theme: an empty stored theme is read as "light", so the provider never holds "". ApplyEffect cannot require Valid(), because the provider first runs it before its classes and store have caught up with its theme.
- The radar's numbers are exact reals: the one-decimal text of `toFixed(1)` for the total and each bar (src/components/weather/PrecipitationRadar.jsx:154, 192) is not modelled.
- Helpers.FormatTemperature states the rounded value through `parseInt` of its prefix rather than as the rendered text of a JavaScript number.

## Findings

| source | as written | input that shows it | evidently intended | confidence | as-written member | corrected member |
|---|---|---|---|---|---|---|
| src/components/weather/PrecipitationRadar.jsx:8 | the radar destructures `weather` from the weather context, whose value (src/context/WeatherContext.jsx:90-101) has no such key, so `weather` is always undefined and current rain is never detected | a session whose current weather reads "Heavy Rain" with a dry 15-minute window: the panel says "Clear Skies" with 0.0 mm | read `currentWeather`, so that "Currently Raining" and the current-precipitation fallback total apply | high (not executed) | PrecipitationRadar.RadarWeatherAsWritten, PrecipitationRadar.AsWrittenNeverRaining | PrecipitationRadar.RadarWeather, PrecipitationRadar.RainMissedExample |
