/** The shapes of the backend's and the Places provider's replies that the modelled
    code reads. JavaScript's null, undefined and NaN are `None`; a number the code
    only forwards as text (a latitude, a station's index) is kept as the text it
    renders to. */
module Payloads {
  import opened Wrappers

  /** The backend's `location` object as the app stores and shows it. `stationName`
      is the property the coordinate fetch adds for a picked monitoring station. */
  datatype Location = Location(name: string, region: string, country: string, stationName: Option<string>)

  /** `current.air_quality`: the provider's own index and the pollutant readings (µg/m³). */
  datatype AirQuality = AirQuality(
    aqi: Option<int>,
    pm2_5: Option<real>,
    pm10: Option<real>,
    co: Option<real>,
    no2: Option<real>,
    so2: Option<real>,
    o3: Option<real>)

  /** `current`: the condition text, the precipitation now (mm) and the air quality. */
  datatype Current = Current(conditionText: Option<string>, precipMm: Option<real>, airQuality: Option<AirQuality>)

  /** The current-conditions reply. */
  datatype Weather = Weather(location: Option<Location>, current: Option<Current>)

  datatype ForecastDay = ForecastDay(date: string, maxTemp: real, minTemp: real)

  /** The forecast reply. */
  datatype Forecast = Forecast(days: seq<ForecastDay>)

  /** One entry of the city search reply. */
  datatype City = City(name: string, region: string, country: string)

  /** One entry of the station search reply: `aqi` as reported (a number or a
      placeholder such as "-"), and `station.name` / `station.geo`. */
  datatype Station = Station(aqi: string, name: string, geo: seq<string>)

  /** One Places autocomplete prediction. */
  datatype Prediction = Prediction(placeId: string, description: string, mainText: Option<string>, secondaryText: Option<string>)

  /** A Places details reply; `geometry` holds the rendered latitude and longitude. */
  datatype Geometry = Geometry(lat: string, lng: string)
  datatype PlaceDetails = PlaceDetails(name: string, geometry: Option<Geometry>)
}
