/** src/components/aqi/AQICard.jsx, lines 9-26: which index the card shows and the
    band it derives from that one value. The markup is left out. */
module AqiCard {
  import opened Wrappers
  import opened Payloads
  import Constants
  import AqiCalculator

  /** What the card renders: the "not available" panel, or the index with its
      band and guidance (the gauge receives the same value). */
  datatype CardView =
    | Unavailable
    | Card(value: int, category: AqiCalculator.Category, recommendation: string)

  /** `air_quality.aqi || calculateAQIFromPollutants(air_quality)`: a truthy (non-zero)
      provider index wins; 0 or a missing one falls back to the computed index. */
  function AqiValue(aq: AirQuality): (r: int)
    ensures aq.aqi.Some? && aq.aqi.value != 0 ==> r == aq.aqi.value
    ensures aq.aqi.None? || aq.aqi.value == 0 ==> r == AqiCalculator.CalculateAqiFromPollutants(Some(aq)) && 0 <= r <= 500
  {
    if aq.aqi.Some? && aq.aqi.value != 0 then aq.aqi.value
    else AqiCalculator.CalculateAqiFromPollutants(Some(aq))
  }

  /** The rendering given `currentWeather` from the session. */
  function View(currentWeather: Option<Weather>): (r: CardView)
    ensures r.Unavailable? <==>
              (currentWeather.None? || currentWeather.value.current.None? || currentWeather.value.current.value.airQuality.None?)
    ensures r.Card? ==> r.value == AqiValue(currentWeather.value.current.value.airQuality.value)
  {
    match currentWeather
    case None => Unavailable
    case Some(w) =>
      match w.current
      case None => Unavailable
      case Some(c) =>
        match c.airQuality
        case None => Unavailable
        case Some(aq) =>
          var v := AqiValue(aq);
          Card(v, AqiCalculator.GetAqiCategory(v), AqiCalculator.GetAqiRecommendation(v))
  }

  /** The badge and the guidance on a card name one and the same band of
      AQI_LEVELS, the band of the value the gauge shows. */
  lemma CardBandConsistent(currentWeather: Option<Weather>) returns (k: nat)
    requires View(currentWeather).Card?
    ensures k < |Constants.AqiLevels|
    ensures View(currentWeather).category == AqiCalculator.AsCategory(Constants.AqiLevels[k])
    ensures View(currentWeather).recommendation == Constants.AqiRecommendations[Constants.AqiLevels[k].key]
    ensures 0 <= View(currentWeather).value <= 500 ==> Constants.InAqiLevel(k, View(currentWeather).value)
  {
    k := AqiCalculator.CategoryAndRecommendationAgree(View(currentWeather).value);
  }

  /** Without a provider index the card never shows more than 500, and its band
      is the computed index's band. */
  lemma ComputedCardBounded(w: Weather, c: Current, aq: AirQuality)
    requires w.current == Some(c) && c.airQuality == Some(aq) && (aq.aqi.None? || aq.aqi == Some(0))
    ensures View(Some(w)).Card? && 0 <= View(Some(w)).value <= 500
    ensures View(Some(w)).value == AqiCalculator.CalculateAqiFromPollutants(Some(aq))
  {
  }
}
