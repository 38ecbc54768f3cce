/** src/utils/helpers.js: the AQI and UV band lookups over the constant tables,
    and the display formatters. A value that is missing, null or NaN is `None`;
    0 is the other falsy number. */
module Helpers {
  import opened Wrappers
  import Constants
  import Text
  import AqiCalculator

  // ---------------------------------------------------------------- AQI band lookup

  predicate InAqiBand(l: Constants.AqiLevel, v: real) {
    l.min as real <= v <= l.max as real
  }

  /** The for-of search over Object.values(AQI_LEVELS), from index `from` on. */
  function FirstAqiBand(v: real, from: nat := 0): (r: Option<nat>)
    requires from <= |Constants.AqiLevels|
    ensures r.Some? ==> from <= r.value < |Constants.AqiLevels| && InAqiBand(Constants.AqiLevels[r.value], v)
    ensures r.Some? ==> forall j :: from <= j < r.value ==> !InAqiBand(Constants.AqiLevels[j], v)
    ensures r.None? ==> forall j :: from <= j < |Constants.AqiLevels| ==> !InAqiBand(Constants.AqiLevels[j], v)
    decreases |Constants.AqiLevels| - from
  {
    if from == |Constants.AqiLevels| then None
    else if InAqiBand(Constants.AqiLevels[from], v) then Some(from)
    else FirstAqiBand(v, from + 1)
  }

  /** getAQILevel: null for a falsy value, the first band holding it, HAZARDOUS
      when none does. */
  function GetAqiLevel(v: Option<real>): (r: Option<Constants.AqiLevel>)
    ensures v.None? || v.value == 0.0 ==> r.None?
    ensures v.Some? && v.value != 0.0 && FirstAqiBand(v.value).Some? ==>
              r == Some(Constants.AqiLevels[FirstAqiBand(v.value).value])
    ensures v.Some? && v.value != 0.0 && FirstAqiBand(v.value).None? ==>
              r == Some(Constants.AqiLevels[5])
  {
    if v.None? || v.value == 0.0 then None
    else
      match FirstAqiBand(v.value)
      case Some(k) => Some(Constants.AqiLevels[k])
      case None => Some(Constants.AqiLevels[5])
  }

  /** An integer index 1..500 gets the band that holds it, and that band's label
      and colours are the ones getAQICategory gives the same index. */
  lemma AqiLevelOfInteger(v: int) returns (k: nat)
    requires 1 <= v <= 500
    ensures k < |Constants.AqiLevels| && Constants.InAqiLevel(k, v)
    ensures GetAqiLevel(Some(v as real)) == Some(Constants.AqiLevels[k])
    ensures AqiCalculator.AsCategory(Constants.AqiLevels[k]) == AqiCalculator.GetAqiCategory(v)
  {
    k := Constants.AqiLevelsPartition(v);
    var f := FirstAqiBand(v as real);
    assert InAqiBand(Constants.AqiLevels[k], v as real);
    var j := f.value;
    assert Constants.AqiLevels[j].min <= v <= Constants.AqiLevels[j].max;
    assert Constants.InAqiLevel(j, v);
    var c := AqiCalculator.CategoryAndRecommendationAgree(v);
    assert Constants.InAqiLevel(c, v);
  }

  /** Values no band holds are HAZARDOUS: above 500, negative, and non-integers
      in the gaps between bands. A negative index is Good to getAQICategory, so
      the two lookups disagree there. */
  lemma AqiLevelFallThrough()
    ensures GetAqiLevel(Some(50.5)) == Some(Constants.AqiLevels[5])
    ensures GetAqiLevel(Some(501.0)) == Some(Constants.AqiLevels[5])
    ensures GetAqiLevel(Some(-3.0)) == Some(Constants.AqiLevels[5])
    ensures Constants.AqiLevels[5].name == "Hazardous"
    ensures AqiCalculator.GetAqiCategory(-3).level == "Good"
  {
    Constants.AqiLevelsContiguous();
  }

  // ---------------------------------------------------------------- UV band lookup

  predicate InUvBand(l: Constants.UvLevel, v: real) {
    l.min as real <= v <= l.max as real
  }

  function FirstUvBand(v: real, from: nat := 0): (r: Option<nat>)
    requires from <= |Constants.UvIndexLevels|
    ensures r.Some? ==> from <= r.value < |Constants.UvIndexLevels| && InUvBand(Constants.UvIndexLevels[r.value], v)
    ensures r.Some? ==> forall j :: from <= j < r.value ==> !InUvBand(Constants.UvIndexLevels[j], v)
    ensures r.None? ==> forall j :: from <= j < |Constants.UvIndexLevels| ==> !InUvBand(Constants.UvIndexLevels[j], v)
    decreases |Constants.UvIndexLevels| - from
  {
    if from == |Constants.UvIndexLevels| then None
    else if InUvBand(Constants.UvIndexLevels[from], v) then Some(from)
    else FirstUvBand(v, from + 1)
  }

  /** getUVLevel: LOW for a falsy value, the first band holding it, EXTREME when
      none does. */
  function GetUvLevel(v: Option<real>): (r: Constants.UvLevel)
    ensures v.None? || v.value == 0.0 ==> r == Constants.UvIndexLevels[0]
    ensures v.Some? && v.value != 0.0 && FirstUvBand(v.value).Some? ==>
              r == Constants.UvIndexLevels[FirstUvBand(v.value).value]
    ensures v.Some? && v.value != 0.0 && FirstUvBand(v.value).None? ==>
              r == Constants.UvIndexLevels[4]
  {
    if v.None? || v.value == 0.0 then Constants.UvIndexLevels[0]
    else
      match FirstUvBand(v.value)
      case Some(k) => Constants.UvIndexLevels[k]
      case None => Constants.UvIndexLevels[4]
  }

  /** An integer UV value 0..20 gets the band that holds it (0 is Low both as
      the falsy default and as a member of the Low band). */
  lemma UvLevelOfInteger(v: int) returns (k: nat)
    requires 0 <= v <= 20
    ensures k < |Constants.UvIndexLevels| && Constants.InUvLevel(k, v)
    ensures GetUvLevel(Some(v as real)) == Constants.UvIndexLevels[k]
  {
    k := Constants.UvLevelsPartition(v);
    if v != 0 {
      assert InUvBand(Constants.UvIndexLevels[k], v as real);
      var j := FirstUvBand(v as real).value;
      assert Constants.UvIndexLevels[j].min <= v <= Constants.UvIndexLevels[j].max;
      assert Constants.InUvLevel(j, v);
    } else {
      assert Constants.InUvLevel(0, v);
    }
  }

  /** Values no UV band holds are EXTREME: above 20, and non-integers between
      bands such as 2.5. */
  lemma UvLevelFallThrough()
    ensures GetUvLevel(Some(2.5)) == Constants.UvIndexLevels[4]
    ensures GetUvLevel(Some(21.0)) == Constants.UvIndexLevels[4]
    ensures GetUvLevel(Some(-1.0)) == Constants.UvIndexLevels[4]
    ensures Constants.UvIndexLevels[4].name == "Extreme"
  {
  }

  // ---------------------------------------------------------------- formatters

  /** formatTemperature: "--" without a value; otherwise the rounded value and
      the Celsius sign exactly when the unit is "metric" (the default). */
  function FormatTemperature(temp: Option<real>, unit: string := "metric"): (r: string)
    ensures temp.None? ==> r == "--"
    ensures temp.Some? ==> |r| >= 3 && Text.ParseInt(r[..|r| - 2]) == Some(Text.Round(temp.value))
    ensures temp.Some? ==> (r[|r| - 2..] == "°C" <==> unit == "metric")
    ensures temp.Some? ==> (r[|r| - 2..] == "°F" <==> unit != "metric")
  {
    match temp
    case None => "--"
    case Some(t) =>
      var n := Text.IntToString(Text.Round(t));
      Text.ParseIntRoundTrip(Text.Round(t));
      var r := n + (if unit == "metric" then "°C" else "°F");
      assert r[..|r| - 2] == n;
      r
  }

  /** getWeatherIcon: "" for a falsy URL, a protocol-relative URL made https,
      anything else unchanged. */
  function GetWeatherIcon(iconUrl: Option<string>): (r: string)
    ensures r == "" <==> iconUrl.None? || iconUrl.value == ""
    ensures !Text.StartsWith(r, "//")
    ensures iconUrl.Some? && !Text.StartsWith(iconUrl.value, "//") ==> r == iconUrl.value
    ensures iconUrl.Some? && Text.StartsWith(iconUrl.value, "//") ==> |r| >= 6 && r[..6] == "https:" && r[6..] == iconUrl.value
  {
    match iconUrl
    case None => ""
    case Some(u) =>
      if u == "" then ""
      else if Text.StartsWith(u, "//") then
        var r := "https:" + u;
        assert r[0] == 'h';
        r
      else u
  }

  /** Normalising an icon URL a second time changes nothing. */
  lemma GetWeatherIconIdempotent(iconUrl: Option<string>)
    ensures GetWeatherIcon(Some(GetWeatherIcon(iconUrl))) == GetWeatherIcon(iconUrl)
  {
  }

  /** getWindSpeed: the km/h text exactly when the unit is "metric". */
  function GetWindSpeed(speedKph: string, speedMph: string, unit: string := "metric"): (r: string)
    ensures unit == "metric" ==> |r| >= 5 && r[..|r| - 5] == speedKph && r[|r| - 5..] == " km/h"
    ensures unit != "metric" ==> |r| >= 4 && r[..|r| - 4] == speedMph && r[|r| - 4..] == " mph"
  {
    if unit == "metric" then speedKph + " km/h" else speedMph + " mph"
  }

  /** getPressure: the millibar text exactly when the unit is "metric". */
  function GetPressure(pressureMb: string, pressureIn: string, unit: string := "metric"): (r: string)
    ensures unit == "metric" ==> |r| >= 3 && r[..|r| - 3] == pressureMb && r[|r| - 3..] == " mb"
    ensures unit != "metric" ==> |r| >= 5 && r[..|r| - 5] == pressureIn && r[|r| - 5..] == " inHg"
  {
    if unit == "metric" then pressureMb + " mb" else pressureIn + " inHg"
  }

  /** getVisibility: the kilometre text exactly when the unit is "metric". */
  function GetVisibility(visKm: string, visMiles: string, unit: string := "metric"): (r: string)
    ensures unit == "metric" ==> |r| >= 3 && r[..|r| - 3] == visKm && r[|r| - 3..] == " km"
    ensures unit != "metric" ==> |r| >= 6 && r[..|r| - 6] == visMiles && r[|r| - 6..] == " miles"
  {
    if unit == "metric" then visKm + " km" else visMiles + " miles"
  }

  /** The metric rendering never depends on the imperial value and vice versa. */
  lemma UnitPicksOneValue(a: string, b: string, c: string, d: string)
    ensures GetWindSpeed(a, b) == GetWindSpeed(a, c) && GetWindSpeed(b, a, "imperial") == GetWindSpeed(c, a, "imperial")
    ensures GetPressure(a, b) == GetPressure(a, c) && GetPressure(b, a, "imperial") == GetPressure(c, a, "imperial")
    ensures GetVisibility(a, b) == GetVisibility(a, c) && GetVisibility(b, a, "imperial") == GetVisibility(c, a, "imperial")
  {
  }
}
