/** src/utils/aqiCalculator.js: the US EPA Air Quality Index for PM2.5 and PM10
    (piecewise-linear interpolation over a breakpoint table, the pre-2024 PM2.5
    table), the combined index of a reading, and the index-to-category and
    index-to-guidance mappings. Concentrations are exact reals; Math.round is
    floor(x + 0.5). */
module AqiCalculator {
  import opened Wrappers
  import opened Payloads
  import Constants
  import Text

  /** One row of a breakpoint table: concentrations cLow..cHigh map onto indices iLow..iHigh. */
  datatype Breakpoint = Breakpoint(cLow: real, cHigh: real, iLow: int, iHigh: int)

  const Pm25Breakpoints: seq<Breakpoint> := [
    Breakpoint(0.0, 12.0, 0, 50),
    Breakpoint(12.1, 35.4, 51, 100),
    Breakpoint(35.5, 55.4, 101, 150),
    Breakpoint(55.5, 150.4, 151, 200),
    Breakpoint(150.5, 250.4, 201, 300),
    Breakpoint(250.5, 350.4, 301, 400),
    Breakpoint(350.5, 500.4, 401, 500)
  ]

  const Pm10Breakpoints: seq<Breakpoint> := [
    Breakpoint(0.0, 54.0, 0, 50),
    Breakpoint(55.0, 154.0, 51, 100),
    Breakpoint(155.0, 254.0, 101, 150),
    Breakpoint(255.0, 354.0, 151, 200),
    Breakpoint(355.0, 424.0, 201, 300),
    Breakpoint(425.0, 504.0, 301, 400),
    Breakpoint(505.0, 604.0, 401, 500)
  ]

  /** Every row spans a non-empty concentration range and an index range inside 0..500. */
  predicate WellFormed(bps: seq<Breakpoint>) {
    forall k :: 0 <= k < |bps| ==> bps[k].cLow < bps[k].cHigh && 0 <= bps[k].iLow <= bps[k].iHigh <= 500
  }

  /** Rows are in ascending order: each row starts above the previous one, in
      concentration and in index. */
  ghost predicate Ascending(bps: seq<Breakpoint>) {
    forall k :: 0 <= k < |bps| - 1 ==> bps[k].cHigh < bps[k + 1].cLow && bps[k].iHigh < bps[k + 1].iLow
  }

  predicate InBracket(bp: Breakpoint, c: real) {
    bp.cLow <= c <= bp.cHigh
  }

  /** Equation 1 of the EPA method, before rounding. */
  function Interpolate(bp: Breakpoint, c: real): real
    requires bp.cLow < bp.cHigh
  {
    (bp.iHigh - bp.iLow) as real / (bp.cHigh - bp.cLow) * (c - bp.cLow) + bp.iLow as real
  }

  /** The for-of search: the first row, from `from` on, whose range holds c. */
  function FirstBracket(bps: seq<Breakpoint>, c: real, from: nat := 0): (r: Option<nat>)
    requires from <= |bps|
    ensures r.Some? ==> from <= r.value < |bps| && InBracket(bps[r.value], c)
    ensures r.Some? ==> forall j :: from <= j < r.value ==> !InBracket(bps[j], c)
    ensures r.None? ==> forall j :: from <= j < |bps| ==> !InBracket(bps[j], c)
    decreases |bps| - from
  {
    if from == |bps| then None
    else if InBracket(bps[from], c) then Some(from)
    else FirstBracket(bps, c, from + 1)
  }

  /** calculateAQI: 0 for a missing, NaN, zero or negative concentration; the
      rounded interpolation inside the first matching row; 500 when no row matches
      (above the table or in a gap between two rows). */
  function CalculateAqi(c: Option<real>, bps: seq<Breakpoint>): (r: int)
    requires WellFormed(bps)
    ensures c.None? || c.value <= 0.0 ==> r == 0
    ensures c.Some? && c.value > 0.0 && FirstBracket(bps, c.value).None? ==> r == 500
    ensures c.Some? && c.value > 0.0 && FirstBracket(bps, c.value).Some? ==>
              bps[FirstBracket(bps, c.value).value].iLow <= r <= bps[FirstBracket(bps, c.value).value].iHigh
    ensures 0 <= r <= 500
  {
    if c.None? || c.value <= 0.0 then 0
    else
      match FirstBracket(bps, c.value)
      case None => 500
      case Some(k) =>
        InterpolateBounds(bps[k], c.value);
        Text.Round(Interpolate(bps[k], c.value))
  }

  // ---------------------------------------------------------------- interpolation facts

  /** Multiplying by a non-negative factor keeps order. */
  lemma MulMonotone(a: real, b1: real, b2: real)
    requires 0.0 <= a && b1 <= b2
    ensures a * b1 <= a * b2
  {
    assert a * b2 - a * b1 == a * (b2 - b1);
  }

  lemma InterpolateBounds(bp: Breakpoint, c: real)
    requires bp.cLow < bp.cHigh && bp.iLow <= bp.iHigh && InBracket(bp, c)
    ensures bp.iLow as real <= Interpolate(bp, c) <= bp.iHigh as real
    ensures bp.iLow <= Text.Round(Interpolate(bp, c)) <= bp.iHigh
  {
    var span, rise := bp.cHigh - bp.cLow, (bp.iHigh - bp.iLow) as real;
    var slope := rise / span;
    assert slope * span == rise;
    assert 0.0 <= slope;
    var y := slope * (c - bp.cLow);
    MulMonotone(slope, 0.0, c - bp.cLow);
    assert slope * 0.0 == 0.0;
    assert 0.0 <= y;
    MulMonotone(slope, c - bp.cLow, span);
    assert y <= slope * span;
    assert Interpolate(bp, c) == y + bp.iLow as real;
    Text.RoundOfInteger(bp.iLow);
    Text.RoundOfInteger(bp.iHigh);
    Text.RoundMonotone(bp.iLow as real, Interpolate(bp, c));
    Text.RoundMonotone(Interpolate(bp, c), bp.iHigh as real);
  }

  lemma InterpolateMonotone(bp: Breakpoint, c1: real, c2: real)
    requires bp.cLow < bp.cHigh && bp.iLow <= bp.iHigh && c1 <= c2
    ensures Interpolate(bp, c1) <= Interpolate(bp, c2)
    ensures Text.Round(Interpolate(bp, c1)) <= Text.Round(Interpolate(bp, c2))
  {
    var slope := (bp.iHigh - bp.iLow) as real / (bp.cHigh - bp.cLow);
    assert 0.0 <= slope;
    MulMonotone(slope, c1 - bp.cLow, c2 - bp.cLow);
  }

  /** At either end of a row the index is that row's index endpoint. */
  lemma InterpolateEndpoints(bp: Breakpoint)
    requires bp.cLow < bp.cHigh
    ensures Text.Round(Interpolate(bp, bp.cLow)) == bp.iLow
    ensures Text.Round(Interpolate(bp, bp.cHigh)) == bp.iHigh
  {
    var slope := (bp.iHigh - bp.iLow) as real / (bp.cHigh - bp.cLow);
    assert slope * (bp.cHigh - bp.cLow) == (bp.iHigh - bp.iLow) as real;
    assert Interpolate(bp, bp.cLow) == bp.iLow as real;
    assert Interpolate(bp, bp.cHigh) == bp.iHigh as real;
    Text.RoundOfInteger(bp.iLow);
    Text.RoundOfInteger(bp.iHigh);
  }

  // ---------------------------------------------------------------- table facts

  /** In an ascending table every row lies above all earlier rows. */
  lemma {:induction false} AscendingPairwise(bps: seq<Breakpoint>, j: nat, k: nat)
    requires WellFormed(bps) && Ascending(bps) && j < k < |bps|
    ensures bps[j].cHigh < bps[k].cLow && bps[j].iHigh < bps[k].iLow
    decreases k - j
  {
    if j + 1 < k {
      AscendingPairwise(bps, j + 1, k);
    }
  }

  /** Rows of an ascending table do not overlap, so the matching row is unique
      and the search finds it. */
  lemma OnlyBracket(bps: seq<Breakpoint>, k: nat, c: real)
    requires WellFormed(bps) && Ascending(bps) && k < |bps| && InBracket(bps[k], c)
    ensures FirstBracket(bps, c) == Some(k)
  {
    var r := FirstBracket(bps, c);
    if r.Some? && r.value < k {
      AscendingPairwise(bps, r.value, k);
    }
  }

  /** Inside any row of an ascending table the index is that row's rounded
      interpolation, and lies within the row's index range. */
  lemma AqiInBracket(bps: seq<Breakpoint>, k: nat, c: real)
    requires WellFormed(bps) && Ascending(bps) && k < |bps| && InBracket(bps[k], c) && c > 0.0
    ensures CalculateAqi(Some(c), bps) == Text.Round(Interpolate(bps[k], c))
    ensures bps[k].iLow <= CalculateAqi(Some(c), bps) <= bps[k].iHigh
  {
    OnlyBracket(bps, k, c);
    InterpolateBounds(bps[k], c);
  }

  /** At a row's endpoints the index is that row's index endpoints. */
  lemma AqiAtEndpoints(bps: seq<Breakpoint>, k: nat)
    requires WellFormed(bps) && Ascending(bps) && k < |bps|
    requires bps[k].cLow > 0.0 || (bps[k].cLow == 0.0 && bps[k].iLow == 0)
    ensures CalculateAqi(Some(bps[k].cLow), bps) == bps[k].iLow
    ensures bps[k].cHigh > 0.0 ==> CalculateAqi(Some(bps[k].cHigh), bps) == bps[k].iHigh
  {
    InterpolateEndpoints(bps[k]);
    if bps[k].cLow > 0.0 {
      AqiInBracket(bps, k, bps[k].cLow);
    }
    if bps[k].cHigh > 0.0 {
      AqiInBracket(bps, k, bps[k].cHigh);
    }
  }

  /** Over concentrations that match a row (or are zero or negative), the index
      never decreases as the concentration grows. */
  lemma AqiMonotone(bps: seq<Breakpoint>, c1: real, c2: real)
    requires WellFormed(bps) && Ascending(bps) && c1 <= c2 && c2 > 0.0
    requires FirstBracket(bps, c2).Some?
    requires c1 <= 0.0 || FirstBracket(bps, c1).Some?
    ensures CalculateAqi(Some(c1), bps) <= CalculateAqi(Some(c2), bps)
  {
    if c1 > 0.0 {
      var k1, k2 := FirstBracket(bps, c1).value, FirstBracket(bps, c2).value;
      if k1 == k2 {
        InterpolateMonotone(bps[k1], c1, c2);
      } else if k1 < k2 {
        AscendingPairwise(bps, k1, k2);
      } else {
        AscendingPairwise(bps, k2, k1);
      }
    }
  }

  /** Both tables in this file are well formed and ascending. */
  lemma TablesValid()
    ensures WellFormed(Pm25Breakpoints) && Ascending(Pm25Breakpoints)
    ensures WellFormed(Pm10Breakpoints) && Ascending(Pm10Breakpoints)
    ensures |Pm25Breakpoints| == 7 && Pm25Breakpoints[6].cHigh == 500.4
    ensures |Pm10Breakpoints| == 7 && Pm10Breakpoints[6].cHigh == 604.0
  {
    Pm25Valid();
    Pm10Valid();
  }

  lemma Pm25Valid()
    ensures WellFormed(Pm25Breakpoints) && Ascending(Pm25Breakpoints)
    ensures |Pm25Breakpoints| == 7 && Pm25Breakpoints[6].cHigh == 500.4
  {
    var t := Pm25Breakpoints;
    assert forall k :: 0 <= k < |t| ==> t[k].cLow < t[k].cHigh && 0 <= t[k].iLow <= t[k].iHigh <= 500;
    assert forall k :: 0 <= k < |t| - 1 ==> t[k].cHigh < t[k + 1].cLow && t[k].iHigh < t[k + 1].iLow;
  }

  lemma Pm10Valid()
    ensures WellFormed(Pm10Breakpoints) && Ascending(Pm10Breakpoints)
    ensures |Pm10Breakpoints| == 7 && Pm10Breakpoints[6].cHigh == 604.0
  {
    var t := Pm10Breakpoints;
    assert forall k :: 0 <= k < |t| ==> t[k].cLow < t[k].cHigh && 0 <= t[k].iLow <= t[k].iHigh <= 500;
    assert forall k :: 0 <= k < |t| - 1 ==> t[k].cHigh < t[k + 1].cLow && t[k].iHigh < t[k + 1].iLow;
  }

  /** A positive concentration that no row holds is indexed 500. */
  lemma NoBracket(bps: seq<Breakpoint>, c: real)
    requires WellFormed(bps) && c > 0.0
    requires forall j :: 0 <= j < |bps| ==> !InBracket(bps[j], c)
    ensures CalculateAqi(Some(c), bps) == 500
  {
    assert FirstBracket(bps, c).None?;
  }

  /** The bracket edges named by the EPA table, and values the code lets fall
      through to 500: above the table and in the gaps the PM2.5 and PM10 tables
      leave between rows (the code does not truncate before the lookup). */
  lemma BracketExamples()
    ensures CalculateAqi(Some(12.0), Pm25Breakpoints) == 50
    ensures CalculateAqi(Some(12.1), Pm25Breakpoints) == 51
    ensures CalculateAqi(Some(12.05), Pm25Breakpoints) == 500
    ensures CalculateAqi(Some(500.5), Pm25Breakpoints) == 500
    ensures CalculateAqi(Some(54.0), Pm10Breakpoints) == 50
    ensures CalculateAqi(Some(55.0), Pm10Breakpoints) == 51
    ensures CalculateAqi(Some(54.5), Pm10Breakpoints) == 500
    ensures CalculateAqi(Some(604.5), Pm10Breakpoints) == 500
  {
    Pm25Edges();
    Pm25Gaps();
    Pm10Edges();
    Pm10Gaps();
  }

  lemma Pm25Edges()
    ensures CalculateAqi(Some(12.0), Pm25Breakpoints) == 50
    ensures CalculateAqi(Some(12.1), Pm25Breakpoints) == 51
  {
    Pm25Valid();
    AqiAtEndpoints(Pm25Breakpoints, 0);
    AqiAtEndpoints(Pm25Breakpoints, 1);
  }

  lemma Pm25Gaps()
    ensures CalculateAqi(Some(12.05), Pm25Breakpoints) == 500
    ensures CalculateAqi(Some(500.5), Pm25Breakpoints) == 500
  {
    Pm25Valid();
    NoBracket(Pm25Breakpoints, 12.05);
    NoBracket(Pm25Breakpoints, 500.5);
  }

  lemma Pm10Edges()
    ensures CalculateAqi(Some(54.0), Pm10Breakpoints) == 50
    ensures CalculateAqi(Some(55.0), Pm10Breakpoints) == 51
  {
    Pm10Valid();
    AqiAtEndpoints(Pm10Breakpoints, 0);
    AqiAtEndpoints(Pm10Breakpoints, 1);
  }

  lemma Pm10Gaps()
    ensures CalculateAqi(Some(54.5), Pm10Breakpoints) == 500
    ensures CalculateAqi(Some(604.5), Pm10Breakpoints) == 500
  {
    Pm10Valid();
    NoBracket(Pm10Breakpoints, 54.5);
    NoBracket(Pm10Breakpoints, 604.5);
  }

  // ---------------------------------------------------------------- combined index

  function Pm25Aqi(aq: AirQuality): (r: int)
    ensures 0 <= r <= 500
  {
    TablesValid();
    CalculateAqi(aq.pm2_5, Pm25Breakpoints)
  }

  function Pm10Aqi(aq: AirQuality): (r: int)
    ensures 0 <= r <= 500
  {
    TablesValid();
    CalculateAqi(aq.pm10, Pm10Breakpoints)
  }

  /** calculateAQIFromPollutants: 0 without a reading, otherwise the larger of the
      PM2.5 and PM10 indices (the most restrictive pollutant). */
  function CalculateAqiFromPollutants(aq: Option<AirQuality>): (r: int)
    ensures aq.None? ==> r == 0
    ensures aq.Some? ==> r >= Pm25Aqi(aq.value) && r >= Pm10Aqi(aq.value)
    ensures aq.Some? ==> r == Pm25Aqi(aq.value) || r == Pm10Aqi(aq.value)
    ensures 0 <= r <= 500
  {
    match aq
    case None => 0
    case Some(a) =>
      var p25, p10 := Pm25Aqi(a), Pm10Aqi(a);
      if p25 >= p10 then p25 else p10
  }

  /** Only PM2.5 and PM10 enter the combined index; the provider's own index and
      the other pollutants never change it. */
  lemma OnlyParticulatesCount(a: AirQuality, b: AirQuality)
    requires a.pm2_5 == b.pm2_5 && a.pm10 == b.pm10
    ensures CalculateAqiFromPollutants(Some(a)) == CalculateAqiFromPollutants(Some(b))
  {
  }

  /** PM2.5 of 40 µg/m³ with no PM10 gives the PM2.5 index, 112, in the
      "sensitive groups" band. */
  lemma CombinedIndexExample(a: AirQuality)
    requires a.pm2_5 == Some(40.0) && (a.pm10 == None || a.pm10 == Some(0.0))
    ensures CalculateAqiFromPollutants(Some(a)) == 112
  {
    TablesValid();
    OnlyBracket(Pm25Breakpoints, 2, 40.0);
  }

  // ---------------------------------------------------------------- categories

  /** The card's band: its name and two colour tokens. */
  datatype Category = Category(level: string, color: string, bgColor: string)

  /** getAQICategory: the AQI_LEVELS band holding the index; below 0 the first
      band, above the table the last one. */
  function GetAqiCategory(aqi: int): (r: Category)
    ensures forall k :: 0 <= k < |Constants.AqiLevels| && Constants.InAqiLevel(k, aqi) ==>
              r == AsCategory(Constants.AqiLevels[k])
    ensures aqi < Constants.AqiLevels[0].min ==> r == AsCategory(Constants.AqiLevels[0])
    ensures aqi > Constants.AqiLevels[5].max ==> r == AsCategory(Constants.AqiLevels[5])
  {
    Constants.AqiBounds();
    if aqi <= 50 then Category("Good", "#00E400", "bg-green-500")
    else if aqi <= 100 then Category("Moderate", "#FFFF00", "bg-yellow-400")
    else if aqi <= 150 then Category("Unhealthy for Sensitive Groups", "#FF7E00", "bg-orange-500")
    else if aqi <= 200 then Category("Unhealthy", "#FF0000", "bg-red-500")
    else if aqi <= 300 then Category("Very Unhealthy", "#8F3F97", "bg-purple-600")
    else Category("Hazardous", "#7E0023", "bg-red-900")
  }

  /** getAQIRecommendation: the AQI_RECOMMENDATIONS sentence of the band holding
      the index; below 0 the first band's, above the table the last one's. */
  function GetAqiRecommendation(aqi: int): (r: string)
    ensures forall k :: 0 <= k < |Constants.AqiLevels| && Constants.InAqiLevel(k, aqi) ==>
              r == Constants.AqiRecommendations[Constants.AqiLevels[k].key]
    ensures aqi < Constants.AqiLevels[0].min ==> r == Constants.AqiRecommendations[Constants.AqiLevels[0].key]
    ensures aqi > Constants.AqiLevels[5].max ==> r == Constants.AqiRecommendations[Constants.AqiLevels[5].key]
  {
    Constants.AqiBounds();
    if aqi <= 50 then
      "Air quality is satisfactory, and air pollution poses little or no risk."
    else if aqi <= 100 then
      "Air quality is acceptable. However, there may be a risk for some people, particularly those who are unusually sensitive to air pollution."
    else if aqi <= 150 then
      "Members of sensitive groups may experience health effects. The general public is less likely to be affected."
    else if aqi <= 200 then
      "Some members of the general public may experience health effects; members of sensitive groups may experience more serious health effects."
    else if aqi <= 300 then
      "Health alert: The risk of health effects is increased for everyone."
    else
      "Health warning of emergency conditions: everyone is more likely to be affected."
  }

  function AsCategory(l: Constants.AqiLevel): Category {
    Category(l.name, l.color, l.bgColor)
  }

  /** For every index, the category and the guidance sentence come from one and
      the same band k of AQI_LEVELS / AQI_RECOMMENDATIONS: the band holding the
      index for 0..500, Good below 0, and Hazardous for everything above 300 (no
      upper bound). */
  lemma CategoryAndRecommendationAgree(aqi: int) returns (k: nat)
    ensures k < |Constants.AqiLevels|
    ensures GetAqiCategory(aqi) == AsCategory(Constants.AqiLevels[k])
    ensures GetAqiRecommendation(aqi) == Constants.AqiRecommendations[Constants.AqiLevels[k].key]
    ensures 0 <= aqi <= 500 ==> Constants.InAqiLevel(k, aqi)
    ensures aqi < 0 ==> k == 0
    ensures aqi > 300 ==> k == 5
    ensures forall j :: 0 <= j < k ==> Constants.AqiLevels[j].max < aqi
    ensures k < |Constants.AqiLevels| - 1 ==> aqi <= Constants.AqiLevels[k].max
  {
    Constants.AqiBounds();
    k := if aqi <= 50 then 0 else if aqi <= 100 then 1 else if aqi <= 150 then 2
         else if aqi <= 200 then 3 else if aqi <= 300 then 4 else 5;
  }
}
