/** The literal tables of src/utils/constants.js: the six AQI bands with their
    labels and colours, the guidance sentence per band, the compass names, the five
    UV bands and the default location. Object.values order is the declaration order,
    so each table is a sequence in that order. */
module Constants {

  /** The keys of AQI_LEVELS and AQI_RECOMMENDATIONS. */
  datatype AqiKey = Good | Moderate | UnhealthySensitive | Unhealthy | VeryUnhealthy | Hazardous

  datatype AqiLevel = AqiLevel(key: AqiKey, min: int, max: int, name: string, color: string, bgColor: string)

  const AqiLevels: seq<AqiLevel> := [
    AqiLevel(Good, 0, 50, "Good", "#00E400", "bg-green-500"),
    AqiLevel(Moderate, 51, 100, "Moderate", "#FFFF00", "bg-yellow-400"),
    AqiLevel(UnhealthySensitive, 101, 150, "Unhealthy for Sensitive Groups", "#FF7E00", "bg-orange-500"),
    AqiLevel(Unhealthy, 151, 200, "Unhealthy", "#FF0000", "bg-red-500"),
    AqiLevel(VeryUnhealthy, 201, 300, "Very Unhealthy", "#8F3F97", "bg-purple-600"),
    AqiLevel(Hazardous, 301, 500, "Hazardous", "#7E0023", "bg-red-900")
  ]

  const AqiRecommendations: map<AqiKey, string> := map[
    Good := "Air quality is satisfactory, and air pollution poses little or no risk.",
    Moderate := "Air quality is acceptable. However, there may be a risk for some people, particularly those who are unusually sensitive to air pollution.",
    UnhealthySensitive := "Members of sensitive groups may experience health effects. The general public is less likely to be affected.",
    Unhealthy := "Some members of the general public may experience health effects; members of sensitive groups may experience more serious health effects.",
    VeryUnhealthy := "Health alert: The risk of health effects is increased for everyone.",
    Hazardous := "Health warning of emergency conditions: everyone is more likely to be affected."
  ]

  const WindDirections: map<string, string> := map[
    "N" := "North",
    "NNE" := "North-Northeast",
    "NE" := "Northeast",
    "ENE" := "East-Northeast",
    "E" := "East",
    "ESE" := "East-Southeast",
    "SE" := "Southeast",
    "SSE" := "South-Southeast",
    "S" := "South",
    "SSW" := "South-Southwest",
    "SW" := "Southwest",
    "WSW" := "West-Southwest",
    "W" := "West",
    "WNW" := "West-Northwest",
    "NW" := "Northwest",
    "NNW" := "North-Northwest"
  ]

  datatype UvKey = Low | UvModerate | High | VeryHigh | Extreme

  datatype UvLevel = UvLevel(key: UvKey, min: int, max: int, name: string, color: string)

  const UvIndexLevels: seq<UvLevel> := [
    UvLevel(Low, 0, 2, "Low", "text-green-600"),
    UvLevel(UvModerate, 3, 5, "Moderate", "text-yellow-600"),
    UvLevel(High, 6, 7, "High", "text-orange-600"),
    UvLevel(VeryHigh, 8, 10, "Very High", "text-red-600"),
    UvLevel(Extreme, 11, 20, "Extreme", "text-purple-600")
  ]

  const DefaultLocation: string := "London"

  // ---------------------------------------------------------------- band tables

  /** A table of integer bands in ascending order, each starting right after the
      previous one ends, covering lo..hi. */
  ghost predicate Contiguous(mins: seq<int>, maxs: seq<int>, lo: int, hi: int) {
    && |mins| == |maxs| > 0
    && mins[0] == lo && maxs[|maxs| - 1] == hi
    && (forall k :: 0 <= k < |mins| ==> mins[k] <= maxs[k])
    && (forall k :: 0 <= k < |mins| - 1 ==> mins[k + 1] == maxs[k] + 1)
  }

  function AqiMins(): seq<int> { seq(|AqiLevels|, k requires 0 <= k < |AqiLevels| => AqiLevels[k].min) }
  function AqiMaxs(): seq<int> { seq(|AqiLevels|, k requires 0 <= k < |AqiLevels| => AqiLevels[k].max) }
  function UvMins(): seq<int> { seq(|UvIndexLevels|, k requires 0 <= k < |UvIndexLevels| => UvIndexLevels[k].min) }
  function UvMaxs(): seq<int> { seq(|UvIndexLevels|, k requires 0 <= k < |UvIndexLevels| => UvIndexLevels[k].max) }

  /** In a contiguous table every integer of lo..hi lies in exactly one band. */
  lemma {:induction false} ContiguousPartition(mins: seq<int>, maxs: seq<int>, lo: int, hi: int, v: int)
    requires Contiguous(mins, maxs, lo, hi)
    requires lo <= v <= hi
    ensures exists k :: 0 <= k < |mins| && mins[k] <= v <= maxs[k]
    ensures forall j, k :: (0 <= j < |mins| && 0 <= k < |mins| && mins[j] <= v <= maxs[j] && mins[k] <= v <= maxs[k]) ==> j == k
    decreases |mins|
  {
    var n := |mins|;
    if n == 1 {
      assert mins[0] <= v <= maxs[0];
    } else if v <= maxs[0] {
      assert mins[0] <= v <= maxs[0];
      AscendingBands(mins, maxs, lo, hi);
    } else {
      ContiguousPartition(mins[1..], maxs[1..], maxs[0] + 1, hi, v);
      var k :| 0 <= k < n - 1 && mins[1..][k] <= v <= maxs[1..][k];
      assert mins[k + 1] <= v <= maxs[k + 1];
      AscendingBands(mins, maxs, lo, hi);
    }
  }

  /** A band ends below the start of every later band. */
  lemma {:induction false} AscendingBands(mins: seq<int>, maxs: seq<int>, lo: int, hi: int)
    requires Contiguous(mins, maxs, lo, hi)
    ensures forall j, k :: 0 <= j < k < |mins| ==> maxs[j] < mins[k]
    decreases |mins|
  {
    if |mins| > 1 {
      AscendingBands(mins[1..], maxs[1..], maxs[0] + 1, hi);
      forall j, k | 0 <= j < k < |mins| ensures maxs[j] < mins[k] {
        if j > 0 {
          assert maxs[1..][j - 1] < mins[1..][k - 1];
        } else {
          assert mins[1..][k - 1] <= maxs[1..][k - 1];
          if k > 1 {
            assert maxs[1..][0] < mins[1..][k - 1];
          }
        }
      }
    }
  }

  /** AQI_LEVELS: six bands, 0..500, each min the previous max + 1. */
  lemma AqiLevelsContiguous()
    ensures |AqiLevels| == 6
    ensures AqiMins() == [0, 51, 101, 151, 201, 301] && AqiMaxs() == [50, 100, 150, 200, 300, 500]
    ensures Contiguous(AqiMins(), AqiMaxs(), 0, 500)
  {
  }

  /** UV_INDEX_LEVELS: five bands, 0..20, each min the previous max + 1. */
  lemma UvLevelsContiguous()
    ensures |UvIndexLevels| == 5
    ensures UvMins() == [0, 3, 6, 8, 11] && UvMaxs() == [2, 5, 7, 10, 20]
    ensures Contiguous(UvMins(), UvMaxs(), 0, 20)
  {
  }

  predicate InAqiLevel(k: nat, v: int)
    requires k < |AqiLevels|
  {
    AqiLevels[k].min <= v <= AqiLevels[k].max
  }

  predicate InUvLevel(k: nat, v: int)
    requires k < |UvIndexLevels|
  {
    UvIndexLevels[k].min <= v <= UvIndexLevels[k].max
  }

  /** The bounds of AQI_LEVELS, band by band. */
  lemma AqiBounds()
    ensures |AqiLevels| == 6
    ensures AqiLevels[0].min == 0 && AqiLevels[0].max == 50
    ensures AqiLevels[1].min == 51 && AqiLevels[1].max == 100
    ensures AqiLevels[2].min == 101 && AqiLevels[2].max == 150
    ensures AqiLevels[3].min == 151 && AqiLevels[3].max == 200
    ensures AqiLevels[4].min == 201 && AqiLevels[4].max == 300
    ensures AqiLevels[5].min == 301 && AqiLevels[5].max == 500
  {
  }

  /** Every integer index 0..500 lies in exactly one AQI band, band k. */
  lemma AqiLevelsPartition(v: int) returns (k: nat)
    requires 0 <= v <= 500
    ensures k < |AqiLevels| && InAqiLevel(k, v)
    ensures forall j :: 0 <= j < |AqiLevels| && InAqiLevel(j, v) ==> j == k
  {
    AqiLevelsContiguous();
    var mins, maxs := AqiMins(), AqiMaxs();
    ContiguousPartition(mins, maxs, 0, 500, v);
    k :| 0 <= k < |mins| && mins[k] <= v <= maxs[k];
    forall j | 0 <= j < |AqiLevels| && InAqiLevel(j, v) ensures j == k {
      assert mins[j] <= v <= maxs[j];
    }
  }

  /** The bounds of UV_INDEX_LEVELS, band by band. */
  lemma UvBounds()
    ensures |UvIndexLevels| == 5
    ensures UvIndexLevels[0].min == 0 && UvIndexLevels[0].max == 2
    ensures UvIndexLevels[1].min == 3 && UvIndexLevels[1].max == 5
    ensures UvIndexLevels[2].min == 6 && UvIndexLevels[2].max == 7
    ensures UvIndexLevels[3].min == 8 && UvIndexLevels[3].max == 10
    ensures UvIndexLevels[4].min == 11 && UvIndexLevels[4].max == 20
  {
  }

  /** Every integer UV value 0..20 lies in exactly one UV band, band k. */
  lemma UvLevelsPartition(v: int) returns (k: nat)
    requires 0 <= v <= 20
    ensures k < |UvIndexLevels| && InUvLevel(k, v)
    ensures forall j :: 0 <= j < |UvIndexLevels| && InUvLevel(j, v) ==> j == k
  {
    UvLevelsContiguous();
    var mins, maxs := UvMins(), UvMaxs();
    ContiguousPartition(mins, maxs, 0, 20, v);
    k :| 0 <= k < |mins| && mins[k] <= v <= maxs[k];
    forall j | 0 <= j < |UvIndexLevels| && InUvLevel(j, v) ensures j == k {
      assert mins[j] <= v <= maxs[j];
    }
  }

  /** Each band has its own key, and every key has a guidance sentence. */
  lemma AqiKeysDistinct()
    ensures forall j, k :: 0 <= j < k < |AqiLevels| ==> AqiLevels[j].key != AqiLevels[k].key
    ensures forall k :: 0 <= k < |AqiLevels| ==> AqiLevels[k].key in AqiRecommendations
  {
  }

  /** The compass abbreviations, in the order WIND_DIRECTIONS lists them. */
  const CompassPoints: seq<string> :=
    ["N", "NNE", "NE", "ENE", "E", "ESE", "SE", "SSE", "S", "SSW", "SW", "WSW", "W", "WNW", "NW", "NNW"]

  lemma {:induction false} DistinctCount(s: seq<string>)
    requires forall i, j :: 0 <= i < j < |s| ==> s[i] != s[j]
    ensures |set k | k in s| == |s|
  {
    if |s| > 0 {
      assert (set k | k in s) == (set k | k in s[1..]) + {s[0]};
      DistinctCount(s[1..]);
      assert s[0] !in s[1..];
    }
  }

  /** WIND_DIRECTIONS maps exactly sixteen distinct abbreviations: the points of
      the compass rose. */
  lemma WindDirectionsSixteen()
    ensures WindDirections.Keys == set k | k in CompassPoints
    ensures |WindDirections| == 16
  {
    assert forall i, j :: 0 <= i < j < |CompassPoints| ==> CompassPoints[i] != CompassPoints[j];
    DistinctCount(CompassPoints);
  }
}
