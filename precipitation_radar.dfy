/** src/components/weather/PrecipitationRadar.jsx: the rain check on the current
    conditions, the choice of the first 15-minute slot at or after now, the
    four-slot window, the 12-hour slot labels, the bar scale, the totals and the
    status line. Slot times are whole minutes on the local clock (the hour and
    minute shown are read from them); precipitation is in mm, with null as None. */
module PrecipitationRadar {
  import opened Wrappers
  import opened Payloads
  import Text
  import WeatherContext

  const RainKeywords: seq<string> := ["rain", "drizzle", "shower", "thunderstorm", "storm", "precipitation"]
  const WindowSize := 4
  /** The floor of the bar scale. */
  const MinScale := 0.1
  /** The amount above which a bar is highlighted. */
  const HighlightThreshold := 0.1

  // ---------------------------------------------------------------- current rain

  predicate MentionsRain(condition: string) {
    exists k :: 0 <= k < |RainKeywords| && Text.Contains(condition, RainKeywords[k])
  }

  /** `condition?.text?.toLowerCase() || ''` */
  function ConditionOf(c: Current): string {
    match c.conditionText
    case None => ""
    case Some(t) => Text.Lower(t)
  }

  /** `x || fallback` on a number: null and 0 give the fallback. */
  function OrNumber(x: Option<real>, fallback: real): (r: real)
    ensures x.Some? && x.value != 0.0 ==> r == x.value
    ensures x.None? || x.value == 0.0 ==> r == fallback
  {
    if x.Some? && x.value != 0.0 then x.value else fallback
  }

  /** isCurrentlyRaining: false without current data; otherwise a rain keyword in
      the lower-cased condition, or measured precipitation. */
  function IsCurrentlyRaining(weather: Option<Weather>): (r: bool)
    ensures weather.None? || weather.value.current.None? ==> !r
    ensures weather.Some? && weather.value.current.Some? ==>
              var c := weather.value.current.value;
              (r <==> MentionsRain(ConditionOf(c)) || (c.precipMm.Some? && c.precipMm.value > 0.0))
  {
    match weather
    case None => false
    case Some(w) =>
      match w.current
      case None => false
      case Some(c) => MentionsRain(ConditionOf(c)) || OrNumber(c.precipMm, 0.0) > 0.0
  }

  lemma LowerIdempotent(s: string)
    ensures Text.Lower(Text.Lower(s)) == Text.Lower(s)
  {
  }

  /** The check ignores letter case: lower-casing the condition text changes
      nothing. */
  lemma RainCheckIgnoresCase(w: Weather, c: Current, t: string)
    requires w.current == Some(c) && c.conditionText == Some(t)
    ensures IsCurrentlyRaining(Some(w)) ==
            IsCurrentlyRaining(Some(w.(current := Some(c.(conditionText := Some(Text.Lower(t)))))))
  {
    LowerIdempotent(t);
  }

  /** "thunderstorm" adds nothing to the keyword list: every text containing it
      contains "storm". */
  lemma ThunderstormImpliesStorm(condition: string)
    requires Text.Contains(condition, "thunderstorm")
    ensures Text.Contains(condition, "storm")
  {
    assert "thunderstorm"[7..12] == "storm";
    Text.ContainsPiece(condition, "thunderstorm", 7, "storm");
  }

  /** Rain is detected in any case ("Heavy Rain") and from precipitation alone. */
  lemma RainExamples(w: Weather, c: Current)
    requires w.current == Some(c)
    ensures c.conditionText == Some("Heavy Rain") ==> IsCurrentlyRaining(Some(w))
    ensures c.precipMm == Some(0.2) ==> IsCurrentlyRaining(Some(w))
    ensures c.conditionText.None? && (c.precipMm.None? || c.precipMm == Some(0.0)) ==> !IsCurrentlyRaining(Some(w))
  {
    if c.conditionText == Some("Heavy Rain") {
      var s := ConditionOf(c);
      assert s == "heavy rain";
      assert s[6..10] == "rain";
      Text.OccurrenceContains(s, "rain", 6);
      assert Text.Contains(s, RainKeywords[0]);
    }
    if c.conditionText.None? {
      assert ConditionOf(c) == "";
      forall k | 0 <= k < |RainKeywords| ensures !Text.Contains("", RainKeywords[k]) {
        assert |RainKeywords[k]| > 0;
      }
    }
  }

  // ---------------------------------------------------------------- the slot window

  /** The first slot from `from` on whose time is at or after now. */
  function FirstAtOrAfter(time: seq<int>, now: int, from: nat := 0): (r: Option<nat>)
    requires from <= |time|
    ensures r.Some? ==> from <= r.value < |time| && time[r.value] >= now
    ensures r.Some? ==> forall j :: from <= j < r.value ==> time[j] < now
    ensures r.None? ==> forall j :: from <= j < |time| ==> time[j] < now
    decreases |time| - from
  {
    if from == |time| then None
    else if time[from] >= now then Some(from)
    else FirstAtOrAfter(time, now, from + 1)
  }

  /** The slot the window starts at: the first at or after now; with every slot
      in the past, the start of the last four (0 for fewer, and for none). */
  function StartSlot(time: seq<int>, now: int): (r: nat)
    ensures |time| == 0 ==> r == 0
    ensures |time| > 0 ==> r < |time|
    ensures FirstAtOrAfter(time, now).None? ==> r == if |time| >= WindowSize then |time| - WindowSize else 0
    ensures (forall j :: 0 <= j < |time| ==> time[j] < now) ==> r == if |time| >= WindowSize then |time| - WindowSize else 0
    ensures FirstAtOrAfter(time, now).Some? ==> r == FirstAtOrAfter(time, now).value
    ensures r < |time| && time[r] >= now ==> forall j :: 0 <= j < r ==> time[j] < now
  {
    match FirstAtOrAfter(time, now)
    case Some(i) => i
    case None => if |time| >= WindowSize then |time| - WindowSize else 0
  }

  /** The component's for-loop: it stops at the first slot at or after now, and at
      the last slot falls back to the start of the last four. */
  method StartIndex(time: seq<int>, now: int) returns (startIndex: nat)
    ensures startIndex == StartSlot(time, now)
  {
    startIndex := 0;
    var i := 0;
    if |time| == 0 {
      assert FirstAtOrAfter(time, now).None?;
    }
    while i < |time|
      invariant 0 <= i <= |time|
      invariant |time| > 0 ==> i < |time|
      invariant forall j :: 0 <= j < i ==> time[j] < now
      invariant startIndex == 0
      invariant FirstAtOrAfter(time, now) == FirstAtOrAfter(time, now, i)
    {
      if time[i] >= now {
        assert FirstAtOrAfter(time, now, i) == Some(i);
        startIndex := i;
        return;
      }
      if i == |time| - 1 {
        assert FirstAtOrAfter(time, now, i + 1).None?;
        startIndex := if |time| >= WindowSize then |time| - WindowSize else 0;
        return;
      }
      i := i + 1;
    }
  }

  /** `slice(start, start + 4)` */
  function Window<T>(s: seq<T>, start: nat): (r: seq<T>)
    ensures |r| == if start >= |s| then 0 else if |s| - start >= WindowSize then WindowSize else |s| - start
    ensures forall i :: 0 <= i < |r| ==> r[i] == s[start + i]
  {
    if start >= |s| then []
    else if |s| - start >= WindowSize then s[start..start + WindowSize]
    else s[start..]
  }

  // ---------------------------------------------------------------- labels

  function HourOf(t: int): int { (t / 60) % 24 }
  function MinuteOf(t: int): int { t % 60 }

  /** `hours % 12 || 12` */
  function DisplayHour(h: int): (r: nat)
    requires 0 <= h < 24
    ensures 1 <= r <= 12
    ensures r % 12 == h % 12
  {
    if h % 12 == 0 then 12 else h % 12
  }

  /** `${displayHours}:${displayMinutes} ${ampm}` */
  function TimeLabel(t: int): string {
    var h, m := HourOf(t), MinuteOf(t);
    Text.NatToString(DisplayHour(h)) + ":" + Text.PadStart(Text.NatToString(m), 2, '0') + " " + (if h >= 12 then "PM" else "AM")
  }

  /** Reads a label back: hours, minutes, AM/PM. */
  function ReadTimeLabel(l: string): Option<(int, int)> {
    if |l| < 7 then None
    else
      var hh, mm, ap := l[..|l| - 6], l[|l| - 5..|l| - 3], l[|l| - 2..];
      if !Text.AllDigits(hh) || !Text.AllDigits(mm) || (ap != "AM" && ap != "PM") then None
      else Some((Text.DigitsValue(hh) % 12 + (if ap == "PM" then 12 else 0), Text.DigitsValue(mm)))
  }

  lemma TwoDigits(m: int)
    requires 0 <= m < 60
    ensures |Text.PadStart(Text.NatToString(m), 2, '0')| == 2
    ensures Text.AllDigits(Text.PadStart(Text.NatToString(m), 2, '0'))
    ensures Text.DigitsValue(Text.PadStart(Text.NatToString(m), 2, '0')) == m
  {
    var n := Text.NatToString(m);
    Text.NatToStringRoundTrip(m);
    if m < 10 {
      var p := Text.PadStart(n, 2, '0');
      assert p == Text.PadStart(['0'] + n, 2, '0') == ['0'] + n;
      assert p[..1] == ['0'];
      assert p[1..] == n;
      assert Text.DigitsValue(p[..1]) == 0;
    } else {
      Text.NatToStringLength2(m);
    }
  }

  /** Every label reads back as the slot's hour and minute: the label shows the
      time of day exactly. */
  lemma TimeLabelRoundTrip(t: int)
    ensures ReadTimeLabel(TimeLabel(t)) == Some((HourOf(t), MinuteOf(t)))
  {
    var h, m := HourOf(t), MinuteOf(t);
    var hh := Text.NatToString(DisplayHour(h));
    var mm := Text.PadStart(Text.NatToString(m), 2, '0');
    var ap := if h >= 12 then "PM" else "AM";
    TwoDigits(m);
    Text.NatToStringRoundTrip(DisplayHour(h));
    assert TimeLabel(t) == hh + ":" + mm + " " + ap;
    ReadLabelParts(hh, mm, ap);
    HourFromDisplay(h);
    assert (ap == "PM") == (h >= 12);
  }

  /** The twelve-hour display hour and the AM/PM marker give back the hour. */
  lemma HourFromDisplay(h: int)
    requires 0 <= h < 24
    ensures DisplayHour(h) % 12 + (if h >= 12 then 12 else 0) == h
  {
  }

  /** A label assembled from its three parts reads back as those parts. */
  lemma ReadLabelParts(hh: string, mm: string, ap: string)
    requires |hh| > 0 && Text.AllDigits(hh) && |mm| == 2 && Text.AllDigits(mm) && (ap == "AM" || ap == "PM")
    ensures ReadTimeLabel(hh + ":" + mm + " " + ap) ==
              Some((Text.DigitsValue(hh) % 12 + (if ap == "PM" then 12 else 0), Text.DigitsValue(mm)))
  {
    var l := hh + ":" + mm + " " + ap;
    assert |l| == |hh| + 6;
    assert l[..|l| - 6] == hh;
    assert l[|l| - 5..|l| - 3] == mm;
    assert l[|l| - 2..] == ap;
    ReadLabelPieces(l, hh, mm, ap);
  }

  /** ReadTimeLabel on a label whose hour, minute and AM/PM pieces are known. */
  lemma ReadLabelPieces(l: string, hh: string, mm: string, ap: string)
    requires |hh| > 0 && Text.AllDigits(hh) && |mm| == 2 && Text.AllDigits(mm) && (ap == "AM" || ap == "PM")
    requires |l| == |hh| + 6 && l[..|l| - 6] == hh && l[|l| - 5..|l| - 3] == mm && l[|l| - 2..] == ap
    ensures ReadTimeLabel(l) == Some((Text.DigitsValue(hh) % 12 + (if ap == "PM" then 12 else 0), Text.DigitsValue(mm)))
  {
  }

  /** Two slots with the same label are at the same time of day. */
  lemma TimeLabelInjective(t1: int, t2: int)
    requires TimeLabel(t1) == TimeLabel(t2)
    ensures t1 % 1440 == t2 % 1440
  {
    TimeLabelRoundTrip(t1);
    TimeLabelRoundTrip(t2);
    TimeOfDay(t1);
    TimeOfDay(t2);
  }

  lemma TimeOfDay(t: int)
    ensures t % 1440 == HourOf(t) * 60 + MinuteOf(t)
  {
    var q := t / 60;
    assert t == q * 60 + t % 60;
    assert q == (q / 24) * 24 + q % 24;
    assert t == (q / 24) * 1440 + (q % 24) * 60 + t % 60;
    assert 0 <= (q % 24) * 60 + t % 60 < 1440;
  }

  /** Midnight is 12 AM, with the minutes padded to two digits. */
  lemma MidnightLabel()
    ensures TimeLabel(0) == "12:00 AM"
  {
    assert HourOf(0) == 0 && MinuteOf(0) == 0;
    assert DisplayHour(0) == 12;
    assert Text.NatToString(12) == "12";
    assert Text.NatToString(0) == "0";
    assert Text.PadStart("0", 2, '0') == "00";
  }

  /** 13:45 is 1:45 PM. */
  lemma AfternoonLabel()
    ensures TimeLabel(825) == "1:45 PM"
  {
    assert HourOf(825) == 13 && MinuteOf(825) == 45;
    assert DisplayHour(13) == 1;
    assert Text.NatToString(1) == "1";
    assert Text.NatToString(45) == "45";
    assert Text.PadStart("45", 2, '0') == "45";
  }

  // ---------------------------------------------------------------- amounts

  /** `p || 0` */
  function Amount(p: Option<real>): real {
    OrNumber(p, 0.0)
  }

  /** Math.max(...window, 0.1); null counts as 0. */
  function MaxPrecip(ps: seq<Option<real>>): (r: real)
    ensures r >= MinScale
    ensures forall i :: 0 <= i < |ps| ==> Amount(ps[i]) <= r
    ensures r == MinScale || exists i :: 0 <= i < |ps| && r == Amount(ps[i])
    decreases |ps|
  {
    if ps == [] then MinScale
    else
      var rest := MaxPrecip(ps[1..]);
      assert forall i :: 1 <= i < |ps| ==> ps[i] == ps[1..][i - 1];
      if Amount(ps[0]) > rest then Amount(ps[0]) else rest
  }

  /** `some(p => p > 0)` */
  predicate ForecastShowsRain(ps: seq<Option<real>>) {
    exists i :: 0 <= i < |ps| && ps[i].Some? && ps[i].value > 0.0
  }

  /** `reduce((sum, p) => sum + (p || 0), 0)` */
  function Total(ps: seq<Option<real>>): (r: real)
    ensures (forall i :: 0 <= i < |ps| ==> Amount(ps[i]) >= 0.0) ==> r >= 0.0
    ensures (forall i :: 0 <= i < |ps| ==> Amount(ps[i]) == 0.0) ==> r == 0.0
    decreases |ps|
  {
    if ps == [] then 0.0
    else
      var init := ps[..|ps| - 1];
      assert forall i :: 0 <= i < |init| ==> init[i] == ps[i];
      Total(init) + Amount(ps[|ps| - 1])
  }

  /** With no negative reading, the total is positive exactly when some reading
      is. */
  lemma {:induction false} TotalPositive(ps: seq<Option<real>>)
    requires forall i :: 0 <= i < |ps| ==> Amount(ps[i]) >= 0.0
    ensures Total(ps) >= 0.0
    ensures Total(ps) > 0.0 <==> ForecastShowsRain(ps)
    decreases |ps|
  {
    if ps != [] {
      var init := ps[..|ps| - 1];
      assert forall i :: 0 <= i < |init| ==> init[i] == ps[i];
      TotalPositive(init);
      if ForecastShowsRain(init) {
        var i :| 0 <= i < |init| && init[i].Some? && init[i].value > 0.0;
        assert ps[i] == init[i];
      }
      if ForecastShowsRain(ps) && !ForecastShowsRain(init) {
        var i :| 0 <= i < |ps| && ps[i].Some? && ps[i].value > 0.0;
        assert i == |ps| - 1;
      }
    }
  }

  /** `totalPrecip > 0 ? totalPrecip : (currentRaining ? (precip_mm || 0.1) : 0)` */
  function DisplayTotal(total: real, raining: bool, precipNow: Option<real>): (r: real)
    ensures total > 0.0 ==> r == total
    ensures total <= 0.0 && raining ==> r == OrNumber(precipNow, MinScale)
    ensures total <= 0.0 && !raining ==> r == 0.0
  {
    if total > 0.0 then total else if raining then OrNumber(precipNow, MinScale) else 0.0
  }

  /** A bar's width in percent: `Math.max(precip / maxPrecip * 100, 5)`. */
  function BarWidth(p: real, maxPrecip: real): (r: real)
    requires maxPrecip >= MinScale
    ensures r >= 5.0
    ensures 0.0 <= p <= maxPrecip ==> r <= 100.0
  {
    var w := p / maxPrecip * 100.0;
    assert 0.0 <= p <= maxPrecip ==> p / maxPrecip <= 1.0;
    if w > 5.0 then w else 5.0
  }

  function StatusLabel(raining: bool, forecastShowsRain: bool): string {
    if raining then "Currently Raining" else if forecastShowsRain then "Rain Expected" else "Clear Skies"
  }

  /** The line under the status, with the same priority. */
  function StatusDetail(raining: bool, forecastShowsRain: bool): string {
    if raining then "Rain detected in your area" else if forecastShowsRain then "Next hour" else "No rain in next hour"
  }

  /** The word after "mm" under the total: "now" when the amount shown is the
      current one because the window is dry. */
  function TotalWord(raining: bool, forecastShowsRain: bool): string {
    if raining && !forecastShowsRain then "now" else "total"
  }

  /** A bar is highlighted (blue, with a drop) above 0.1 mm. */
  predicate Highlighted(precip: real) {
    precip > HighlightThreshold
  }

  // ---------------------------------------------------------------- the panel

  /** `precipData.minutely_15`: slot times and amounts. */
  datatype Minutely = Minutely(time: seq<int>, precipitation: seq<Option<real>>)

  datatype Slot = Slot(caption: string, precip: real, highlighted: bool)

  datatype RadarView =
    | Skeleton
    | Hidden
    | Panel(slots: seq<Slot>, maxPrecip: real, willRain: bool, displayTotal: real,
            status: string, detail: string, totalWord: string)

  /** One bar per windowed slot: its label, its amount (0 past the end of the
      amounts) and whether it is highlighted. */
  function Slots(times: seq<int>, precip: seq<Option<real>>): (r: seq<Slot>)
    ensures |r| == |times|
    ensures forall i :: 0 <= i < |r| ==>
              && r[i].caption == TimeLabel(times[i])
              && r[i].precip == (if i < |precip| then Amount(precip[i]) else 0.0)
              && (r[i].highlighted <==> r[i].precip > HighlightThreshold)
  {
    seq(|times|, i requires 0 <= i < |times| =>
      var p := if i < |precip| then Amount(precip[i]) else 0.0;
      Slot(TimeLabel(times[i]), p, Highlighted(p)))
  }

  /** What the component renders: the skeleton while loading, nothing without
      15-minute data, otherwise the window from the start slot. */
  function Radar(loading: bool, data: Option<Minutely>, weather: Option<Weather>, now: int): (v: RadarView)
    ensures v.Panel? ==> v.maxPrecip >= MinScale && |v.slots| <= WindowSize
  {
    if loading then Skeleton
    else
      match data
      case None => Hidden
      case Some(d) =>
        var start := StartSlot(d.time, now);
        var times, precip := Window(d.time, start), Window(d.precipitation, start);
        var slots := Slots(times, precip);
        var raining := IsCurrentlyRaining(weather);
        var showsRain := ForecastShowsRain(precip);
        var precipNow := if weather.Some? && weather.value.current.Some? then weather.value.current.value.precipMm else None;
        Panel(slots, MaxPrecip(precip), showsRain || raining,
              DisplayTotal(Total(precip), raining, precipNow), StatusLabel(raining, showsRain),
              StatusDetail(raining, showsRain), TotalWord(raining, showsRain))
  }

  /** The panel's flags: rain is shown when a windowed slot has some or it is
      raining now; the status puts current rain before expected rain. */
  lemma PanelFlags(data: Minutely, weather: Option<Weather>, now: int)
    ensures var v := Radar(false, Some(data), weather, now);
      var precip := Window(data.precipitation, StartSlot(data.time, now));
      && v.Panel?
      && (v.willRain <==> ForecastShowsRain(precip) || IsCurrentlyRaining(weather))
      && (v.status == "Currently Raining" <==> IsCurrentlyRaining(weather))
      && (v.status == "Rain Expected" <==> !IsCurrentlyRaining(weather) && ForecastShowsRain(precip))
      && (v.status == "Clear Skies" <==> !v.willRain)
      && (v.detail == "Rain detected in your area" <==> v.status == "Currently Raining")
      && (v.detail == "No rain in next hour" <==> v.status == "Clear Skies")
      && (v.totalWord == "now" <==> IsCurrentlyRaining(weather) && !ForecastShowsRain(precip))
  {
  }

  /** The window's slots are the consecutive slots from the start slot, with
      their labels and amounts (missing amounts are 0). */
  lemma PanelSlots(data: Minutely, weather: Option<Weather>, now: int)
    ensures var v := Radar(false, Some(data), weather, now);
      var start := StartSlot(data.time, now);
      && v.Panel?
      && |v.slots| == |Window(data.time, start)|
      && forall i :: 0 <= i < |v.slots| ==>
           && v.slots[i].caption == TimeLabel(data.time[start + i])
           && v.slots[i].precip == (if start + i < |data.precipitation| then Amount(data.precipitation[start + i]) else 0.0)
           && (v.slots[i].highlighted <==> v.slots[i].precip > HighlightThreshold)
  {
    var start := StartSlot(data.time, now);
    WindowSlots(data, start);
    assert Radar(false, Some(data), weather, now).slots == Slots(Window(data.time, start), Window(data.precipitation, start));
  }

  /** The bars of the window from start are the slots from start. */
  lemma WindowSlots(data: Minutely, start: nat)
    ensures var slots := Slots(Window(data.time, start), Window(data.precipitation, start));
      && |slots| == |Window(data.time, start)|
      && forall i :: 0 <= i < |slots| ==>
           && slots[i].caption == TimeLabel(data.time[start + i])
           && slots[i].precip == (if start + i < |data.precipitation| then Amount(data.precipitation[start + i]) else 0.0)
           && (slots[i].highlighted <==> slots[i].precip > HighlightThreshold)
  {
    var times, precip := Window(data.time, start), Window(data.precipitation, start);
    var slots := Slots(times, precip);
    forall i | 0 <= i < |slots|
      ensures slots[i].precip == (if start + i < |data.precipitation| then Amount(data.precipitation[start + i]) else 0.0)
    {
      if start + i < |data.precipitation| {
        assert precip[i] == data.precipitation[start + i];
      }
    }
  }

  // ---------------------------------------------------------------- where the weather comes from

  /** The keys of the weather context's value. */
  const ContextKeys: set<string> := {"currentWeather", "forecast", "loading", "error", "location", "units",
                                      "fetchWeatherData", "fetchWeatherByCoords", "refreshWeather", "changeUnits"}

  /** Reading a key of the context value for a current-conditions reply: only
      `currentWeather` holds one; a key the value lacks is undefined. */
  function ContextWeather(s: WeatherContext.SessionState, key: string): (r: Option<Weather>)
    ensures key !in ContextKeys ==> r.None?
    ensures key == "currentWeather" ==> r == s.currentWeather
  {
    if key == "currentWeather" then s.currentWeather else None
  }

  /** The component as written destructures `weather` from the context. */
  function RadarWeatherAsWritten(s: WeatherContext.SessionState): Option<Weather> {
    ContextWeather(s, "weather")
  }

  /** The reply the component evidently means: the session's current weather. */
  function RadarWeather(s: WeatherContext.SessionState): Option<Weather> {
    ContextWeather(s, "currentWeather")
  }

  /** As written, the radar never sees current rain: whatever the session holds,
      it is never "Currently Raining" and a dry forecast shows a total of 0. */
  lemma AsWrittenNeverRaining(s: WeatherContext.SessionState, data: Minutely, now: int)
    ensures !IsCurrentlyRaining(RadarWeatherAsWritten(s))
    ensures Radar(false, Some(data), RadarWeatherAsWritten(s), now).status != "Currently Raining"
  {
    assert "weather" !in ContextKeys;
  }

  /** A session showing "Heavy Rain" with an all-dry window: as written the radar
      says "Clear Skies" with total 0; reading the current weather it says
      "Currently Raining" with the fallback total 0.1. */
  lemma RainMissedExample(s: WeatherContext.SessionState, w: Weather, c: Current, now: int)
    requires s.currentWeather == Some(w) && w.current == Some(c)
    requires c.conditionText == Some("Heavy Rain") && c.precipMm.None?
    ensures Radar(false, Some(Minutely([now], [Some(0.0)])), RadarWeatherAsWritten(s), now) ==
            Panel([Slot(TimeLabel(now), 0.0, false)], MinScale, false, 0.0, "Clear Skies", "No rain in next hour", "total")
    ensures Radar(false, Some(Minutely([now], [Some(0.0)])), RadarWeather(s), now) ==
            Panel([Slot(TimeLabel(now), 0.0, false)], MinScale, true, MinScale, "Currently Raining",
                  "Rain detected in your area", "now")
  {
    RainExamples(w, c);
    assert "weather" !in ContextKeys;
    DryWindowPanel(RadarWeatherAsWritten(s), now);
    DryWindowPanel(RadarWeather(s), now);
  }

  /** A single dry slot at now: the panel depends on the weather only through
      whether it is raining and its current precipitation. */
  lemma DryWindowPanel(weather: Option<Weather>, now: int)
    ensures var raining := IsCurrentlyRaining(weather);
      var precipNow := if weather.Some? && weather.value.current.Some? then weather.value.current.value.precipMm else None;
      Radar(false, Some(Minutely([now], [Some(0.0)])), weather, now) ==
      Panel([Slot(TimeLabel(now), 0.0, false)], MinScale, raining, DisplayTotal(0.0, raining, precipNow),
            StatusLabel(raining, false), StatusDetail(raining, false), TotalWord(raining, false))
  {
    var ps: seq<Option<real>> := [Some(0.0)];
    assert Window(ps, 0) == ps;
    assert Window([now], 0) == [now];
    assert StartSlot([now], now) == 0;
    assert !ForecastShowsRain(ps);
    assert Total(ps) == Total([]) + 0.0;
    var slots := Slots([now], ps);
    assert slots[0] == Slot(TimeLabel(now), 0.0, false);
    assert slots == [Slot(TimeLabel(now), 0.0, false)];
  }
}
