/** The part of JSON.stringify / JSON.parse the store relies on: location records
    and lists of them are written as JSON text and read back. Reading is strict: any
    text that is not in the form this module writes counts as corrupt (`None`),
    which is where JSON.parse would throw. */
module JsonCodec {
  import opened Wrappers
  import opened Payloads
  import Text

  // ---------------------------------------------------------------- writing

  function EscapeChar(c: char): string {
    if c == '"' || c == '\\' then ['\\', c] else [c]
  }

  /** The body of a JSON string literal for s: quotes and backslashes escaped. */
  function Escape(s: string): string
    decreases |s|
  {
    if s == [] then [] else EscapeChar(s[0]) + Escape(s[1..])
  }

  function Quote(s: string): string {
    "\"" + Escape(s) + "\""
  }

  const NameLead := "{\"name\":\""
  const RegionLead := ",\"region\":\""
  const CountryLead := ",\"country\":\""
  const StationLead := ",\"stationName\":\""

  /** A property: its lead-in (up to the opening quote), the escaped value and the
      closing quote. */
  function Field(lead: string, v: string): string {
    lead + Escape(v) + "\""
  }

  function StationField(stationName: Option<string>): string {
    match stationName
    case None => ""
    case Some(n) => Field(StationLead, n)
  }

  /** JSON.stringify of a location record (properties in insertion order). */
  function EncodeLocation(l: Location): (r: string)
    ensures |r| > 0 && r[0] == '{'
  {
    Field(NameLead, l.name) + (Field(RegionLead, l.region) +
    (Field(CountryLead, l.country) + (StationField(l.stationName) + "}")))
  }

  function EncodeItems(xs: seq<Location>): string
    decreases |xs|
  {
    if |xs| == 0 then ""
    else if |xs| == 1 then EncodeLocation(xs[0])
    else EncodeLocation(xs[0]) + "," + EncodeItems(xs[1..])
  }

  /** JSON.stringify of an array of location records. */
  function EncodeLocations(xs: seq<Location>): (r: string)
    ensures |r| > 0 && r[0] == '['
  {
    "[" + EncodeItems(xs) + "]"
  }

  // ---------------------------------------------------------------- reading

  /** Consumes the literal `lit` at the front of s. */
  function Expect(lit: string, s: string): (r: Option<string>)
    ensures r.Some? ==> |r.value| == |s| - |lit|
  {
    if Text.StartsWith(s, lit) then Some(s[|lit|..]) else None
  }

  /** Reads the rest of a string literal after its opening quote; returns its
      value and the text after the closing quote. */
  function ReadString(s: string): (r: Option<(string, string)>)
    ensures r.Some? ==> |r.value.1| < |s|
    decreases |s|
  {
    if |s| == 0 then None
    else if s[0] == '"' then Some(([], s[1..]))
    else if s[0] == '\\' then
      if |s| >= 2 && (s[1] == '"' || s[1] == '\\') then
        var p :- ReadString(s[2..]);
        Some(([s[1]] + p.0, p.1))
      else None
    else
      var p :- ReadString(s[1..]);
      Some(([s[0]] + p.0, p.1))
  }

  /** Reads one property written by Field. */
  function ReadField(lead: string, s: string): (r: Option<(string, string)>)
    ensures r.Some? ==> |r.value.1| < |s|
  {
    var a :- Expect(lead, s);
    ReadString(a)
  }

  function ReadLocation(s: string): (r: Option<(Location, string)>)
    ensures r.Some? ==> |r.value.1| < |s|
  {
    var n :- ReadField(NameLead, s);
    var g :- ReadField(RegionLead, n.1);
    var k :- ReadField(CountryLead, g.1);
    if Text.StartsWith(k.1, "}") then
      Some((Location(n.0, g.0, k.0, None), k.1[1..]))
    else
      var t :- ReadField(StationLead, k.1);
      var e :- Expect("}", t.1);
      Some((Location(n.0, g.0, k.0, Some(t.0)), e))
  }

  /** Reads `loc, loc, ..., loc]` and returns the text after the bracket. */
  function ReadItems(s: string): (r: Option<(seq<Location>, string)>)
    ensures r.Some? ==> |r.value.1| < |s|
    decreases |s|
  {
    var first :- ReadLocation(s);
    if Text.StartsWith(first.1, ",") then
      var more :- ReadItems(first.1[1..]);
      Some(([first.0] + more.0, more.1))
    else
      var after :- Expect("]", first.1);
      Some(([first.0], after))
  }

  /** JSON.parse of a stored list; None where JSON.parse would throw. */
  function DecodeLocations(s: string): Option<seq<Location>> {
    var a :- Expect("[", s);
    if Text.StartsWith(a, "]") then
      if a == "]" then Some([]) else None
    else
      var p :- ReadItems(a);
      if p.1 == [] then Some(p.0) else None
  }

  /** JSON.parse of a stored record; None where JSON.parse would throw. */
  function DecodeLocation(s: string): Option<Location> {
    var p :- ReadLocation(s);
    if p.1 == [] then Some(p.0) else None
  }

  // ---------------------------------------------------------------- round trips

  lemma ExpectLiteral(lit: string, rest: string)
    ensures Expect(lit, lit + rest) == Some(rest)
  {
    assert (lit + rest)[..|lit|] == lit;
    assert (lit + rest)[|lit|..] == rest;
  }

  lemma {:induction false} ReadStringRoundTrip(s: string, rest: string)
    ensures ReadString(Escape(s) + "\"" + rest) == Some((s, rest))
    decreases |s|
  {
    if s == [] {
      assert Escape(s) + "\"" + rest == "\"" + rest;
      assert ("\"" + rest)[1..] == rest;
    } else {
      var tail := Escape(s[1..]) + "\"" + rest;
      ReadStringRoundTrip(s[1..], rest);
      assert Escape(s) + "\"" + rest == EscapeChar(s[0]) + tail;
      var w := EscapeChar(s[0]) + tail;
      if s[0] == '"' || s[0] == '\\' {
        assert w[0] == '\\' && w[1] == s[0] && w[2..] == tail;
        assert [s[0]] + s[1..] == s;
      } else {
        assert w[0] == s[0] && w[1..] == tail;
        assert [s[0]] + s[1..] == s;
      }
    }
  }

  lemma ReadFieldRoundTrip(lead: string, v: string, rest: string)
    ensures ReadField(lead, Field(lead, v) + rest) == Some((v, rest))
  {
    assert Field(lead, v) + rest == lead + (Escape(v) + "\"" + rest);
    ExpectLiteral(lead, Escape(v) + "\"" + rest);
    ReadStringRoundTrip(v, rest);
  }

  lemma ReadLocationRoundTrip(l: Location, rest: string)
    ensures ReadLocation(EncodeLocation(l) + rest) == Some((l, rest))
  {
    var tail := StationField(l.stationName) + ("}" + rest);
    var afterRegion := Field(CountryLead, l.country) + tail;
    var afterName := Field(RegionLead, l.region) + afterRegion;
    assert EncodeLocation(l) + rest == Field(NameLead, l.name) + afterName;
    ReadFieldRoundTrip(NameLead, l.name, afterName);
    ReadFieldRoundTrip(RegionLead, l.region, afterRegion);
    ReadFieldRoundTrip(CountryLead, l.country, tail);
    match l.stationName
    case None =>
      assert tail == "}" + rest;
      assert Text.StartsWith(tail, "}");
      assert tail[1..] == rest;
    case Some(t) =>
      assert tail == Field(StationLead, t) + ("}" + rest);
      assert tail[0] == ',';
      assert !Text.StartsWith(tail, "}");
      ReadFieldRoundTrip(StationLead, t, "}" + rest);
      ExpectLiteral("}", rest);
  }

  /** ReadItems after a record that ReadLocation reads as `(x, after)`. */
  lemma ReadItemsStep(s: string, x: Location, after: string)
    requires ReadLocation(s) == Some((x, after))
    ensures Text.StartsWith(after, ",") ==>
              ReadItems(s) == (var more :- ReadItems(after[1..]); Some(([x] + more.0, more.1)))
    ensures !Text.StartsWith(after, ",") ==>
              ReadItems(s) == (var e :- Expect("]", after); Some(([x], e)))
  {
  }

  lemma ReadLastItem(x: Location, rest: string)
    ensures ReadItems(EncodeLocation(x) + ("]" + rest)) == Some(([x], rest))
  {
    var s := EncodeLocation(x) + ("]" + rest);
    ReadLocationRoundTrip(x, "]" + rest);
    ReadItemsStep(s, x, "]" + rest);
    assert ("]" + rest)[0] == ']';
    ExpectLiteral("]", rest);
  }

  lemma ReadNextItem(x: Location, more: string)
    ensures ReadItems(EncodeLocation(x) + ("," + more)) ==
            (var m :- ReadItems(more); Some(([x] + m.0, m.1)))
  {
    var s := EncodeLocation(x) + ("," + more);
    ReadLocationRoundTrip(x, "," + more);
    ReadItemsStep(s, x, "," + more);
    assert Text.StartsWith("," + more, ",") && ("," + more)[1..] == more;
  }

  lemma {:induction false} ReadItemsRoundTrip(xs: seq<Location>, rest: string)
    requires |xs| > 0
    ensures ReadItems(EncodeItems(xs) + "]" + rest) == Some((xs, rest))
    decreases |xs|
  {
    if |xs| == 1 {
      ReadOneItem(xs, rest);
    } else {
      ReadItemsRoundTrip(xs[1..], rest);
      ReadConsItems(xs, rest);
    }
  }

  /** A one-record list followed by the closing bracket. */
  lemma ReadOneItem(xs: seq<Location>, rest: string)
    requires |xs| == 1
    ensures ReadItems(EncodeItems(xs) + "]" + rest) == Some((xs, rest))
  {
    assert EncodeItems(xs) == EncodeLocation(xs[0]);
    RegroupLast(EncodeLocation(xs[0]), rest);
    ReadLastItem(xs[0], rest);
    assert [xs[0]] == xs;
  }

  /** A longer list reads as its first record followed by the rest of the list. */
  lemma ReadConsItems(xs: seq<Location>, rest: string)
    requires |xs| > 1
    requires ReadItems(EncodeItems(xs[1..]) + "]" + rest) == Some((xs[1..], rest))
    ensures ReadItems(EncodeItems(xs) + "]" + rest) == Some((xs, rest))
  {
    ItemsLayout(xs, rest);
    ReadNextItem(xs[0], EncodeItems(xs[1..]) + "]" + rest);
    assert [xs[0]] + xs[1..] == xs;
  }

  /** `a]c` read as `a` followed by `]c`. */
  lemma RegroupLast(a: string, c: string)
    ensures a + "]" + c == a + ("]" + c)
  {
  }

  /** A list of two or more records is the first record, a comma and the rest. */
  lemma ItemsLayout(xs: seq<Location>, rest: string)
    requires |xs| > 1
    ensures EncodeItems(xs) + "]" + rest == EncodeLocation(xs[0]) + ("," + (EncodeItems(xs[1..]) + "]" + rest))
  {
    assert EncodeItems(xs) == EncodeLocation(xs[0]) + "," + EncodeItems(xs[1..]);
    Regroup(EncodeLocation(xs[0]), EncodeItems(xs[1..]), rest);
  }

  /** `a,b]c` read as `a` followed by `,b]c`. */
  lemma Regroup(a: string, b: string, c: string)
    ensures a + "," + b + "]" + c == a + ("," + (b + "]" + c))
  {
  }

  lemma DecodeStep(body: string)
    ensures DecodeLocations("[" + body) ==
            if Text.StartsWith(body, "]") then (if body == "]" then Some([]) else None)
            else (var p :- ReadItems(body); if p.1 == [] then Some(p.0) else None)
  {
    ExpectLiteral("[", body);
  }

  /** Whatever list the store writes, it reads back unchanged. */
  lemma LocationsRoundTrip(xs: seq<Location>)
    ensures DecodeLocations(EncodeLocations(xs)) == Some(xs)
  {
    var body := EncodeItems(xs) + "]";
    assert EncodeLocations(xs) == "[" + body;
    DecodeStep(body);
    if |xs| == 0 {
      assert body == "]";
    } else {
      assert body[0] == EncodeItems(xs)[0] == EncodeLocation(xs[0])[0] == '{';
      assert !Text.StartsWith(body, "]");
      ReadItemsRoundTrip(xs, []);
      assert EncodeItems(xs) + "]" + [] == body;
    }
  }

  /** Whatever record the store writes, it reads back unchanged. */
  lemma LocationRoundTrip(l: Location)
    ensures DecodeLocation(EncodeLocation(l)) == Some(l)
  {
    ReadLocationRoundTrip(l, []);
    assert EncodeLocation(l) + [] == EncodeLocation(l);
  }
}
