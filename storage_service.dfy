/** src/services/storageService.js: the browser's key/value store under five keys.
    Recent searches are a most-recent-first list of at most five locations with
    unique names, favourites a list deduplicated by name, plus the last location,
    the theme and the unit system. Lists and records are stored as JSON text;
    text that does not read back counts as corrupt and the getters fall back to
    their defaults. */
module StorageService {
  import opened Wrappers
  import opened Payloads
  import JsonCodec

  const RecentSearchesKey := "weather_recent_searches"
  const FavoritesKey := "weather_favorites"
  const LastLocationKey := "weather_last_location"
  const ThemeKey := "weather_theme"
  const UnitsKey := "weather_units"

  const MaxRecent := 5

  // ---------------------------------------------------------------- lists by name

  predicate HasName(xs: seq<Location>, name: string) {
    exists i :: 0 <= i < |xs| && xs[i].name == name
  }

  /** a is a subsequence of b: b with some entries dropped, order kept. */
  predicate IsSubsequence(a: seq<Location>, b: seq<Location>)
    decreases |b|
  {
    if a == [] then true
    else if b == [] then false
    else (a[0] == b[0] && IsSubsequence(a[1..], b[1..])) || IsSubsequence(a, b[1..])
  }

  /** The entries of xs that have the name, with their multiplicities. */
  function NamedCopies(xs: seq<Location>, name: string): (m: multiset<Location>)
    ensures forall x :: x in m ==> x.name == name
    decreases |xs|
  {
    if xs == [] then multiset{}
    else
      (if xs[0].name == name then multiset{xs[0]} else multiset{}) + NamedCopies(xs[1..], name)
  }

  /** `filter(s => s.name !== name)` */
  function WithoutName(xs: seq<Location>, name: string): (r: seq<Location>)
    ensures |r| <= |xs|
    ensures forall i :: 0 <= i < |r| ==> r[i].name != name
    ensures forall x :: x in xs && x.name != name ==> x in r
    ensures forall x :: x in r ==> x in xs
    ensures IsSubsequence(r, xs)
    ensures multiset(r) + NamedCopies(xs, name) == multiset(xs)
    decreases |xs|
  {
    if xs == [] then []
    else
      var rest := WithoutName(xs[1..], name);
      assert xs == [xs[0]] + xs[1..];
      assert multiset(xs) == multiset{xs[0]} + multiset(xs[1..]);
      if xs[0].name == name then rest
      else
        assert multiset([xs[0]] + rest) == multiset{xs[0]} + multiset(rest);
        [xs[0]] + rest
  }

  /** The list addRecentSearch writes: the new location first, then the older
      entries with other names, cut to five. */
  function PushRecent(xs: seq<Location>, loc: Location): (r: seq<Location>)
  {
    var updated := [loc] + WithoutName(xs, loc.name);
    if |updated| <= MaxRecent then updated else updated[..MaxRecent]
  }

  /** The list addFavorite leaves: appended only when no favourite has the name. */
  function WithFavorite(xs: seq<Location>, loc: Location): (r: seq<Location>)
  {
    if HasName(xs, loc.name) then xs else xs + [loc]
  }

  // ---------------------------------------------------------------- reading raw values

  /** The list getters: [] for a missing value, "", "undefined" or text that is
      not a stored list. */
  function ReadList(raw: Option<string>): (r: seq<Location>)
    ensures raw.None? || raw.value == "" || raw.value == "undefined" ==> r == []
    ensures raw.Some? && JsonCodec.DecodeLocations(raw.value).None? ==> r == []
    ensures raw.Some? && raw.value != "" && raw.value != "undefined" && JsonCodec.DecodeLocations(raw.value).Some? ==>
              r == JsonCodec.DecodeLocations(raw.value).value
  {
    match raw
    case None => []
    case Some(s) =>
      if s == "" || s == "undefined" then []
      else JsonCodec.DecodeLocations(s).GetOr([])
  }

  /** getLastLocation: null for a missing value, "", "undefined", "null" or text
      that is not a stored record. */
  function ReadLocation(raw: Option<string>): (r: Option<Location>)
    ensures raw.None? || raw.value == "" || raw.value == "undefined" || raw.value == "null" ==> r.None?
    ensures raw.Some? && JsonCodec.DecodeLocation(raw.value).None? ==> r.None?
    ensures raw.Some? && raw.value != "" && raw.value != "undefined" && raw.value != "null" ==>
              r == JsonCodec.DecodeLocation(raw.value)
  {
    match raw
    case None => None
    case Some(s) =>
      if s == "" || s == "undefined" || s == "null" then None
      else JsonCodec.DecodeLocation(s)
  }

  /** JSON.stringify of the last location; an undefined location is written as
      the text "undefined" by setItem. */
  function WriteLocation(loc: Option<Location>): string {
    match loc
    case None => "undefined"
    case Some(l) => JsonCodec.EncodeLocation(l)
  }

  /** `getItem(key) || fallback` */
  function ReadScalar(raw: Option<string>, fallback: string): (r: string)
    ensures raw.None? || raw.value == "" ==> r == fallback
    ensures raw.Some? && raw.value != "" ==> r == raw.value
  {
    match raw
    case None => fallback
    case Some(s) => if s == "" then fallback else s
  }

  // ---------------------------------------------------------------- the store

  class Storage {
    /** localStorage: key to stored text. */
    var items: map<string, string>

    constructor(initial: map<string, string>)
      ensures items == initial
    {
      items := initial;
    }

    /** localStorage.getItem: the stored text, or null for a missing key. */
    function Raw(key: string): (r: Option<string>)
      reads this
      ensures r.Some? <==> key in items
      ensures r.Some? ==> r.value == items[key]
    {
      if key in items then Some(items[key]) else None
    }

    /** getRecentSearches: [] unless the key holds a list the store wrote. */
    function RecentSearches(): (r: seq<Location>)
      reads this
      ensures RecentSearchesKey !in items ==> r == []
      ensures RecentSearchesKey in items && JsonCodec.DecodeLocations(items[RecentSearchesKey]).None? ==> r == []
      ensures RecentSearchesKey in items && items[RecentSearchesKey] != "undefined" &&
              JsonCodec.DecodeLocations(items[RecentSearchesKey]).Some? ==>
                r == JsonCodec.DecodeLocations(items[RecentSearchesKey]).value
    {
      ReadList(Raw(RecentSearchesKey))
    }

    /** getFavorites: [] unless the key holds a list the store wrote. */
    function Favorites(): (r: seq<Location>)
      reads this
      ensures FavoritesKey !in items ==> r == []
      ensures FavoritesKey in items && JsonCodec.DecodeLocations(items[FavoritesKey]).None? ==> r == []
      ensures FavoritesKey in items && items[FavoritesKey] != "undefined" &&
              JsonCodec.DecodeLocations(items[FavoritesKey]).Some? ==>
                r == JsonCodec.DecodeLocations(items[FavoritesKey]).value
    {
      ReadList(Raw(FavoritesKey))
    }

    /** isFavorite: `some(f => f.name === name)` over getFavorites. */
    predicate IsFavorite(name: string)
      reads this
      ensures IsFavorite(name) <==> exists f :: f in Favorites() && f.name == name
    {
      HasName(Favorites(), name)
    }

    /** getLastLocation: null unless the key holds a record the store wrote. */
    function LastLocation(): (r: Option<Location>)
      reads this
      ensures LastLocationKey !in items ==> r.None?
      ensures LastLocationKey in items && JsonCodec.DecodeLocation(items[LastLocationKey]).None? ==> r.None?
      ensures LastLocationKey in items && items[LastLocationKey] != "undefined" && items[LastLocationKey] != "null" ==>
                r == JsonCodec.DecodeLocation(items[LastLocationKey])
    {
      ReadLocation(Raw(LastLocationKey))
    }

    /** getTheme: the stored theme, "light" when missing or empty. */
    function Theme(): (r: string)
      reads this
      ensures r != ""
      ensures ThemeKey in items && items[ThemeKey] != "" ==> r == items[ThemeKey]
      ensures ThemeKey !in items || items[ThemeKey] == "" ==> r == "light"
    {
      ReadScalar(Raw(ThemeKey), "light")
    }

    /** getUnits: the stored units, "metric" when missing or empty. */
    function Units(): (r: string)
      reads this
      ensures r != ""
      ensures UnitsKey in items && items[UnitsKey] != "" ==> r == items[UnitsKey]
      ensures UnitsKey !in items || items[UnitsKey] == "" ==> r == "metric"
    {
      ReadScalar(Raw(UnitsKey), "metric")
    }

    method AddRecentSearch(loc: Location)
      modifies this
      ensures items == old(items)[RecentSearchesKey := JsonCodec.EncodeLocations(PushRecent(old(RecentSearches()), loc))]
      ensures RecentSearches() == PushRecent(old(RecentSearches()), loc)
      ensures Favorites() == old(Favorites()) && LastLocation() == old(LastLocation())
      ensures Theme() == old(Theme()) && Units() == old(Units())
    {
      var updated := PushRecent(RecentSearches(), loc);
      items := items[RecentSearchesKey := JsonCodec.EncodeLocations(updated)];
      JsonCodec.LocationsRoundTrip(updated);
    }

    /** Writes only when the name is new; otherwise the store is untouched. */
    method AddFavorite(loc: Location)
      modifies this
      ensures HasName(old(Favorites()), loc.name) ==> items == old(items)
      ensures !HasName(old(Favorites()), loc.name) ==>
                items == old(items)[FavoritesKey := JsonCodec.EncodeLocations(old(Favorites()) + [loc])]
      ensures Favorites() == WithFavorite(old(Favorites()), loc)
      ensures RecentSearches() == old(RecentSearches()) && LastLocation() == old(LastLocation())
      ensures Theme() == old(Theme()) && Units() == old(Units())
    {
      var favorites := Favorites();
      if !HasName(favorites, loc.name) {
        favorites := favorites + [loc];
        items := items[FavoritesKey := JsonCodec.EncodeLocations(favorites)];
        JsonCodec.LocationsRoundTrip(favorites);
      }
    }

    method RemoveFavorite(name: string)
      modifies this
      ensures items == old(items)[FavoritesKey := JsonCodec.EncodeLocations(WithoutName(old(Favorites()), name))]
      ensures Favorites() == WithoutName(old(Favorites()), name)
      ensures !IsFavorite(name)
      ensures RecentSearches() == old(RecentSearches()) && LastLocation() == old(LastLocation())
      ensures Theme() == old(Theme()) && Units() == old(Units())
    {
      var updated := WithoutName(Favorites(), name);
      items := items[FavoritesKey := JsonCodec.EncodeLocations(updated)];
      JsonCodec.LocationsRoundTrip(updated);
    }

    method SetLastLocation(loc: Option<Location>)
      modifies this
      ensures items == old(items)[LastLocationKey := WriteLocation(loc)]
      ensures LastLocation() == loc
      ensures RecentSearches() == old(RecentSearches()) && Favorites() == old(Favorites())
      ensures Theme() == old(Theme()) && Units() == old(Units())
    {
      items := items[LastLocationKey := WriteLocation(loc)];
      LastLocationRoundTrip(loc);
    }

    method SetTheme(theme: string)
      modifies this
      ensures items == old(items)[ThemeKey := theme]
      ensures theme != "" ==> Theme() == theme
      ensures theme == "" ==> Theme() == "light"
      ensures RecentSearches() == old(RecentSearches()) && Favorites() == old(Favorites())
      ensures LastLocation() == old(LastLocation()) && Units() == old(Units())
    {
      items := items[ThemeKey := theme];
    }

    method SetUnits(units: string)
      modifies this
      ensures items == old(items)[UnitsKey := units]
      ensures units != "" ==> Units() == units
      ensures units == "" ==> Units() == "metric"
      ensures RecentSearches() == old(RecentSearches()) && Favorites() == old(Favorites())
      ensures LastLocation() == old(LastLocation()) && Theme() == old(Theme())
    {
      items := items[UnitsKey := units];
    }
  }

  // ---------------------------------------------------------------- properties

  /** Every list the store writes reads back as that list. */
  lemma ListRoundTrip(xs: seq<Location>)
    ensures ReadList(Some(JsonCodec.EncodeLocations(xs))) == xs
  {
    JsonCodec.LocationsRoundTrip(xs);
  }

  /** setLastLocation then getLastLocation gives back the location (an undefined
      one reads back as null). */
  lemma LastLocationRoundTrip(loc: Option<Location>)
    ensures ReadLocation(Some(WriteLocation(loc))) == loc
  {
    match loc
    case None =>
    case Some(l) =>
      JsonCodec.LocationRoundTrip(l);
      var s := JsonCodec.EncodeLocation(l);
      assert s[0] == '{';
      assert s != "undefined" && s != "null" && s != "";
  }

  /** A prefix of a subsequence is again a subsequence. */
  lemma {:induction false} SubsequencePrefix(a: seq<Location>, b: seq<Location>, n: nat)
    requires IsSubsequence(a, b) && n <= |a|
    ensures IsSubsequence(a[..n], b)
    decreases |b|
  {
    if n == 0 || a == [] {
    } else if a[0] == b[0] && IsSubsequence(a[1..], b[1..]) {
      SubsequencePrefix(a[1..], b[1..], n - 1);
      assert a[..n][1..] == a[1..][..n - 1];
    } else {
      SubsequencePrefix(a, b[1..], n);
    }
  }

  /** addRecentSearch's list: at most five entries, the new location first, no
      later entry with its name, and the rest are older entries in their old
      order; nothing with another name is lost unless the cut to five drops it. */
  lemma PushRecentShape(xs: seq<Location>, loc: Location)
    ensures var r := PushRecent(xs, loc);
      && 1 <= |r| <= MaxRecent
      && r[0] == loc
      && (forall i :: 1 <= i < |r| ==> r[i].name != loc.name)
      && IsSubsequence(r[1..], xs)
      && |r| == if 1 + |WithoutName(xs, loc.name)| <= MaxRecent then 1 + |WithoutName(xs, loc.name)| else MaxRecent
  {
    var w := WithoutName(xs, loc.name);
    var r := PushRecent(xs, loc);
    var updated := [loc] + w;
    assert updated[1..] == w;
    if |updated| > MaxRecent {
      assert r[1..] == w[..MaxRecent - 1];
      SubsequencePrefix(w, xs, MaxRecent - 1);
    }
  }

  /** Filtering a list that has no entry with the name leaves it as it is. */
  lemma {:induction false} WithoutAbsentName(xs: seq<Location>, name: string)
    requires forall i :: 0 <= i < |xs| ==> xs[i].name != name
    ensures WithoutName(xs, name) == xs
    decreases |xs|
  {
    if xs != [] {
      WithoutAbsentName(xs[1..], name);
      assert [xs[0]] + xs[1..] == xs;
    }
  }

  /** Searching the same place twice in a row records it once. */
  lemma PushRecentIdempotent(xs: seq<Location>, loc: Location)
    ensures PushRecent(PushRecent(xs, loc), loc) == PushRecent(xs, loc)
  {
    var r := PushRecent(xs, loc);
    PushRecentShape(xs, loc);
    assert r == [r[0]] + r[1..];
    WithoutAbsentName(r[1..], loc.name);
    assert WithoutName(r, loc.name) == r[1..];
  }

  /** addFavorite: the name is a favourite afterwards, the old list is kept as a
      prefix, adding the same name again changes nothing, and the list grows by
      at most one. */
  lemma WithFavoriteShape(xs: seq<Location>, loc: Location)
    ensures HasName(WithFavorite(xs, loc), loc.name)
    ensures WithFavorite(xs, loc)[..|xs|] == xs
    ensures |xs| <= |WithFavorite(xs, loc)| <= |xs| + 1
    ensures WithFavorite(WithFavorite(xs, loc), loc) == WithFavorite(xs, loc)
  {
    if !HasName(xs, loc.name) {
      var r := xs + [loc];
      assert r[|xs|].name == loc.name;
    }
  }

  /** removeFavorite: the name is gone and every other favourite stays, in order. */
  lemma WithoutNameShape(xs: seq<Location>, name: string)
    ensures !HasName(WithoutName(xs, name), name)
    ensures forall x :: x in xs && x.name != name ==> x in WithoutName(xs, name)
    ensures IsSubsequence(WithoutName(xs, name), xs)
  {
  }
}
