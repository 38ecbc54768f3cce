/** src/hooks/useGooglePlaces.js: the loaded flag and service handles of the
    Places hook, and the guards and result selection of its three calls. The
    provider's replies (status and payload) are inputs; each call reports whether
    it reached the provider at all. */
module GooglePlaces {
  import opened Wrappers
  import opened Payloads

  /** PlacesServiceStatus.OK, and the geocoder's "OK". */
  const StatusOk := "OK"

  /** The outcome of a hook call: whether a provider request was issued, and the
      value the promise resolves with. */
  datatype Call<T> = Call(requested: bool, value: T)

  class PlacesHook {
    var isLoaded: bool
    var autocompleteReady: bool
    var placesReady: bool

    /** The flag and both services are set together. */
    predicate Consistent()
      reads this
    {
      isLoaded == autocompleteReady == placesReady
    }

    constructor()
      ensures !isLoaded && !autocompleteReady && !placesReady
      ensures Consistent()
    {
      isLoaded := false;
      autocompleteReady := false;
      placesReady := false;
    }

    /** The mount effect: with the Places library already on the page the hook is
        ready at once; otherwise a script is injected and nothing changes yet. */
    method Mount(libraryPresent: bool)
      modifies this
      ensures libraryPresent ==> isLoaded && autocompleteReady && placesReady
      ensures !libraryPresent ==> isLoaded == old(isLoaded) && autocompleteReady == old(autocompleteReady) && placesReady == old(placesReady)
      ensures old(Consistent()) ==> Consistent()
    {
      if libraryPresent {
        isLoaded := true;
        autocompleteReady := true;
        placesReady := true;
      }
    }

    /** The injected script's onload handler. */
    method ScriptLoaded()
      modifies this
      ensures isLoaded && autocompleteReady && placesReady
      ensures Consistent()
    {
      isLoaded := true;
      autocompleteReady := true;
      placesReady := true;
    }
  }

  /** searchPlaces: no request without a service or with empty input; the
      predictions only on OK with a non-null list, [] otherwise. */
  function SearchPlaces(serviceReady: bool, input: string, status: string, predictions: Option<seq<Prediction>>): (r: Call<seq<Prediction>>)
    ensures r.requested <==> serviceReady && input != ""
    ensures !r.requested ==> r.value == []
    ensures r.value != [] ==> status == StatusOk && predictions == Some(r.value)
    ensures r.requested && status == StatusOk && predictions.Some? ==> r.value == predictions.value
  {
    if !serviceReady || input == "" then Call(false, [])
    else if status == StatusOk && predictions.Some? then Call(true, predictions.value)
    else Call(true, [])
  }

  /** getPlaceDetails: null without a service or with a falsy place id; the place
      only on OK with a non-null place. */
  function GetPlaceDetails(serviceReady: bool, placeId: Option<string>, status: string, place: Option<PlaceDetails>): (r: Call<Option<PlaceDetails>>)
    ensures r.requested <==> serviceReady && placeId.Some? && placeId.value != ""
    ensures r.value.Some? <==> r.requested && status == StatusOk && place.Some?
    ensures r.value.Some? ==> r.value == place
  {
    if !serviceReady || placeId.None? || placeId.value == "" then Call(false, None)
    else if status == StatusOk && place.Some? then Call(true, place)
    else Call(true, None)
  }

  // ---------------------------------------------------------------- reverse geocoding

  /** One geocoder result: its types, the long names of its address components,
      and its formatted address. */
  datatype GeocodeResult = GeocodeResult(types: seq<string>, longNames: seq<string>, formattedAddress: string)

  /** reverseGeocode's answer; lat and lng are the query's own. */
  datatype Geocoded = Geocoded(name: string, formattedAddress: string, lat: real, lng: real)

  predicate Preferred(r: GeocodeResult) {
    "locality" in r.types || "sublocality" in r.types || "neighborhood" in r.types
  }

  /** results.find(Preferred), from index `from` on. */
  function FindPreferred(results: seq<GeocodeResult>, from: nat := 0): (r: Option<nat>)
    requires from <= |results|
    ensures r.Some? ==> from <= r.value < |results| && Preferred(results[r.value])
    ensures r.Some? ==> forall j :: from <= j < r.value ==> !Preferred(results[j])
    ensures r.None? ==> forall j :: from <= j < |results| ==> !Preferred(results[j])
    decreases |results| - from
  {
    if from == |results| then None
    else if Preferred(results[from]) then Some(from)
    else FindPreferred(results, from + 1)
  }

  /** The chosen result: the first preferred one, else the first. */
  function BestResult(results: seq<GeocodeResult>): (r: GeocodeResult)
    requires |results| > 0
    ensures r in results
  {
    match FindPreferred(results)
    case Some(k) => results[k]
    case None => results[0]
  }

  /** `address_components[0]?.long_name || formatted_address` */
  function ResultName(r: GeocodeResult): (n: string)
    ensures |r.longNames| > 0 && r.longNames[0] != "" ==> n == r.longNames[0]
    ensures |r.longNames| == 0 || r.longNames[0] == "" ==> n == r.formattedAddress
  {
    if |r.longNames| > 0 && r.longNames[0] != "" then r.longNames[0] else r.formattedAddress
  }

  /** reverseGeocode: null before the library is loaded, and for a status other
      than OK or no results; otherwise the chosen result's name and address with
      the query's coordinates. */
  function ReverseGeocode(isLoaded: bool, lat: real, lng: real, status: string, results: Option<seq<GeocodeResult>>): (r: Call<Option<Geocoded>>)
    ensures r.requested <==> isLoaded
    ensures r.value.Some? <==> isLoaded && status == StatusOk && results.Some? && |results.value| > 0
    ensures r.value.Some? ==> r.value.value.lat == lat && r.value.value.lng == lng
    ensures r.value.Some? ==> r.value.value.name == ResultName(BestResult(results.value))
  {
    if !isLoaded then Call(false, None)
    else if status == StatusOk && results.Some? && |results.value| > 0 then
      var best := BestResult(results.value);
      Call(true, Some(Geocoded(ResultName(best), best.formattedAddress, lat, lng)))
    else Call(true, None)
  }

  /** The chosen result is preferred whenever any result is, and then it is the
      first preferred one; with none preferred it is the first result. */
  lemma BestResultChoice(results: seq<GeocodeResult>)
    requires |results| > 0
    ensures (exists j :: 0 <= j < |results| && Preferred(results[j])) ==> Preferred(BestResult(results))
    ensures forall k :: 0 <= k < |results| && Preferred(results[k]) && (forall j :: 0 <= j < k ==> !Preferred(results[j])) ==>
              BestResult(results) == results[k]
    ensures (forall j :: 0 <= j < |results| ==> !Preferred(results[j])) ==> BestResult(results) == results[0]
  {
    var f := FindPreferred(results);
    forall k | 0 <= k < |results| && Preferred(results[k]) && (forall j :: 0 <= j < k ==> !Preferred(results[j]))
      ensures BestResult(results) == results[k]
    {
      assert f.Some?;
    }
  }
}
