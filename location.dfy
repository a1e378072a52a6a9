/** The shopper's detected location: a record of address fields that the
    browser's position and a reverse-geocoding lookup fill in, and that any
    page may patch. */
module Location {
  import opened Common

  const FetchFailedError := "Failed to fetch address details"
  const PermissionDeniedError := "Location permission denied"
  const UnsupportedError := "Geolocation not supported"

  datatype LocationInfo = LocationInfo(
    city: string, pincode: string, street: string, state: string,
    loading: bool, error: Option<string>)

  const InitialLocation := LocationInfo("", "", "", "", true, None)

  /** The address part of a reverse-geocoding answer; a field the answer
      leaves out reads as "". */
  datatype GeoAddress = GeoAddress(
    city: string, town: string, village: string, suburb: string,
    postcode: string, road: string, neighbourhood: string, state: string)

  /** How the position request ends: an answer from the lookup service, a
      failure of the lookup (a network error or an answer without an
      address), or a refusal of the position itself. */
  datatype LookupOutcome = Found(address: GeoAddress) | LookupFailed | PermissionRefused

  /** The first non-empty string of a `||` chain, or "" when all are empty. */
  function FirstNonEmpty(options: seq<string>): (r: string)
    ensures r == "" <==> forall i :: 0 <= i < |options| ==> options[i] == ""
    ensures r != "" ==>
      exists i :: 0 <= i < |options| && options[i] == r && forall j :: 0 <= j < i ==> options[j] == ""
  {
    if options == [] then ""
    else if options[0] != "" then options[0]
    else
      var r := FirstNonEmpty(options[1..]);
      assert r != "" ==>
        exists i :: 0 <= i < |options| && options[i] == r && forall j :: 0 <= j < i ==> options[j] == "" by {
        if r != "" {
          var k :| 0 <= k < |options[1..]| && options[1..][k] == r
            && forall j :: 0 <= j < k ==> options[1..][j] == "";
          assert options[k + 1] == r;
          assert forall j :: 0 <= j < k + 1 ==> options[j] == "" by {
            forall j | 0 <= j < k + 1 ensures options[j] == "" {
              if j > 0 { assert options[j] == options[1..][j - 1]; }
            }
          }
        }
      }
      r
  }

  /** The four fields a successful lookup yields: city falls back through
      town, village and suburb; street through road and neighbourhood. */
  function CityOf(a: GeoAddress): string
  {
    FirstNonEmpty([a.city, a.town, a.village, a.suburb])
  }

  function StreetOf(a: GeoAddress): string
  {
    FirstNonEmpty([a.road, a.neighbourhood])
  }

  /** A successful lookup replaces all four fields and clears the loading
      flag and the error. */
  function FromAddress(a: GeoAddress): (l: LocationInfo)
    ensures !l.loading && l.error == None
    ensures l.pincode == a.postcode && l.state == a.state
    ensures l.city == "" <==> a.city == "" && a.town == "" && a.village == "" && a.suburb == ""
    ensures a.city != "" ==> l.city == a.city
    ensures a.city == "" && a.town != "" ==> l.city == a.town
    ensures a.city == "" && a.town == "" && a.village != "" ==> l.city == a.village
    ensures a.city == "" && a.town == "" && a.village == "" ==> l.city == a.suburb
    ensures l.street == "" <==> a.road == "" && a.neighbourhood == ""
    ensures a.road != "" ==> l.street == a.road
    ensures a.road == "" ==> l.street == a.neighbourhood
  {
    var cities := [a.city, a.town, a.village, a.suburb];
    assert cities[0] == a.city && cities[1] == a.town && cities[2] == a.village && cities[3] == a.suburb;
    var streets := [a.road, a.neighbourhood];
    assert streets[0] == a.road && streets[1] == a.neighbourhood;
    LocationInfo(CityOf(a), a.postcode, StreetOf(a), a.state, false, None)
  }

  /** A failure keeps the fields, stops loading and records the error. */
  function Failed(prev: LocationInfo, error: string): (l: LocationInfo)
    ensures l.city == prev.city && l.pincode == prev.pincode
    ensures l.street == prev.street && l.state == prev.state
    ensures !l.loading && l.error == Some(error)
  {
    prev.(loading := false, error := Some(error))
  }

  /** A partial record for `updateLocation`: None leaves a key out. */
  datatype LocationPatch = LocationPatch(
    city: Option<string>, pincode: Option<string>, street: Option<string>,
    state: Option<string>, loading: Option<bool>, error: Option<Option<string>>)

  const EmptyPatch := LocationPatch(None, None, None, None, None, None)

  function Pick<T>(o: Option<T>, keep: T): T
  {
    if o.Some? then o.value else keep
  }

  /** `{ ...prev, ...patch }`. */
  function Merge(prev: LocationInfo, p: LocationPatch): LocationInfo
  {
    LocationInfo(Pick(p.city, prev.city), Pick(p.pincode, prev.pincode),
      Pick(p.street, prev.street), Pick(p.state, prev.state),
      Pick(p.loading, prev.loading), Pick(p.error, prev.error))
  }

  /** Supplied keys overwrite, every other key keeps its value; merging
      nothing changes nothing, and merging the same patch again changes
      nothing more. */
  lemma MergeProperties(prev: LocationInfo, p: LocationPatch)
    ensures p.city.Some? ==> Merge(prev, p).city == p.city.value
    ensures p.city.None? ==> Merge(prev, p).city == prev.city
    ensures p.pincode.Some? ==> Merge(prev, p).pincode == p.pincode.value
    ensures p.pincode.None? ==> Merge(prev, p).pincode == prev.pincode
    ensures p.street.Some? ==> Merge(prev, p).street == p.street.value
    ensures p.street.None? ==> Merge(prev, p).street == prev.street
    ensures p.state.Some? ==> Merge(prev, p).state == p.state.value
    ensures p.state.None? ==> Merge(prev, p).state == prev.state
    ensures p.loading.Some? ==> Merge(prev, p).loading == p.loading.value
    ensures p.loading.None? ==> Merge(prev, p).loading == prev.loading
    ensures p.error.Some? ==> Merge(prev, p).error == p.error.value
    ensures p.error.None? ==> Merge(prev, p).error == prev.error
    ensures Merge(prev, EmptyPatch) == prev
    ensures Merge(Merge(prev, p), p) == Merge(prev, p)
  {
  }

  class LocationStore {
    var location: LocationInfo
    /** Position requests whose callback has not fired yet. */
    var lookupsInFlight: nat

    constructor ()
      ensures location == InitialLocation && lookupsInFlight == 0
    {
      location := InitialLocation;
      lookupsInFlight := 0;
    }

    /** `detectLocation`: turns loading on without touching any other field,
        then either asks the browser for the position or, where the browser
        has no geolocation, fails at once. */
    method DetectLocation(geolocationSupported: bool)
      modifies this
      ensures geolocationSupported ==>
        location == old(location).(loading := true) && lookupsInFlight == old(lookupsInFlight) + 1
      ensures !geolocationSupported ==>
        location == Failed(old(location), UnsupportedError) && lookupsInFlight == old(lookupsInFlight)
    {
      location := location.(loading := true);
      if geolocationSupported {
        lookupsInFlight := lookupsInFlight + 1;
      } else {
        location := Failed(location, UnsupportedError);
      }
    }

    /** The callback of a position request. */
    method LookupSettled(outcome: LookupOutcome)
      requires lookupsInFlight > 0
      modifies this
      ensures lookupsInFlight == old(lookupsInFlight) - 1
      ensures outcome.Found? ==> location == FromAddress(outcome.address)
      ensures outcome.LookupFailed? ==> location == Failed(old(location), FetchFailedError)
      ensures outcome.PermissionRefused? ==> location == Failed(old(location), PermissionDeniedError)
    {
      match outcome {
        case Found(a) => location := FromAddress(a);
        case LookupFailed => location := Failed(location, FetchFailedError);
        case PermissionRefused => location := Failed(location, PermissionDeniedError);
      }
      lookupsInFlight := lookupsInFlight - 1;
    }

    /** `updateLocation`: merges the patch into the record. */
    method UpdateLocation(p: LocationPatch)
      modifies this
      ensures location == Merge(old(location), p)
      ensures lookupsInFlight == old(lookupsInFlight)
    {
      location := Merge(location, p);
    }
  }
}
