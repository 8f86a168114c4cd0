/** getAllEarthquakes (lib/api/index.ts): pages through the Kandilli provider, then the
    AFAD provider, concatenates their records, keeps those inside Turkey's bounding box,
    removes duplicates and sorts newest first, updating a per-provider status as it goes. */
module Aggregator {
  import opened Common
  import opened Earthquakes
  import opened Sorting
  import opened Paginator
  import opened Deduplication

  const MinLat: real := 35.5
  const MaxLat: real := 42.0
  const MinLon: real := 25.5
  const MaxLon: real := 45.0

  predicate InTurkeyBounds(latitude: real, longitude: real)
  {
    MinLat <= latitude <= MaxLat && MinLon <= longitude <= MaxLon
  }

  /** The box is closed: its corners are inside, and a point just beyond any edge is not. */
  lemma TurkeyBoundsInclusive(latitude: real, longitude: real, eps: real)
    requires eps > 0.0
    ensures InTurkeyBounds(35.5, 25.5) && InTurkeyBounds(42.0, 45.0)
    ensures InTurkeyBounds(35.5, 45.0) && InTurkeyBounds(42.0, 25.5)
    ensures !InTurkeyBounds(35.5 - eps, longitude) && !InTurkeyBounds(42.0 + eps, longitude)
    ensures !InTurkeyBounds(latitude, 25.5 - eps) && !InTurkeyBounds(latitude, 45.0 + eps)
  {
  }

  datatype ProviderStatus = Loading | Loaded | Error

  datatype LoadingStatus = LoadingStatus(kandilli: ProviderStatus, afad: ProviderStatus)

  predicate Admitted(e: Earthquake)
  {
    InTurkeyBounds(e.latitude, e.longitude)
  }

  function Timestamp(e: Earthquake): real
  {
    e.timestamp as real
  }

  /** The onProgress callback is the only thing in the try block that can throw (the
      paginator swallows every fetch error). `fault` is the index of the first of its
      three calls that throws, or None when none does or no callback was given. */
  predicate Raises(fault: Option<nat>, call: nat)
  {
    fault == Some(call)
  }

  /** The catch block: a provider still loading is marked as failed; a loaded one stays loaded. */
  function FailPending(status: LoadingStatus): (r: LoadingStatus)
    ensures r.kandilli == (if status.kandilli == Loading then Error else status.kandilli)
    ensures r.afad == (if status.afad == Loading then Error else status.afad)
  {
    LoadingStatus(
      if status.kandilli == Loading then Error else status.kandilli,
      if status.afad == Loading then Error else status.afad)
  }

  /** The full pipeline. The `skip` parameter of getAllEarthquakes is never used and is not modelled. */
  method GetAllEarthquakes(kandilliPages: seq<PageOutcome>, afadPages: seq<PageOutcome>, limit: nat, fault: Option<nat>)
    returns (earthquakes: seq<Earthquake>, status: LoadingStatus)
    // success: no callback call throws
    ensures !Raises(fault, 0) && !Raises(fault, 1) && !Raises(fault, 2) ==>
      && status == LoadingStatus(Loaded, Loaded)
      && (forall e :: e in earthquakes ==> Admitted(e))
      && SortedDesc(earthquakes, Timestamp)
      && multiset(earthquakes) == multiset(Dedup(Filter(
           Received(kandilliPages, CallCount(kandilliPages, limit)) +
           Received(afadPages, CallCount(afadPages, limit)), Admitted)))
      && |earthquakes| <= |Received(kandilliPages, CallCount(kandilliPages, limit))| +
                          |Received(afadPages, CallCount(afadPages, limit))|
    // failure: an empty list, and only the providers not yet finished are marked as failed
    ensures Raises(fault, 0) ==> earthquakes == [] && status == LoadingStatus(Error, Error)
    ensures Raises(fault, 1) ==> earthquakes == [] && status == LoadingStatus(Loaded, Error)
    ensures Raises(fault, 2) ==> earthquakes == [] && status == LoadingStatus(Loaded, Loaded)
  {
    status := LoadingStatus(Loading, Loading);
    var failed := Raises(fault, 0);
    if !failed {
      var kandilliResult, _ := FetchAllPages(kandilliPages, limit);
      status := status.(kandilli := Loaded);
      failed := Raises(fault, 1);
      if !failed {
        var afadResult, _ := FetchAllPages(afadPages, limit);
        status := status.(afad := Loaded);
        failed := Raises(fault, 2);
        if !failed {
          var allEarthquakes := kandilliResult + afadResult;
          var turkeyEarthquakes := Filter(allEarthquakes, Admitted);
          var uniqueEarthquakes := RemoveDuplicates(turkeyEarthquakes);
          earthquakes := SortDesc(uniqueEarthquakes, Timestamp);
          FilterMembership(allEarthquakes, Admitted);
          SortedMembers(uniqueEarthquakes, Timestamp);
          return;
        }
      }
    }
    status := FailPending(status);
    earthquakes := [];
  }

  // ----- Scenarios of the pipeline's contract -----

  /** A record outside the box never reaches the output, whatever its magnitude. */
  lemma OutsideRecordDropped(all: seq<Earthquake>, e: Earthquake)
    requires e.latitude == 10.0 && e.longitude == 10.0
    ensures e !in Dedup(Filter(all, Admitted))
  {
    FilterMembership(all, Admitted);
  }
}
