/** The side list (components/EarthquakeList.tsx): magnitude badges, the sort selector and
    its four orders, and the summary above the list. */
module EarthquakeList {
  import opened Common
  import opened Earthquakes
  import opened Sorting

  /** The badge classes, indexed by magnitude band (below 3 first, 7 and above last). */
  const BadgeClasses: seq<string> := [
    "bg-green-500 text-white",
    "bg-lime-500 text-white",
    "bg-yellow-500 text-white",
    "bg-amber-500 text-white",
    "bg-orange-600 text-white",
    "bg-red-600 text-white"]

  /** getMagnitudeColor: thresholds 7, 6, 5, 4 and 3, tested from the top. */
  function BadgeClass(magnitude: real): (c: string)
    ensures c == BadgeClasses[MagnitudeBand(magnitude)]
  {
    if magnitude >= 7.0 then "bg-red-600 text-white"
    else if magnitude >= 6.0 then "bg-orange-600 text-white"
    else if magnitude >= 5.0 then "bg-amber-500 text-white"
    else if magnitude >= 4.0 then "bg-yellow-500 text-white"
    else if magnitude >= 3.0 then "bg-lime-500 text-white"
    else "bg-green-500 text-white"
  }

  /** The six classes are distinct, so a badge tells its magnitude band. */
  lemma BadgeIdentifiesBand(m1: real, m2: real)
    ensures BadgeClass(m1) == BadgeClass(m2) <==> MagnitudeBand(m1) == MagnitudeBand(m2)
  {
    assert forall i, j :: 0 <= i < j < |BadgeClasses| ==> BadgeClasses[i] != BadgeClasses[j];
  }

  const MagnitudeDesc: string := "magnitude-desc"
  const MagnitudeAsc: string := "magnitude-asc"
  const DateDesc: string := "date-desc"
  const DateAsc: string := "date-asc"

  /** The sort the list starts with. */
  const DefaultSort: string := MagnitudeDesc

  predicate KnownSort(sortBy: string)
  {
    sortBy == MagnitudeDesc || sortBy == MagnitudeAsc || sortBy == DateDesc || sortBy == DateAsc
  }

  const Placeholder: string := "Sıralama seçin"

  /** getSortLabel. */
  function SortLabel(sortBy: string): (caption: string)
    ensures !KnownSort(sortBy) <==> caption == Placeholder
  {
    if sortBy == MagnitudeDesc then "Büyüklük (Yüksek → Düşük)"
    else if sortBy == MagnitudeAsc then "Büyüklük (Düşük → Yüksek)"
    else if sortBy == DateDesc then "Tarih (Yeni → Eski)"
    else if sortBy == DateAsc then "Tarih (Eski → Yeni)"
    else Placeholder
  }

  /** Different sorts have different labels. */
  lemma SortLabelsDistinct(a: string, b: string)
    requires KnownSort(a) && KnownSort(b) && a != b
    ensures SortLabel(a) != SortLabel(b)
  {
  }

  // ----- Sorting -----

  /** `new Date(eq.date + ' ' + eq.time).getTime()`, the local-time parser being a parameter. */
  type Instant = string -> int

  function InstantOf(instant: Instant, e: Earthquake): int
  {
    instant(e.date + " " + e.time)
  }

  function NegatedMagnitude(e: Earthquake): real { -e.magnitude }

  function DateKey(instant: Instant): Earthquake -> real
  {
    (e: Earthquake) => InstantOf(instant, e) as real
  }

  function NegatedDateKey(instant: Instant): Earthquake -> real
  {
    (e: Earthquake) => -(InstantOf(instant, e) as real)
  }

  /** sortedEarthquakes: a sorted copy of the list; an unknown key leaves the copy as it is. */
  function SortedEarthquakes(sortBy: string, earthquakes: seq<Earthquake>, instant: Instant): (r: seq<Earthquake>)
    ensures multiset(r) == multiset(earthquakes)
    ensures sortBy == MagnitudeDesc ==> forall i, j :: 0 <= i < j < |r| ==> r[i].magnitude >= r[j].magnitude
    ensures sortBy == MagnitudeAsc ==> forall i, j :: 0 <= i < j < |r| ==> r[i].magnitude <= r[j].magnitude
    ensures sortBy == DateDesc ==> forall i, j :: 0 <= i < j < |r| ==> InstantOf(instant, r[i]) >= InstantOf(instant, r[j])
    ensures sortBy == DateAsc ==> forall i, j :: 0 <= i < j < |r| ==> InstantOf(instant, r[i]) <= InstantOf(instant, r[j])
    ensures !KnownSort(sortBy) ==> r == earthquakes
  {
    if sortBy == MagnitudeDesc then
      var r := SortDesc(earthquakes, Magnitude);
      assert forall i :: 0 <= i < |r| ==> Magnitude(r[i]) == r[i].magnitude;
      r
    else if sortBy == MagnitudeAsc then
      var r := SortDesc(earthquakes, NegatedMagnitude);
      assert forall i :: 0 <= i < |r| ==> NegatedMagnitude(r[i]) == -r[i].magnitude;
      r
    else if sortBy == DateDesc then
      SortDesc(earthquakes, DateKey(instant))
    else if sortBy == DateAsc then
      SortDesc(earthquakes, NegatedDateKey(instant))
    else earthquakes
  }

  /** Sorting neither adds nor drops a record, whatever the key. */
  lemma SortIsPermutation(sortBy: string, earthquakes: seq<Earthquake>, instant: Instant)
    ensures |SortedEarthquakes(sortBy, earthquakes, instant)| == |earthquakes|
    ensures forall e :: e in SortedEarthquakes(sortBy, earthquakes, instant) <==> e in earthquakes
  {
    var r := SortedEarthquakes(sortBy, earthquakes, instant);
    assert |multiset(r)| == |multiset(earthquakes)|;
    forall e ensures e in r <==> e in earthquakes {
      assert e in r <==> e in multiset(r);
      assert e in earthquakes <==> e in multiset(earthquakes);
    }
  }

  /** Under the default sort the strongest record of a non-empty list comes first. */
  lemma DefaultSortLeadsWithStrongest(earthquakes: seq<Earthquake>, instant: Instant)
    requires |earthquakes| > 0
    ensures var r := SortedEarthquakes(DefaultSort, earthquakes, instant);
            |r| > 0 && forall e :: e in earthquakes ==> r[0].magnitude >= e.magnitude
  {
    var r := SortedEarthquakes(DefaultSort, earthquakes, instant);
    SortIsPermutation(DefaultSort, earthquakes, instant);
    forall e | e in earthquakes
      ensures r[0].magnitude >= e.magnitude
    {
      var j :| 0 <= j < |r| && r[j] == e;
    }
  }

  // ----- The summary -----

  datatype ListStatistics = ListStatistics(
    total: nat,
    maxMagnitude: real,
    avgMagnitude: real,
    maxDepth: real,
    todayCount: nat)

  /** `isToday(date)` says whether a record's date falls on the current local day. */
  function Statistics(earthquakes: seq<Earthquake>, isToday: string -> bool): (st: ListStatistics)
    ensures earthquakes == [] ==> st == ListStatistics(0, 0.0, 0.0, 0.0, 0)
    ensures earthquakes != [] ==>
              && st.total == |earthquakes|
              && st.maxMagnitude in Magnitudes(earthquakes)
              && (forall i :: 0 <= i < |earthquakes| ==> earthquakes[i].magnitude <= st.maxMagnitude)
              && st.maxDepth in Depths(earthquakes)
              && (forall i :: 0 <= i < |earthquakes| ==> earthquakes[i].depth <= st.maxDepth)
              && MinOf(Magnitudes(earthquakes)) <= st.avgMagnitude <= st.maxMagnitude
              && st.todayCount <= st.total
  {
    if earthquakes == [] then ListStatistics(0, 0.0, 0.0, 0.0, 0)
    else
      ListStatistics(
        |earthquakes|,
        MaxOf(Magnitudes(earthquakes)),
        MeanOf(Magnitudes(earthquakes)),
        MaxOf(Depths(earthquakes)),
        |Filter(earthquakes, (e: Earthquake) => isToday(e.date))|)
  }
}
