/** handleAreaSelected in components/MapView.tsx: the records inside a selected rectangle
    and the statistics shown for them. */
module AreaStatistics {
  import opened Common
  import opened Earthquakes

  /** `bounds[0]` is the south-west corner (lat, lng) and `bounds[1]` the north-east one. */
  datatype Bounds = Bounds(south: real, west: real, north: real, east: real)

  predicate InArea(b: Bounds, e: Earthquake)
  {
    b.south <= e.latitude <= b.north && b.west <= e.longitude <= b.east
  }

  function AreaPredicate(b: Bounds): Earthquake -> bool
  {
    (e: Earthquake) => InArea(b, e)
  }

  /** The rectangle is closed on every side. */
  function SelectArea(earthquakes: seq<Earthquake>, b: Bounds): (r: seq<Earthquake>)
    ensures forall e :: e in r <==> e in earthquakes && InArea(b, e)
    ensures IsSubseq(r, earthquakes)
  {
    FilterMembership(earthquakes, AreaPredicate(b));
    FilterIsSubseq(earthquakes, AreaPredicate(b));
    Filter(earthquakes, AreaPredicate(b))
  }

  // ----- Distributions -----

  /** The six magnitude ranges in the order the chart lists them: 7+, 6-6.9, 5-5.9, 4-4.9,
      3-3.9 and below 3. */
  function MagnitudeRange(k: nat): Earthquake -> bool
    requires k < 6
  {
    match k
    case 0 => (e: Earthquake) => e.magnitude >= 7.0
    case 1 => (e: Earthquake) => e.magnitude >= 6.0 && e.magnitude < 7.0
    case 2 => (e: Earthquake) => e.magnitude >= 5.0 && e.magnitude < 6.0
    case 3 => (e: Earthquake) => e.magnitude >= 4.0 && e.magnitude < 5.0
    case 4 => (e: Earthquake) => e.magnitude >= 3.0 && e.magnitude < 4.0
    case 5 => (e: Earthquake) => e.magnitude < 3.0
  }

  /** The five depth ranges: 0-10, 10-20, 20-30, 30-50 and 50+ km. A negative depth is in none. */
  function DepthRange(k: nat): Earthquake -> bool
    requires k < 5
  {
    match k
    case 0 => (e: Earthquake) => e.depth >= 0.0 && e.depth < 10.0
    case 1 => (e: Earthquake) => e.depth >= 10.0 && e.depth < 20.0
    case 2 => (e: Earthquake) => e.depth >= 20.0 && e.depth < 30.0
    case 3 => (e: Earthquake) => e.depth >= 30.0 && e.depth < 50.0
    case 4 => (e: Earthquake) => e.depth >= 50.0
  }

  function CountWhere(s: seq<Earthquake>, p: Earthquake -> bool): nat
  {
    |Filter(s, p)|
  }

  function MagnitudeDistribution(s: seq<Earthquake>): (counts: seq<nat>)
    ensures |counts| == 6
  {
    seq(6, k requires 0 <= k < 6 => CountWhere(s, MagnitudeRange(k)))
  }

  function DepthDistribution(s: seq<Earthquake>): (counts: seq<nat>)
    ensures |counts| == 5
  {
    seq(5, k requires 0 <= k < 5 => CountWhere(s, DepthRange(k)))
  }

  function IsAfad(): Earthquake -> bool { (e: Earthquake) => e.source == Afad }
  function IsKandilli(): Earthquake -> bool { (e: Earthquake) => e.source == Kandilli }
  function IsStrong(): Earthquake -> bool { (e: Earthquake) => e.magnitude >= 5.0 }
  function IsShallow(): Earthquake -> bool { (e: Earthquake) => e.depth < 10.0 }
  function IsNegativeDepth(): Earthquake -> bool { (e: Earthquake) => e.depth < 0.0 }

  /** The AFAD and Kandilli slices of the source chart. */
  function SourceDistribution(s: seq<Earthquake>): (counts: seq<nat>)
    ensures |counts| == 2
  {
    [CountWhere(s, IsAfad()), CountWhere(s, IsKandilli())]
  }

  function MagnitudeSum(s: seq<Earthquake>): nat
  {
    CountWhere(s, MagnitudeRange(0)) + CountWhere(s, MagnitudeRange(1)) + CountWhere(s, MagnitudeRange(2)) +
    CountWhere(s, MagnitudeRange(3)) + CountWhere(s, MagnitudeRange(4)) + CountWhere(s, MagnitudeRange(5))
  }

  function DepthSum(s: seq<Earthquake>): nat
  {
    CountWhere(s, DepthRange(0)) + CountWhere(s, DepthRange(1)) + CountWhere(s, DepthRange(2)) +
    CountWhere(s, DepthRange(3)) + CountWhere(s, DepthRange(4))
  }

  /** The magnitude ranges partition the selection: every record is counted exactly once. */
  lemma {:induction false} MagnitudeRangesPartition(s: seq<Earthquake>)
    ensures MagnitudeSum(s) == |s|
  {
    if s != [] {
      MagnitudeRangesPartition(s[..|s| - 1]);
    }
  }

  /** The depth ranges count every record of non-negative depth exactly once, and a record
      of negative depth not at all. */
  lemma {:induction false} DepthRangesCover(s: seq<Earthquake>)
    ensures DepthSum(s) + CountWhere(s, IsNegativeDepth()) == |s|
  {
    if s != [] {
      DepthRangesCover(s[..|s| - 1]);
    }
  }

  /** strongEarthquakeCount is the top three magnitude ranges together, and
      shallowEarthquakeCount the first depth range plus the records of negative depth. */
  lemma {:induction false} StrongAndShallowCounts(s: seq<Earthquake>)
    ensures CountWhere(s, IsStrong()) ==
              CountWhere(s, MagnitudeRange(0)) + CountWhere(s, MagnitudeRange(1)) + CountWhere(s, MagnitudeRange(2))
    ensures CountWhere(s, IsShallow()) == CountWhere(s, DepthRange(0)) + CountWhere(s, IsNegativeDepth())
  {
    if s != [] {
      StrongAndShallowCounts(s[..|s| - 1]);
    }
  }

  /** The two source slices never exceed the selection, and cover it when every record comes
      from AFAD or Kandilli. */
  lemma {:induction false} SourceSlices(s: seq<Earthquake>)
    ensures CountWhere(s, IsAfad()) + CountWhere(s, IsKandilli()) <= |s|
    ensures (forall i :: 0 <= i < |s| ==> s[i].source == Afad || s[i].source == Kandilli) ==>
              CountWhere(s, IsAfad()) + CountWhere(s, IsKandilli()) == |s|
  {
    if s != [] {
      SourceSlices(s[..|s| - 1]);
    }
  }

  // ----- Records per day -----

  function DateIs(d: string): Earthquake -> bool
  {
    (e: Earthquake) => e.date == d
  }

  function Dates(s: seq<Earthquake>): set<string>
  {
    set e | e in s :: e.date
  }

  /** dateGroups: for every date present, how many records carry it. */
  function DateCounts(s: seq<Earthquake>): (groups: map<string, nat>)
    ensures groups.Keys == Dates(s)
  {
    map d | d in Dates(s) :: CountWhere(s, DateIs(d))
  }

  lemma DatesSnoc(s: seq<Earthquake>, e: Earthquake)
    ensures Dates(s + [e]) == Dates(s) + {e.date}
  {
  }

  lemma DateCountAbsent(s: seq<Earthquake>, d: string)
    requires d !in Dates(s)
    ensures CountWhere(s, DateIs(d)) == 0
  {
    assert forall i :: 0 <= i < |s| ==> s[i] in s;
    FilterNoneKept(s, DateIs(d));
  }

  lemma DateCountSnoc(s: seq<Earthquake>, e: Earthquake, d: string)
    ensures CountWhere(s + [e], DateIs(d)) == CountWhere(s, DateIs(d)) + (if d == e.date then 1 else 0)
  {
    var t := s + [e];
    assert t[..|s|] == s && t[..|s| + 1] == t;
    FilterPrefixStep(t, |s|, DateIs(d));
  }

  // ----- The statistics panel -----

  /** The parts of the statistics object that need neither Date arithmetic nor text
      parsing; averages are exact (see the README for what is left out). */
  datatype AreaStats = AreaStats(
    count: nat,
    maxMagnitude: real,
    minMagnitude: real,
    avgMagnitude: real,
    maxDepth: real,
    minDepth: real,
    avgDepth: real,
    magnitudeDistribution: seq<nat>,
    sourceDistribution: seq<nat>,
    depthRanges: seq<nat>,
    dateGroups: map<string, nat>,
    strongEarthquakeCount: nat,
    shallowEarthquakeCount: nat)

  const EmptyStats: AreaStats := AreaStats(0, 0.0, 0.0, 0.0, 0.0, 0.0, 0.0, [], [], [], map[], 0, 0)

  function StatsOf(s: seq<Earthquake>, dateGroups: map<string, nat>): (st: AreaStats)
    ensures s == [] ==> st == EmptyStats
    ensures s != [] ==>
              && st.count == |s|
              && (forall i :: 0 <= i < |s| ==> st.minMagnitude <= s[i].magnitude <= st.maxMagnitude)
              && (forall i :: 0 <= i < |s| ==> st.minDepth <= s[i].depth <= st.maxDepth)
              && st.maxMagnitude in Magnitudes(s) && st.minMagnitude in Magnitudes(s)
              && st.maxDepth in Depths(s) && st.minDepth in Depths(s)
              && st.minMagnitude <= st.avgMagnitude <= st.maxMagnitude
              && st.minDepth <= st.avgDepth <= st.maxDepth
              && st.avgMagnitude == SumOf(Magnitudes(s)) / |s| as real
              && st.avgDepth == SumOf(Depths(s)) / |s| as real
              && st.magnitudeDistribution == MagnitudeDistribution(s)
              && st.depthRanges == DepthDistribution(s)
              && st.sourceDistribution == SourceDistribution(s)
              && st.strongEarthquakeCount == CountWhere(s, IsStrong())
              && st.shallowEarthquakeCount == CountWhere(s, IsShallow())
              && st.dateGroups == dateGroups
  {
    if s == [] then EmptyStats
    else
      AreaStats(
        |s|,
        MaxOf(Magnitudes(s)), MinOf(Magnitudes(s)), MeanOf(Magnitudes(s)),
        MaxOf(Depths(s)), MinOf(Depths(s)), MeanOf(Depths(s)),
        MagnitudeDistribution(s),
        SourceDistribution(s),
        DepthDistribution(s),
        dateGroups,
        CountWhere(s, IsStrong()),
        CountWhere(s, IsShallow()))
  }

  /** The map's selection state. */
  class AreaSelection {
    var selectedBounds: Option<Bounds>
    var selected: seq<Earthquake>
    var statistics: Option<AreaStats>

    constructor ()
      ensures selectedBounds == None && selected == [] && statistics == None
    {
      selectedBounds := None;
      selected := [];
      statistics := None;
    }

    /** handleAreaSelected: keeps the records inside the rectangle and computes their
        statistics; the forEach counts the records of each date. */
    method HandleAreaSelected(earthquakes: seq<Earthquake>, b: Bounds)
      modifies this
      ensures selectedBounds == Some(b)
      ensures selected == SelectArea(earthquakes, b)
      ensures statistics == Some(StatsOf(selected, if selected == [] then map[] else DateCounts(selected)))
    {
      selectedBounds := Some(b);
      var filtered := SelectArea(earthquakes, b);
      selected := filtered;
      if |filtered| > 0 {
        var dateGroups := CountDates(filtered);
        statistics := Some(StatsOf(filtered, dateGroups));
      } else {
        statistics := Some(EmptyStats);
      }
    }
  }

  /** The forEach of lines 1648-1657: one pass that bumps the counter of each record's date. */
  method CountDates(s: seq<Earthquake>) returns (dateGroups: map<string, nat>)
    ensures dateGroups == DateCounts(s)
  {
    dateGroups := map[];
    var i := 0;
    while i < |s|
      invariant 0 <= i <= |s|
      invariant dateGroups.Keys == Dates(s[..i])
      invariant forall d :: d in dateGroups ==> dateGroups[d] == CountWhere(s[..i], DateIs(d))
    {
      var date := s[i].date;
      CountStep(s, i, dateGroups);
      dateGroups := dateGroups[date := (if date in dateGroups then dateGroups[date] else 0) + 1];
      i := i + 1;
    }
    assert s[..i] == s;
    assert dateGroups.Keys == DateCounts(s).Keys;
  }

  /** One step of the forEach keeps the counters exact. */
  lemma CountStep(s: seq<Earthquake>, i: nat, groups: map<string, nat>)
    requires i < |s|
    requires groups.Keys == Dates(s[..i])
    requires forall d :: d in groups ==> groups[d] == CountWhere(s[..i], DateIs(d))
    ensures var next := groups[s[i].date := (if s[i].date in groups then groups[s[i].date] else 0) + 1];
            && next.Keys == Dates(s[..i + 1])
            && forall d :: d in next ==> next[d] == CountWhere(s[..i + 1], DateIs(d))
  {
    assert s[..i + 1] == s[..i] + [s[i]];
    DatesSnoc(s[..i], s[i]);
    var next := groups[s[i].date := (if s[i].date in groups then groups[s[i].date] else 0) + 1];
    forall d | d in next
      ensures next[d] == CountWhere(s[..i + 1], DateIs(d))
    {
      DateCountSnoc(s[..i], s[i], d);
      if d !in groups {
        DateCountAbsent(s[..i], d);
      }
    }
  }

  /** Every date group holds at least one record of the selection and at most all of them. */
  lemma {:induction false} DateGroupsCount(s: seq<Earthquake>, d: string)
    requires d in DateCounts(s)
    ensures 1 <= DateCounts(s)[d] <= |s|
  {
    var e :| e in s && e.date == d;
    FilterMembership(s, DateIs(d));
    assert e in Filter(s, DateIs(d));
  }
}
