/** The ZoomFilter component of components/MapView.tsx: a zoom-dependent magnitude floor,
    a magnitude-descending candidate list capped by zoom, and the viewport selection that
    admits in-bounds candidates up to a render ceiling and, from zoom 6 on, backfills with
    candidates outside the viewport. The map's `bounds.contains` is a parameter. */
module Viewport {
  import opened Common
  import opened Earthquakes
  import opened Sorting

  // ----- filterByZoom -----

  /** The magnitude floor of each zoom band; from zoom 8 on there is none. */
  predicate VisibleAtZoom(magnitude: real, zoom: real)
  {
    if zoom >= 8.0 then true
    else if zoom >= 7.0 then magnitude >= 2.5
    else if zoom >= 6.0 then magnitude >= 3.0
    else if zoom >= 5.0 then magnitude >= 3.5
    else magnitude >= 4.0
  }

  function ZoomPredicate(zoom: real): Earthquake -> bool
  {
    (e: Earthquake) => VisibleAtZoom(e.magnitude, zoom)
  }

  /** One filter per zoom band; from zoom 8 on the very same list is handed back. */
  function FilterByZoom(earthquakes: seq<Earthquake>, zoom: real): (r: seq<Earthquake>)
    ensures r == Filter(earthquakes, ZoomPredicate(zoom))
    ensures IsSubseq(r, earthquakes)
    ensures forall e :: e in r <==> e in earthquakes && VisibleAtZoom(e.magnitude, zoom)
    ensures zoom >= 8.0 ==> r == earthquakes
  {
    FilterMembership(earthquakes, ZoomPredicate(zoom));
    FilterIsSubseq(earthquakes, ZoomPredicate(zoom));
    if zoom >= 8.0 then
      FilterAllKept(earthquakes, ZoomPredicate(zoom));
      earthquakes
    else
      var floor := if zoom >= 7.0 then 2.5 else if zoom >= 6.0 then 3.0 else if zoom >= 5.0 then 3.5 else 4.0;
      var keep := (e: Earthquake) => e.magnitude >= floor;
      FilterExtensional(earthquakes, keep, ZoomPredicate(zoom));
      Filter(earthquakes, keep)
  }

  /** Zooming in never hides a record: the floor only goes down as the zoom goes up. */
  lemma ZoomFloorMonotone(earthquakes: seq<Earthquake>, e: Earthquake, z1: real, z2: real)
    requires z1 <= z2 && e in FilterByZoom(earthquakes, z1)
    ensures e in FilterByZoom(earthquakes, z2)
  {
    assert e in earthquakes && VisibleAtZoom(e.magnitude, z1);
    FloorMonotone(e.magnitude, z1, z2);
  }

  lemma FloorMonotone(magnitude: real, z1: real, z2: real)
    requires z1 <= z2 && VisibleAtZoom(magnitude, z1)
    ensures VisibleAtZoom(magnitude, z2)
  {
  }

  // ----- The candidate list -----

  /** maxMarkers: the length cap of the candidate list. */
  function MaxMarkers(zoom: real): nat
  {
    if zoom >= 7.0 then 2000 else if zoom >= 6.0 then 1000 else if zoom >= 5.0 then 500 else 200
  }

  /** maxRender: the ceiling of the viewport selection. */
  function MaxRender(zoom: real): nat
  {
    if zoom >= 8.0 then 1500 else if zoom >= 7.0 then 800 else if zoom >= 6.0 then 400 else 200
  }

  /** The strongest records passing the zoom floor, strongest first, at most maxMarkers of them. */
  function Candidates(earthquakes: seq<Earthquake>, zoom: real): (c: seq<Earthquake>)
    ensures SortedDesc(c, Magnitude)
    ensures |c| == Min(|FilterByZoom(earthquakes, zoom)|, MaxMarkers(zoom))
    ensures forall e :: e in c ==> e in earthquakes && VisibleAtZoom(e.magnitude, zoom)
    ensures multiset(c) <= multiset(FilterByZoom(earthquakes, zoom))
    ensures forall e, i :: e in multiset(FilterByZoom(earthquakes, zoom)) - multiset(c) && 0 <= i < |c| ==>
              e.magnitude <= c[i].magnitude
  {
    var filtered := FilterByZoom(earthquakes, zoom);
    var sorted := SortDesc(filtered, Magnitude);
    SortedMembers(filtered, Magnitude);
    TakeSubMultiset(sorted, MaxMarkers(zoom));
    TakeLeavesWeaker(filtered, sorted, MaxMarkers(zoom));
    Take(sorted, MaxMarkers(zoom))
  }

  /** Cutting a list sorted strongest first leaves out only records no stronger than any kept. */
  lemma TakeLeavesWeaker(whole: seq<Earthquake>, sorted: seq<Earthquake>, n: nat)
    requires SortedDesc(sorted, Magnitude) && multiset(sorted) == multiset(whole)
    ensures forall e, i :: e in multiset(whole) - multiset(Take(sorted, n)) && 0 <= i < |Take(sorted, n)| ==>
              e.magnitude <= Take(sorted, n)[i].magnitude
  {
    var k := Min(n, |sorted|);
    SplitDifference(sorted, k);
    forall e, i | e in multiset(whole) - multiset(Take(sorted, n)) && 0 <= i < |Take(sorted, n)|
      ensures e.magnitude <= Take(sorted, n)[i].magnitude
    {
      LeftOutIsWeaker(sorted, k, e, i);
    }
  }

  lemma SplitDifference(s: seq<Earthquake>, k: nat)
    requires k <= |s|
    ensures multiset(s) - multiset(s[..k]) == multiset(s[k..])
  {
    assert s == s[..k] + s[k..];
  }

  lemma LeftOutIsWeaker(sorted: seq<Earthquake>, k: nat, e: Earthquake, i: nat)
    requires SortedDesc(sorted, Magnitude) && i < k <= |sorted| && e in multiset(sorted[k..])
    ensures e.magnitude <= sorted[i].magnitude
  {
    var j :| k <= j < |sorted| && sorted[j] == e by {
      assert e in sorted[k..];
      var m :| 0 <= m < |sorted[k..]| && sorted[k..][m] == e;
      assert sorted[k + m] == e;
    }
    assert Magnitude(sorted[i]) >= Magnitude(sorted[j]);
  }

  lemma TakeSubMultiset(s: seq<Earthquake>, n: nat)
    ensures multiset(Take(s, n)) <= multiset(s)
  {
    var k := Min(n, |s|);
    assert s == s[..k] + s[k..];
  }

  /** The cap keeps distinct records: unique ids stay unique among the candidates. */
  lemma CandidatesKeepUnique(earthquakes: seq<Earthquake>, zoom: real)
    requires UniqueIds(earthquakes)
    ensures UniqueIds(Candidates(earthquakes, zoom))
  {
    FilterKeepsUnique(earthquakes, ZoomPredicate(zoom));
    UniqueIdsSubMultiset(Candidates(earthquakes, zoom), FilterByZoom(earthquakes, zoom));
  }

  /** A list drawn, with multiplicities, from a list with unique ids has unique ids. */
  lemma UniqueIdsSubMultiset(a: seq<Earthquake>, b: seq<Earthquake>)
    requires multiset(a) <= multiset(b) && UniqueIds(b)
    ensures UniqueIds(a)
  {
    forall i, j | 0 <= i < j < |a|
      ensures a[i].id != a[j].id
    {
      if a[i] == a[j] {
        TwoCopiesCounted(a, i, j);
        var p, q := TwoCopiesFound(b, a[i]);
      } else {
        var x, y := a[i], a[j];
        assert x in multiset(a) && y in multiset(a);
        if x.id == y.id {
          SameIdSameRecord(b, x, y);
        }
      }
    }
  }

  lemma TwoCopiesCounted(a: seq<Earthquake>, i: nat, j: nat)
    requires i < j < |a| && a[i] == a[j]
    ensures multiset(a)[a[i]] >= 2
  {
    assert a == a[..j] + [a[j]] + a[j + 1..];
    assert a[i] == a[..j][i];
    assert multiset(a[..j])[a[i]] >= 1;
  }

  lemma {:induction false} TwoCopiesFound(b: seq<Earthquake>, x: Earthquake) returns (p: nat, q: nat)
    requires multiset(b)[x] >= 2
    ensures p < q < |b| && b[p] == x && b[q] == x
  {
    var init := b[..|b| - 1];
    assert b == init + [b[|b| - 1]];
    if b[|b| - 1] == x {
      assert x in multiset(init);
      p :| 0 <= p < |init| && init[p] == x;
      q := |b| - 1;
    } else {
      p, q := TwoCopiesFound(init, x);
    }
  }

  /** A record cut by the cap is no stronger than any record kept. */
  lemma CapKeepsStrongest(earthquakes: seq<Earthquake>, zoom: real, e: Earthquake)
    requires e in FilterByZoom(earthquakes, zoom) && e !in Candidates(earthquakes, zoom)
    ensures forall kept :: kept in Candidates(earthquakes, zoom) ==> e.magnitude <= kept.magnitude
  {
    var f, c := FilterByZoom(earthquakes, zoom), Candidates(earthquakes, zoom);
    assert multiset(c)[e] == 0 && multiset(f)[e] > 0;
    var cut := multiset(f) - multiset(c);
    assert e in cut;
    forall kept | kept in c
      ensures e.magnitude <= kept.magnitude
    {
      var i :| 0 <= i < |c| && c[i] == kept;
      assert e in cut && 0 <= i < |c|;
    }
  }

  // ----- Viewport selection -----

  function InView(contains: (real, real) -> bool): Earthquake -> bool
  {
    (e: Earthquake) => contains(e.latitude, e.longitude)
  }

  function OutOfView(contains: (real, real) -> bool): Earthquake -> bool
  {
    (e: Earthquake) => !contains(e.latitude, e.longitude)
  }

  function Marked(ids: set<string>): Earthquake -> bool
  {
    (e: Earthquake) => e.id in ids
  }

  function Unmarked(ids: set<string>): Earthquake -> bool
  {
    (e: Earthquake) => e.id !in ids
  }

  /** The ids of a list of records. */
  function IdSet(s: seq<Earthquake>): (ids: set<string>)
    ensures forall e :: e in s ==> e.id in ids
    ensures |ids| <= |s|
  {
    if s == [] then {}
    else
      var init := IdSet(s[..|s| - 1]);
      assert s == s[..|s| - 1] + [s[|s| - 1]];
      init + {s[|s| - 1].id}
  }

  lemma IdSetSnoc(s: seq<Earthquake>, e: Earthquake)
    ensures IdSet(s + [e]) == IdSet(s) + {e.id}
  {
    assert (s + [e])[..|s|] == s;
  }

  /** Every id of the set belongs to some record of the list. */
  lemma {:induction false} IdOwner(s: seq<Earthquake>, id: string) returns (i: nat)
    requires id in IdSet(s)
    ensures i < |s| && s[i].id == id
  {
    var n := |s| - 1;
    if id == s[n].id {
      i := n;
    } else {
      i := IdOwner(s[..n], id);
    }
  }

  predicate UniqueIds(s: seq<Earthquake>)
  {
    forall i, j :: 0 <= i < j < |s| ==> s[i].id != s[j].id
  }

  /** The in-bounds pass: the first maxRender candidates inside the viewport. `rendered`
      counts these records (not their distinct ids). */
  function InViewPass(candidates: seq<Earthquake>, zoom: real, contains: (real, real) -> bool): (first: seq<Earthquake>)
    ensures |first| <= MaxRender(zoom)
  {
    Take(Filter(candidates, InView(contains)), MaxRender(zoom))
  }

  /** The backfill, from zoom 6 on and only while the ceiling is not reached: the first
      candidates whose id the in-bounds pass did not select, as many as there is room for. */
  function BackfillPass(candidates: seq<Earthquake>, zoom: real, contains: (real, real) -> bool): seq<Earthquake>
  {
    var first := InViewPass(candidates, zoom, contains);
    if |first| < MaxRender(zoom) && zoom >= 6.0 then
      Take(Filter(candidates, Unmarked(IdSet(first))), MaxRender(zoom) - |first|)
    else []
  }

  /** The set `inViewport` once both passes are done. */
  function Selection(candidates: seq<Earthquake>, zoom: real, contains: (real, real) -> bool): set<string>
  {
    IdSet(InViewPass(candidates, zoom, contains)) + IdSet(BackfillPass(candidates, zoom, contains))
  }

  /** The map layer's state: the zoom and bounds the map reports, and the two pieces of
      React state the effects compute. */
  class ZoomFilter {
    var zoom: real
    var bounds: Option<(real, real) -> bool>
    var filteredEarthquakes: seq<Earthquake>
    var visibleMarkers: set<string>

    constructor (zoom0: real, bounds0: Option<(real, real) -> bool>)
      ensures zoom == zoom0 && bounds == bounds0
      ensures filteredEarthquakes == [] && visibleMarkers == {}
    {
      zoom := zoom0;
      bounds := bounds0;
      filteredEarthquakes := [];
      visibleMarkers := {};
    }

    /** `zoomend`. */
    method ZoomEnd(z: real)
      modifies this
      ensures zoom == z && bounds == old(bounds)
      ensures filteredEarthquakes == old(filteredEarthquakes) && visibleMarkers == old(visibleMarkers)
    {
      zoom := z;
    }

    /** `moveend`. */
    method MoveEnd(b: Option<(real, real) -> bool>)
      modifies this
      ensures bounds == b && zoom == old(zoom)
      ensures filteredEarthquakes == old(filteredEarthquakes) && visibleMarkers == old(visibleMarkers)
    {
      bounds := b;
    }

    /** The first effect. At zoom 8 and above filterByZoom returns the caller's own array,
        so the sort reorders the caller's records in place; below it sorts a fresh copy. */
    method RefreshCandidates(earthquakes: array<Earthquake>)
      modifies this, earthquakes
      ensures zoom == old(zoom) && bounds == old(bounds)
      ensures filteredEarthquakes == Candidates(old(earthquakes[..]), zoom)
      ensures visibleMarkers == {}
      ensures earthquakes[..] == if zoom >= 8.0 then SortDesc(old(earthquakes[..]), Magnitude) else old(earthquakes[..])
    {
      var filtered := FilterByZoom(earthquakes[..], zoom);
      var sorted := SortDesc(filtered, Magnitude);
      if zoom >= 8.0 {
        WriteBack(earthquakes, sorted);
      }
      filteredEarthquakes := Take(sorted, MaxMarkers(zoom));
      visibleMarkers := {};
    }

    /** The second effect: nothing is shown for an empty candidate list, nothing changes
        while the map has no bounds, and otherwise the selection is recomputed. */
    method RefreshViewport()
      modifies this
      ensures zoom == old(zoom) && bounds == old(bounds) && filteredEarthquakes == old(filteredEarthquakes)
      ensures filteredEarthquakes == [] ==> visibleMarkers == {}
      ensures filteredEarthquakes != [] && bounds.None? ==> visibleMarkers == old(visibleMarkers)
      ensures filteredEarthquakes != [] && bounds.Some? ==>
                visibleMarkers == Selection(filteredEarthquakes, zoom, bounds.value)
    {
      if |filteredEarthquakes| == 0 {
        visibleMarkers := {};
        return;
      }
      if bounds.None? {
        return;
      }
      var candidates := filteredEarthquakes;
      var contains := bounds.value;
      var maxRender := MaxRender(zoom);
      var inViewport, rendered := AdmitInView(candidates, contains, maxRender);
      if rendered < maxRender && zoom >= 6.0 {
        var remaining := Filter(candidates, Unmarked(inViewport));
        inViewport := AddIds(inViewport, Take(remaining, maxRender - rendered));
      } else {
        assert BackfillPass(candidates, zoom, contains) == [];
      }
      visibleMarkers := inViewport;
    }

    /** visibleEarthquakes: the candidates whose id was selected, in candidate order. */
    function VisibleEarthquakes(): (r: seq<Earthquake>)
      reads this
      ensures IsSubseq(r, filteredEarthquakes)
      ensures forall e :: e in r <==> e in filteredEarthquakes && e.id in visibleMarkers
    {
      FilterMembership(filteredEarthquakes, Marked(visibleMarkers));
      FilterIsSubseq(filteredEarthquakes, Marked(visibleMarkers));
      Filter(filteredEarthquakes, Marked(visibleMarkers))
    }
  }

  /** The sort's in-place effect on the array it was called on: its cells now hold `s`. */
  method WriteBack(a: array<Earthquake>, s: seq<Earthquake>)
    requires |s| == a.Length
    modifies a
    ensures a[..] == s
  {
    var i := 0;
    while i < a.Length
      invariant 0 <= i <= a.Length
      invariant a[..i] == s[..i]
    {
      a[i] := s[i];
      assert a[..i + 1] == a[..i] + [s[i]] == s[..i + 1];
      i := i + 1;
    }
    assert a[..] == a[..i] && s == s[..i];
  }

  /** The first loop of the viewport effect: walks the candidates, admitting those inside
      the viewport, and breaks once `rendered` reaches the ceiling. */
  method AdmitInView(candidates: seq<Earthquake>, contains: (real, real) -> bool, maxRender: nat)
    returns (inViewport: set<string>, rendered: nat)
    ensures rendered == |Take(Filter(candidates, InView(contains)), maxRender)|
    ensures inViewport == IdSet(Take(Filter(candidates, InView(contains)), maxRender))
  {
    inViewport := {};
    rendered := 0;
    var i := 0;
    while i < |candidates|
      invariant 0 <= i <= |candidates|
      invariant rendered == |Filter(candidates[..i], InView(contains))| <= maxRender
      invariant inViewport == IdSet(Filter(candidates[..i], InView(contains)))
    {
      if rendered >= maxRender {
        break;
      }
      var eq := candidates[i];
      ghost var before := Filter(candidates[..i], InView(contains));
      FilterPrefixStep(candidates, i, InView(contains));
      if contains(eq.latitude, eq.longitude) {
        assert Filter(candidates[..i + 1], InView(contains)) == before + [eq];
        IdSetSnoc(before, eq);
        inViewport := inViewport + {eq.id};
        rendered := rendered + 1;
      } else {
        assert Filter(candidates[..i + 1], InView(contains)) == before;
      }
      i := i + 1;
    }
    FirstLoopTakes(candidates, i, InView(contains), maxRender);
  }

  /** The backfill loop: adds the id of every record of `backfill`. */
  method AddIds(ids: set<string>, backfill: seq<Earthquake>) returns (r: set<string>)
    ensures r == ids + IdSet(backfill)
  {
    r := ids;
    var j := 0;
    while j < |backfill|
      invariant 0 <= j <= |backfill|
      invariant r == ids + IdSet(backfill[..j])
    {
      assert backfill[..j + 1] == backfill[..j] + [backfill[j]];
      IdSetSnoc(backfill[..j], backfill[j]);
      r := r + {backfill[j].id};
      j := j + 1;
    }
    assert backfill[..j] == backfill;
  }

  /** The first loop stops after i candidates having admitted `Take(.., limit)`: either it
      ran out of candidates, or it broke once the ceiling was reached. */
  lemma FirstLoopTakes(s: seq<Earthquake>, i: nat, p: Earthquake -> bool, limit: nat)
    requires i <= |s| && |Filter(s[..i], p)| <= limit
    requires i < |s| ==> |Filter(s[..i], p)| >= limit
    ensures Filter(s[..i], p) == Take(Filter(s, p), limit)
  {
    FilterPrefix(s, i, p);
    if i == |s| {
      assert s[..i] == s;
    }
  }

  // ----- What the selection promises -----

  lemma {:induction false} UniqueIdSetSize(s: seq<Earthquake>)
    requires UniqueIds(s)
    ensures |IdSet(s)| == |s|
  {
    if s != [] {
      var init := s[..|s| - 1];
      UniqueIdSetSize(init);
      if s[|s| - 1].id in IdSet(init) {
        var i := IdOwner(init, s[|s| - 1].id);
        assert false;
      }
    }
  }

  lemma {:induction false} FilterKeepsUnique(s: seq<Earthquake>, p: Earthquake -> bool)
    requires UniqueIds(s)
    ensures UniqueIds(Filter(s, p))
  {
    if s != [] {
      var init := s[..|s| - 1];
      var last := s[|s| - 1];
      FilterKeepsUnique(init, p);
      FilterMembership(init, p);
      var f := Filter(init, p);
      forall x | x in f
        ensures x.id != last.id
      {
        var k :| 0 <= k < |init| && init[k] == x;
        assert s[k] == x;
      }
    }
  }

  lemma SameIdSameRecord(s: seq<Earthquake>, a: Earthquake, b: Earthquake)
    requires UniqueIds(s) && a in s && b in s && a.id == b.id
    ensures a == b
  {
    var i :| 0 <= i < |s| && s[i] == a;
    var j :| 0 <= j < |s| && s[j] == b;
    assert s[i].id == s[j].id;
  }

  lemma TakeKeepsUnique(s: seq<Earthquake>, n: nat)
    requires UniqueIds(s)
    ensures UniqueIds(Take(s, n))
  {
  }

  /** The selection never exceeds the render ceiling, whatever the ids. */
  lemma SelectionWithinCeiling(candidates: seq<Earthquake>, zoom: real, contains: (real, real) -> bool)
    ensures |Selection(candidates, zoom, contains)| <= MaxRender(zoom)
  {
    var first := InViewPass(candidates, zoom, contains);
    var backfill := BackfillPass(candidates, zoom, contains);
    assert |backfill| <= MaxRender(zoom) - |first|;
    assert |IdSet(first) + IdSet(backfill)| <= |IdSet(first)| + |IdSet(backfill)|;
  }

  /** When no more in-bounds candidates exist than the ceiling, every one of them is selected. */
  lemma AllInViewSelected(candidates: seq<Earthquake>, zoom: real, contains: (real, real) -> bool)
    requires |Filter(candidates, InView(contains))| <= MaxRender(zoom)
    ensures forall e :: e in candidates && contains(e.latitude, e.longitude) ==>
              e.id in Selection(candidates, zoom, contains)
  {
    FilterMembership(candidates, InView(contains));
    assert InViewPass(candidates, zoom, contains) == Filter(candidates, InView(contains));
  }

  /** Below zoom 6 there is no backfill: with unique ids every visible record is in bounds. */
  lemma LowZoomOnlyInView(candidates: seq<Earthquake>, zoom: real, contains: (real, real) -> bool)
    requires zoom < 6.0 && UniqueIds(candidates)
    ensures forall e :: e in Filter(candidates, Marked(Selection(candidates, zoom, contains))) ==>
              contains(e.latitude, e.longitude)
  {
    var selection := Selection(candidates, zoom, contains);
    var inView := Filter(candidates, InView(contains));
    var first := InViewPass(candidates, zoom, contains);
    assert selection == IdSet(first);
    FilterMembership(candidates, Marked(selection));
    FilterMembership(candidates, InView(contains));
    forall e | e in Filter(candidates, Marked(selection))
      ensures contains(e.latitude, e.longitude)
    {
      var i := IdOwner(first, e.id);
      assert first[i] in inView;
      SameIdSameRecord(candidates, e, first[i]);
    }
  }

  /** From zoom 6 on, while the in-bounds candidates do not fill the ceiling, they are all
      taken, and the backfill is the out-of-bounds candidates in candidate order, as many as
      the ceiling leaves room for. */
  lemma BackfillIsOutOfView(candidates: seq<Earthquake>, zoom: real, contains: (real, real) -> bool)
    requires zoom >= 6.0 && UniqueIds(candidates)
    requires |Filter(candidates, InView(contains))| < MaxRender(zoom)
    ensures InViewPass(candidates, zoom, contains) == Filter(candidates, InView(contains))
    ensures BackfillPass(candidates, zoom, contains) ==
              Take(Filter(candidates, OutOfView(contains)), MaxRender(zoom) - |Filter(candidates, InView(contains))|)
  {
    assert InViewPass(candidates, zoom, contains) == Filter(candidates, InView(contains));
    BackfillPredicate(candidates, contains);
  }

  lemma BackfillPredicate(candidates: seq<Earthquake>, contains: (real, real) -> bool)
    requires UniqueIds(candidates)
    ensures Filter(candidates, Unmarked(IdSet(Filter(candidates, InView(contains))))) ==
            Filter(candidates, OutOfView(contains))
  {
    var inView := Filter(candidates, InView(contains));
    var ids := IdSet(inView);
    FilterMembership(candidates, InView(contains));
    forall i | 0 <= i < |candidates|
      ensures Unmarked(ids)(candidates[i]) == OutOfView(contains)(candidates[i])
    {
      var e := candidates[i];
      if e.id in ids {
        var k := IdOwner(inView, e.id);
        assert inView[k] in inView;
        SameIdSameRecord(candidates, e, inView[k]);
      }
    }
    FilterExtensional(candidates, Unmarked(ids), OutOfView(contains));
  }

  /** Records on different sides of the viewport have different ids. */
  lemma PassesDisjoint(candidates: seq<Earthquake>, contains: (real, real) -> bool, first: seq<Earthquake>, backfill: seq<Earthquake>)
    requires UniqueIds(candidates)
    requires forall e :: e in first ==> e in candidates && contains(e.latitude, e.longitude)
    requires forall e :: e in backfill ==> e in candidates && !contains(e.latitude, e.longitude)
    ensures IdSet(first) * IdSet(backfill) == {}
  {
    forall id | id in IdSet(first) * IdSet(backfill)
      ensures false
    {
      var a := IdOwner(first, id);
      var b := IdOwner(backfill, id);
      assert first[a] in first && backfill[b] in backfill;
      SameIdSameRecord(candidates, first[a], backfill[b]);
    }
  }

  /** From zoom 6 on, with unique ids, the ceiling is filled as far as the candidates allow. */
  lemma HighZoomFills(candidates: seq<Earthquake>, zoom: real, contains: (real, real) -> bool)
    requires zoom >= 6.0 && UniqueIds(candidates)
    ensures |Selection(candidates, zoom, contains)| == Min(MaxRender(zoom), |candidates|)
  {
    var limit := MaxRender(zoom);
    var inView := Filter(candidates, InView(contains));
    var first := InViewPass(candidates, zoom, contains);
    FilterKeepsUnique(candidates, InView(contains));
    TakeKeepsUnique(inView, limit);
    UniqueIdSetSize(first);
    if |inView| < limit {
      BackfilledSize(candidates, zoom, contains);
    } else {
      FilterPartition(candidates, InView(contains), OutOfView(contains));
      assert BackfillPass(candidates, zoom, contains) == [];
    }
  }

  /** The case with room left: the two passes are disjoint and add up. */
  lemma BackfilledSize(candidates: seq<Earthquake>, zoom: real, contains: (real, real) -> bool)
    requires zoom >= 6.0 && UniqueIds(candidates)
    requires |Filter(candidates, InView(contains))| < MaxRender(zoom)
    ensures |Selection(candidates, zoom, contains)| == Min(MaxRender(zoom), |candidates|)
  {
    var limit := MaxRender(zoom);
    var inView := Filter(candidates, InView(contains));
    var outside := Filter(candidates, OutOfView(contains));
    var first := InViewPass(candidates, zoom, contains);
    var backfill := BackfillPass(candidates, zoom, contains);
    BackfillIsOutOfView(candidates, zoom, contains);
    assert first == inView && backfill == Take(outside, limit - |inView|);
    FilterPartition(candidates, InView(contains), OutOfView(contains));
    FilterKeepsUnique(candidates, InView(contains));
    FilterKeepsUnique(candidates, OutOfView(contains));
    TakeKeepsUnique(outside, limit - |inView|);
    UniqueIdSetSize(first);
    UniqueIdSetSize(backfill);
    FilterMembership(candidates, InView(contains));
    FilterMembership(candidates, OutOfView(contains));
    PassesDisjoint(candidates, contains, first, backfill);
    var a, b := IdSet(first), IdSet(backfill);
    assert |a + b| == |a| + |b|;
    assert |a| + |b| == |inView| + Min(limit - |inView|, |outside|);
  }
}
