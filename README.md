# Earthquake map: a verified model of its data pipeline and map logic

This project models, in Dafny, the logic of a web application that shows recent earthquakes
in and around Turkey. It covers five parts:

- **Server-side aggregation.** Each provider's archive is read page by page. The records
  of both providers are combined and kept only inside the Turkey bounding box. Records
  that describe the same event are merged, and the rest are sorted newest first.
- **AFAD normalisation.** Raw AFAD archive items become canonical earthquake records.
- **Map density control.** A magnitude floor and a marker cap both depend on the zoom
  level. Markers are picked in the viewport first and then backfilled from outside it.
- **Map helpers.** Marker colours and sizes, the icon cache, the distance tool, and the
  statistics of a selected rectangle.
- **Client filtering and panels.** The page's magnitude, depth and source filter, its
  settings defaults, and the request it sends. Also the list's sort orders and badges,
  and the filter panel's source toggle and summary.

Magnitudes, depths and coordinates are exact reals and instants are integers
(milliseconds). Each module matches one component:

| module | file | models |
|---|---|---|
| `Common` | common.dfy | `Array.prototype.filter`, `slice`, `Math.round`, `Math.max`/`Math.min`, sums, decimal rendering |
| `Earthquakes` | earthquake.dfy | the record type and the magnitude classes every table uses |
| `Sorting` | sorting.dfy | a stable sort by a numeric key, descending; ascending is the descending sort of the negated key |
| `Paginator` | paginator.dfy | `fetchAllPages` |
| `Deduplication` | dedup.dfy | `removeDuplicates` |
| `Aggregator` | aggregator.dfy | `isInTurkeyBounds`, `getAllEarthquakes` |
| `AfadArchive` | afad.dfy | `getAFADArchive` |
| `Viewport` | zoomfilter.dfy | `filterByZoom` and the `ZoomFilter` component's cap, viewport and backfill |
| `Markers` | markers.dfy | marker colours, sizes and the icon cache |
| `Measure` | measure.dfy | the measuring tool's state machine |
| `AreaStatistics` | areastats.dfy | `handleAreaSelected` |
| `Page` | page.dfy | the page's filter memo, its settings and its request |
| `EarthquakeList` | earthquakelist.dfy | the list's badges, sort labels, sort orders and summary |
| `FilterPanel` | filterpanel.dfy | `handleFilterChange`, `handleSourceToggle` and the panel's summary |

Where the code changes state in place, the model does the same:

- The paginator loop, the deduplicating `Map`, the provider status object, the forEach of
  the AFAD adapter, the per-date counters and the five steps of the page filter are
  methods with loops or sequential updates. Each is proved equal to a specification
  function, except the provider status object: `Aggregator.GetAllEarthquakes` states the
  literal status of each provider at each outcome, and its result as a multiset.
- The ZoomFilter component, the icon cache, the measuring tool and the area selection are
  classes whose methods update their fields.
- At zoom 8 and above, the in-place sort reorders the caller's array. It is an `array`.

Behaviour of the code worth knowing:

- `getAllEarthquakes` awaits the Kandilli paginator before the AFAD one; it does not run
  them in parallel.
- `fetchAllPages` swallows every exception, so a provider that always fails still ends
  with status `loaded`. Its result is empty.
- The deduplication key rounds the timestamp to the nearest minute with `Math.round`,
  not down.
- At zoom 8 and above, `filterByZoom` returns the caller's own array. The sort that
  follows then reorders the caller's array (`Viewport.ZoomFilter.RefreshCandidates`).
- The page always sends `date_end`, so the URL always contains `&date_end=`. The `!date`
  fallback of `fetchEarthquakes` never fires (`Page.RequestsCarryDateEnd`).

## Model

| member | source | states |
|---|---|---|
| Earthquakes.SourceNameInjective | types/earthquake.ts:10 | the four source literals are distinct, so a source name identifies its provider |
| Earthquakes.MagnitudeBand | components/MapView.tsx:41-48 | the class of a magnitude is 0 below 3, 5 at 7 and above, and b exactly when b+2 <= m < b+3 in between |
| Earthquakes.MagnitudeBandMonotone | components/MapView.tsx:41-48 | a larger magnitude never falls in a lower class |
| Common.JsRound | lib/api/index.ts:111 | `Math.round` is the integer within a half below or exactly a half above the value |
| Common.JsRoundMonotone | lib/api/index.ts:111 | `Math.round` is monotone |
| Common.FilterMembership | lib/api/index.ts:83-85 | `filter` keeps exactly the elements satisfying the predicate |
| Common.FilterIsSubseq | lib/api/index.ts:83-85 | `filter` output is an order-preserving subsequence of its input |
| Common.FilterFilter | app/page.tsx:218-246 | two filters in a row equal one filter by the conjunction, in either order |
| Common.FilterPartition | components/MapView.tsx:1621-1627 | a predicate and its negation split a list into two parts whose sizes add up to its length |
| Common.MaxOf | components/MapView.tsx:1720 | `Math.max(...xs)` is an element of xs and bounds every element |
| Common.MinOf | components/MapView.tsx:1721 | `Math.min(...xs)` is an element of xs and is below every element |
| Common.MeanOf | components/MapView.tsx:1722 | the average of a non-empty list lies between its minimum and its maximum |
| Common.NatToStringRoundTrip | app/page.tsx:124 | reading the digits of `String(n)` back gives n |
| Sorting.SortDesc | lib/api/index.ts:89 | the comparator sort returns a permutation of its input, ordered by non-increasing key |
| Sorting.SortedMembers | lib/api/index.ts:89 | sorting keeps exactly the same records |
| Paginator.StopIndex | lib/api/index.ts:36-53 | the first call from k on that ends the loop (an empty page, a short page or a throw), with no earlier such call |
| Paginator.CallCount | lib/api/index.ts:36-54 | the loop calls the fetch function at least once and never past the first call that stops it |
| Paginator.FetchAllPages | lib/api/index.ts:26-57 | the result is the concatenation of the pages received, in call order; the k-th call uses skip = k * limit |
| Paginator.CallsBeforeLastWereFull | lib/api/index.ts:40-50 | every call before the last one returned a full, non-empty page |
| Paginator.FullPagesThenShort | lib/api/index.ts:36-50 | full pages followed by one short page give exactly that many calls and all their records |
| Paginator.StopAtLast | lib/api/index.ts:45-46 | with full pages then a short one, the loop stops at the short page |
| Paginator.ReceivedLength | lib/api/index.ts:43 | n full pages contribute n * limit records |
| Paginator.EmptyFirstPage | lib/api/index.ts:40-41 | an empty first page means one call and no records |
| Paginator.ThrowKeepsEarlierPages | lib/api/index.ts:51-53 | a throwing call ends the loop, adds nothing and keeps the earlier pages |
| Paginator.StopAtThrow | lib/api/index.ts:51-53 | the loop stops at the first call that throws |
| Paginator.AlwaysThrowing | lib/api/index.ts:51-56 | a fetch function that throws at once gives one call and the empty list; the paginator itself never throws |
| Paginator.ThreePageScenario | lib/api/index.ts:36-50 | pages of 100, 100 and 47 records give 3 calls and 247 records |
| Deduplication.FirstKeys | lib/api/index.ts:108-118 | the keys in order of first appearance: each key of the input exactly once |
| Deduplication.FirstIndex | lib/api/index.ts:113 | the first position holding a given key |
| Deduplication.KeptIndex | lib/api/index.ts:113-114 | the record kept for a key has the largest magnitude of its group, and every earlier record of the group is strictly weaker |
| Deduplication.Dedup | lib/api/index.ts:107-119 | at most one record per key, each an input record, in first-appearance order of the keys |
| Deduplication.ScanTracks | lib/api/index.ts:110-116 | the loop's `Map` holds exactly the keys seen so far, each mapped to its kept record, in insertion order |
| Deduplication.RemoveDuplicates | lib/api/index.ts:107-119 | the loop over the `Map` returns exactly `Dedup` of its input |
| Deduplication.EveryKeyRepresented | lib/api/index.ts:110-118 | every input record's key appears in the output |
| Deduplication.KeptIsFirstMaximum | lib/api/index.ts:113-114 | the output record of a key beats every record of its group and strictly beats every earlier one |
| Deduplication.OutputInFirstAppearanceOrder | lib/api/index.ts:118 | output order is the order in which keys first appear in the input |
| Deduplication.NearbyPairScenario | lib/api/index.ts:111 | two records 0.004 degrees and 30 seconds apart merge into the stronger one, or stay apart, depending on where the minute rounds |
| Aggregator.TurkeyBoundsInclusive | lib/api/index.ts:5-19 | the box is 35.5..42.0 by 25.5..45.0 with every edge included, and nothing beyond an edge is in it |
| Aggregator.FailPending | lib/api/index.ts:96-97 | a status still `loading` becomes `error`, and any other status is kept |
| Aggregator.GetAllEarthquakes | lib/api/index.ts:59-105 | on success both statuses are `loaded`, every record is in the box, timestamps do not increase, the output is a permutation of the deduplicated in-box records and no longer than the inputs together; a throw at each of the three progress calls gives [] and the statuses that were still loading become `error` |
| Aggregator.OutsideRecordDropped | lib/api/index.ts:83-87 | a record far outside the box never reaches the output |
| AfadArchive.ItemInstant | lib/api/afad-archive.ts:32-45 | the instant is created_at seconds when truthy and valid, otherwise the parsed date_time when truthy, otherwise now; an invalid date becomes now |
| AfadArchive.GetAfadArchive | lib/api/afad-archive.ts:24-66 | the forEach with its fallback chain returns exactly `Archive` of the response |
| AfadArchive.EmittedPositions | lib/api/afad-archive.ts:28-29 | the positions of the items that pass the guard (coordinates present and a numeric `mag`), in increasing order, each once |
| AfadArchive.KeepFollowsItems | lib/api/afad-archive.ts:28-47 | the j-th record is built from the j-th emitted item, so records keep the order of their items |
| AfadArchive.RecordsReadTheirItems | lib/api/afad-archive.ts:30-57 | each record has source `afad`; latitude is coordinates[1] and longitude coordinates[0]; depth is 0 when missing or falsy; the location defaults; the id starts with `afad-` and embeds earthquake_id when present; the timestamp is `ItemInstant` |
| AfadArchive.ArchiveNoLonger | lib/api/afad-archive.ts:27-29 | items are only dropped, so the output is no longer than `result` |
| AfadArchive.ArchiveFailuresAreEmpty | lib/api/afad-archive.ts:27 | a failed request, a null body, a falsy status, a missing or non-array result, or a null element gives [] |
| Viewport.FilterByZoom | components/MapView.tsx:27-39 | an order-preserving subsequence holding exactly the records above the zoom's floor (none at 8+, 2.5, 3.0, 3.5, else 4.0); the input itself at zoom 8+ |
| Viewport.ZoomFloorMonotone | components/MapView.tsx:27-39 | a record kept at one zoom is kept at every higher zoom |
| Viewport.FloorMonotone | components/MapView.tsx:27-39 | a magnitude above the floor of one zoom is above the floor of every higher zoom |
| Viewport.Candidates | components/MapView.tsx:176-179 | sorted by non-increasing magnitude, min(n, cap) long with cap 2000/1000/500/200, every candidate visible at the zoom, and drawn from the zoom-filtered input without repeating any record more often than it occurs there, and every record the cap leaves out is no stronger than any candidate (so the candidates are the strongest) |
| Viewport.CandidatesKeepUnique | components/MapView.tsx:176-179 | when the records have unique ids, so do the candidates |
| Viewport.UniqueIdsSubMultiset | components/MapView.tsx:176-179 | a list drawn, with multiplicities, from a list with unique ids has unique ids |
| Viewport.CapKeepsStrongest | components/MapView.tsx:179 | a visible record that the cap leaves out has a magnitude at most that of every candidate |
| Viewport.TakeLeavesWeaker | components/MapView.tsx:178-179 | slicing a list sorted strongest first leaves out only records no stronger than any record kept |
| Viewport.IdSet | components/MapView.tsx:201 | the ids of a list, no more of them than records |
| Viewport.IdOwner | components/MapView.tsx:201 | every id in the set belongs to a record of the list |
| Viewport.InViewPass | components/MapView.tsx:194-204 | the in-view pass selects at most the render ceiling of 1500/800/400/200 |
| Viewport.ZoomFilter.constructor | components/MapView.tsx:148-151 | the component starts with its zoom and bounds, no candidates and no visible markers |
| Viewport.ZoomFilter.ZoomEnd | components/MapView.tsx:156-158 | a zoom event changes only the zoom |
| Viewport.ZoomFilter.MoveEnd | components/MapView.tsx:160-162 | a move event changes only the bounds |
| Viewport.ZoomFilter.RefreshCandidates | components/MapView.tsx:175-183 | the candidates become `Candidates` of the records and the markers are cleared; at zoom 8+ the caller's array ends up sorted by magnitude, otherwise it is unchanged |
| Viewport.ZoomFilter.RefreshViewport | components/MapView.tsx:185-214 | no candidates clears the markers, missing bounds keeps them, otherwise the markers become the in-view pass plus the backfill |
| Viewport.ZoomFilter.VisibleEarthquakes | components/MapView.tsx:216 | the visible list is the candidates whose id is marked, in candidate order |
| Viewport.WriteBack | components/MapView.tsx:179 | the array ends up holding the given sequence |
| Viewport.AdmitInView | components/MapView.tsx:193-204 | the loop with its counter and break selects the ids of the first in-view candidates up to the ceiling, and counts them |
| Viewport.AddIds | components/MapView.tsx:207-210 | the backfill loop adds exactly the ids of the backfilled records |
| Viewport.FirstLoopTakes | components/MapView.tsx:197-204 | stopping at the ceiling takes the first in-view candidates |
| Viewport.UniqueIdSetSize | components/MapView.tsx:193-202 | with unique ids, a list has as many ids as records |
| Viewport.SelectionWithinCeiling | components/MapView.tsx:194-211 | the selection never exceeds the render ceiling |
| Viewport.AllInViewSelected | components/MapView.tsx:197-204 | when the in-view candidates fit under the ceiling, all of them are selected |
| Viewport.LowZoomOnlyInView | components/MapView.tsx:206 | below zoom 6 every visible record is in the viewport |
| Viewport.BackfillIsOutOfView | components/MapView.tsx:206-211 | the backfill is the out-of-view candidates in candidate order, as many as the ceiling leaves |
| Viewport.PassesDisjoint | components/MapView.tsx:207 | the in-view pass and the backfill share no id |
| Viewport.HighZoomFills | components/MapView.tsx:206-211 | at zoom 6 and above, with unique ids, the selection has min(ceiling, number of candidates) records |
| Viewport.BackfilledSize | components/MapView.tsx:206-211 | when fewer records are in view than the ceiling, the in-view records plus the back-filled ones number min(ceiling, candidates) |
| Markers.MagnitudeColor | components/MapView.tsx:41-48 | the colour is the palette entry of the magnitude class |
| Markers.MagnitudeColorDarker | components/MapView.tsx:50-57 | the darker colour is the dark palette entry of the magnitude class |
| Markers.PaletteDistinct | components/MapView.tsx:41-57 | the twelve colours are pairwise distinct |
| Markers.ColorIdentifiesBand | components/MapView.tsx:41-57 | two magnitudes get the same colour exactly when they are in the same class |
| Markers.BaseSize | components/MapView.tsx:60-66 | the base size is 8, 14, 16, 18, 20 or 24 by magnitude class |
| Markers.ZoomScale | components/MapView.tsx:68-77 | the scale lies in 0.65..1.0 and is 1.0 exactly below zoom 8 |
| Markers.ZoomScaleNonIncreasing | components/MapView.tsx:68-77 | zooming in never enlarges the scale |
| Markers.MarkerSize | components/MapView.tsx:79 | the size is the larger of 6 and the rounded product of base size, zoom scale and multiplier |
| Markers.MarkerSizeMonotone | components/MapView.tsx:59-80 | at a fixed zoom and multiplier, the size never decreases with magnitude |
| Markers.MarkerSizeShrinksWithZoom | components/MapView.tsx:68-79 | with a non-negative multiplier, zooming in never enlarges a marker |
| Markers.DefaultMarkerSize | components/MapView.tsx:59-80 | below zoom 8 with the default multiplier, the size is the base size |
| Markers.CacheKey | components/MapView.tsx:85-88 | the key's zoom level is the floor of the zoom |
| Markers.IconCache.CreateCustomIcon | components/MapView.tsx:82-120 | without Leaflet, nothing; a cached key returns the cached icon; otherwise the icon of this magnitude is built and stored under its key |
| Markers.CacheKeyMergesClasses | components/MapView.tsx:85-92 | magnitudes 2.96 and 3.04 share a key at zoom 7 but need different icons; so do multipliers 1.0 and 1.04 at magnitude 7 (24 px and 25 px) |
| Markers.StaleIconScenario | components/MapView.tsx:89-91 | after drawing 2.96, drawing 3.04 returns the 2.96 icon |
| Markers.ClassKeySound | components/MapView.tsx:94-116 | the icon depends only on the magnitude class and the size, so equal class keys mean equal icons |
| Markers.ClassIconCache.CreateCustomIcon | components/MapView.tsx:82-120 | with a key that determines the icon, the cache always returns the icon this magnitude needs, and only ever adds keys |
| Measure.MeasureState.constructor | components/MapView.tsx:1337-1339 | the tool starts off, with no points and no distance |
| Measure.MeasureState.HandleMeasurePoint | components/MapView.tsx:1357-1375 | off or without Leaflet nothing changes; with one point the click completes the pair and sets its distance; otherwise it starts a new measurement; the point count after the click is `PointsAfterClick` of the count before |
| Measure.MeasureState.HandleToggle | components/MapView.tsx:596-604 | the tool flips, and switching it off clears points and distance |
| Measure.MeasureState.HandleClear | components/MapView.tsx:606-609 | points and distance are cleared, and the tool stays as it was |
| Measure.ClicksAlternate | components/MapView.tsx:1360-1374 | iterating the per-click point count from 0, an odd number of clicks gives 1 and an even number 2 |
| Measure.ClickSequence | components/MapView.tsx:1357-1375 | a run of clicks through `HandleMeasurePoint` on the switched-on, empty tool leaves 1 point after an odd number and 2 after an even number, the last click being the last point, with the tool still valid |
| AreaStatistics.SelectArea | components/MapView.tsx:1604-1613 | exactly the records with south <= lat <= north and west <= lng <= east, in their order |
| AreaStatistics.MagnitudeRangesPartition | components/MapView.tsx:1621-1628 | the six magnitude ranges count every selected record exactly once |
| AreaStatistics.DepthRangesCover | components/MapView.tsx:1635-1641 | the five depth ranges count every record of non-negative depth exactly once, and negative depths not at all |
| AreaStatistics.StrongAndShallowCounts | components/MapView.tsx:1715-1716 | strong is the top three magnitude ranges together; shallow is the first depth range plus the negative depths |
| AreaStatistics.SourceSlices | components/MapView.tsx:1630-1633 | the AFAD and Kandilli slices never exceed the selection, and cover it when every record is from those two |
| AreaStatistics.DateCounts | components/MapView.tsx:1643-1651 | one counter per date present in the selection |
| AreaStatistics.DateCountSnoc | components/MapView.tsx:1651 | one more record adds one to its own date's count and nothing to the others |
| AreaStatistics.CountDates | components/MapView.tsx:1649-1658 | the forEach leaves each date's counter equal to the number of records of that date |
| AreaStatistics.DateGroupsCount | components/MapView.tsx:1651 | every date group counts between 1 and the selection size |
| AreaStatistics.StatsOf | components/MapView.tsx:1718-1766 | an empty selection gives zeros and empty lists; otherwise the count, the extremes (attained and bounding every record), each average as the sum over the count and so between the extremes, the three distributions, the date groups and the strong and shallow counts |
| AreaStatistics.AreaSelection.constructor | components/MapView.tsx:1343-1345 | nothing is selected and there are no statistics at first |
| AreaStatistics.AreaSelection.HandleAreaSelected | components/MapView.tsx:1601-1767 | the bounds are stored, the selection is `SelectArea`, and the statistics are those of the selection |
| Page.ActiveBound | app/page.tsx:218-240 | a bound applies exactly when its text is non-empty and parses |
| Page.ApplyStage | app/page.tsx:218-246 | each block filters by its bound only when that bound is active |
| Page.NarrowStep | app/page.tsx:218-246 | each block adds its own check to those already applied |
| Page.FilteredEarthquakes | app/page.tsx:215-249 | the memo returns exactly the input filtered by the conjunction of every active check |
| Page.FilteredMeaning | app/page.tsx:215-249 | the result is an order-preserving subsequence holding exactly the records satisfying every active check |
| Page.ActiveBoundsHold | app/page.tsx:218-246 | every shown record satisfies each active bound and, when sources are listed, comes from one of them |
| Page.InactiveFiltersKeepAll | app/page.tsx:218-246 | empty or unparsable bounds and no sources show every record |
| Page.FilterOrderIrrelevant | app/page.tsx:215-249 | filtering by source first and by the bounds afterwards gives the same list |
| Page.OrElse | app/page.tsx:67-81 | `a ?? b` is the present value, or the default when it is missing |
| Page.LoadSettings | app/page.tsx:43-56 | nothing stored or an empty string gives null; a non-empty blob gives what JSON.parse makes of it, null when it is rejected |
| Page.InitialSettings | app/page.tsx:67-81 | no stored blob gives the defaults: list open, light map, multiplier 1.0, legend and all layers on |
| Page.FieldDefaults | app/page.tsx:67-81 | each of the eight fields is its stored value when present, else its own default (true, `light`, 1); the flags are true unless stored as false; an empty blob gives the defaults |
| Page.ToStored | app/page.tsx:84-95 | the saved object holds every setting |
| Page.SaveLoadRoundTrip | app/page.tsx:43-95 | what the page saves is what it starts with on the next visit |
| Page.InitialFilters | app/page.tsx:70-76 | the page starts with today's range, no bounds, and the sources Kandilli and AFAD |
| Page.InitialFiltersShowKandilliAndAfad | app/page.tsx:70-76 | under the initial filters exactly the Kandilli and AFAD records are shown |
| Page.Pad2 | app/page.tsx:124 | a number below 100 pads to two digits that read back as the number |
| Page.YmdFormat | app/page.tsx:124 | a four-digit year gives YYYY-MM-DD, ten characters with dashes at 4 and 7; the fields read back as year, month counted from 1 and day |
| Page.RequestUrl | app/page.tsx:178 | the URL starts with the date and has `&date_end=` and its value exactly when date_end is non-empty |
| Page.RequestFor | app/page.tsx:112-178 | a custom range without a start or an end date sends nothing; a complete custom range uses its dates; any other range uses the computed start date and today |
| Page.RequestsCarryDateEnd | app/page.tsx:119-178 | every request the page sends carries a non-empty date_end |
| EarthquakeList.BadgeClass | components/EarthquakeList.tsx:18-25 | the badge class is the entry of the magnitude class |
| EarthquakeList.BadgeIdentifiesBand | components/EarthquakeList.tsx:18-25 | the six classes are distinct, so equal badges mean the same magnitude class |
| EarthquakeList.SortLabel | components/EarthquakeList.tsx:27-40 | an unknown key gets the placeholder label, and only an unknown key does |
| EarthquakeList.SortLabelsDistinct | components/EarthquakeList.tsx:27-40 | the four sort keys have four different labels |
| EarthquakeList.SortedEarthquakes | components/EarthquakeList.tsx:76-99 | a permutation of the input, by non-increasing or non-decreasing magnitude or date+time instant as the key says; an unknown key leaves the copy unchanged |
| EarthquakeList.SortIsPermutation | components/EarthquakeList.tsx:77 | the sorted copy holds the same records, as many as the input |
| EarthquakeList.DefaultSortLeadsWithStrongest | components/EarthquakeList.tsx:43 | under the default sort the first record of a non-empty list is the strongest |
| EarthquakeList.Statistics | components/EarthquakeList.tsx:45-74 | an empty list gives zeros; otherwise total is the length, the maxima are elements that bound every record, the average lies between the minimum and the maximum, and today's count is at most the total |
| FilterPanel.ChangeFilter | components/FilterPanel.tsx:42-47 | the named field gets the new value and every other field is unchanged |
| FilterPanel.ChangeFilterLaws | components/FilterPanel.tsx:42-47 | writing a field its own value changes nothing, and of two writes the second wins |
| FilterPanel.ToggleSource | components/FilterPanel.tsx:49-53 | a present source is filtered out, and an absent one is appended |
| FilterPanel.ToggleRemoves | components/FilterPanel.tsx:50-51 | no occurrence of a present source survives, and the other entries stay in order |
| FilterPanel.ToggleAppends | components/FilterPanel.tsx:52 | an absent source goes after all the others, which are unchanged |
| FilterPanel.ToggleTwice | components/FilterPanel.tsx:49-54 | toggling twice restores the set of sources, and the list itself when the source was absent |
| FilterPanel.HandleSourceToggle | components/FilterPanel.tsx:49-54 | only the `sources` field changes, and it becomes the toggled list |
| FilterPanel.Statistics | components/FilterPanel.tsx:56-75 | an empty list gives zeros; otherwise total is the length, the maxima bound every record and are elements, and the average lies between the weakest magnitude and the maximum |

## Left out

- Network I/O. Each provider's request is a finite sequence of page outcomes (a page, or
  a throw); calls past its end answer an empty page. The page's `fetch` and the handling
  of its JSON answer are not modelled.
- The Kandilli adapter is not part of this model; it is a second page sequence. The HTTP
  route handler is thin plumbing and is not modelled.
- `onProgress` callbacks are observed only through where they throw:
  `Aggregator.GetAllEarthquakes` takes the index of the first of the three calls inside
  the `try` that throws. The catch block's own `onProgress` call (lib/api/index.ts:98) is
  assumed not to throw; a callback that throws there would make `getAllEarthquakes`
  reject instead of returning []. The only caller, the HTTP route, passes no callback.
- JavaScript `Date` parsing and formatting are parameters. These are the parser of
  `date_time`, `toISOString`/`toTimeString`, the range arithmetic with
  `setDate`/`setHours`, the instant of `date + ' ' + time`, and the "is today" test.
- `Math.random()` and `Date.now()` in AFAD ids are parameters; only the id's prefix and
  its `earthquake_id` part are stated.
- Floating point. Every number is an exact real, so rounding errors of sums, products and
  averages are not modelled.
- AfadArchive: fields that hold strings where numbers are expected go through
  `parseFloat`. This is not modelled: magnitude, depth and coordinates are reals. A
  coordinates array shorter than two is also not modelled.
- EmittedPositions: the guard at lib/api/afad-archive.ts:29 is `mag !== undefined`, so an
  item whose `mag` is null passes it and becomes a record with a NaN magnitude
  (`parseFloat(null)`). The model has no NaN and treats a null `mag` as absent, so it
  drops that item. Lemmas built on `Emitted`, `Keep` and `Archive` share this gap.
- Leaflet pieces become parameters: `bounds.contains` is a predicate and `distanceTo` a
  function. `L.divIcon` becomes an `Icon` value holding colour, darker colour and size.
- Markers: the cache key's text `${m}-${z}-${k}` is modelled as a triple of integers
  (tenths of magnitude, zoom level, tenths of multiplier). Two keys are equal exactly
  when their texts are.
- AreaStatistics: the parts built from text or time arithmetic are left out. These are
  `hourGroups` (from `parseInt` on the time), `locationGroups`/`topLocations` (string
  splitting), the timeline arrays and their date ordering, `timeIntervals`,
  `avgInterval`, `riskScore` and `activityLevel`. Drawing the selection rectangle is
  also left out.
- Page: a stored settings blob whose fields have the wrong JSON type cannot be
  represented; each stored field is either its own type or missing. localStorage
  itself, the resize listener and the 60-second refresh timer are not modelled.
- EarthquakeList.SortedEarthquakes states sortedness and permutation but not stability.
  It also does not model an unparsable date, which makes the comparator return NaN.
- React scheduling: the two ZoomFilter effects are methods. Calling them in the order
  React runs them is left to the caller. The component's rendering, and the tile, fault
  and plate layers, are not modelled.
- Presentation-only components (settings panel, sidebar, layout, manifest, sitemap, page
  loader, the map wrapper) have no logic to model.

## Findings

| source | as written | input that shows it | evidently intended | confidence | as-written member | corrected member |
|---|---|---|---|---|---|---|
| components/MapView.tsx:85-92 | the icon cache key rounds the magnitude to one decimal (`Math.round(m * 10) / 10`), but the icon's colour and size depend on the unrounded magnitude's class | magnitude 2.96 at zoom 7 draws and caches the green 8 px icon under key `3-7-1`; a later magnitude 3.04 at zoom 7 gets the same key and is drawn with that green 8 px icon instead of its lime 14 px one. The multiplier is rounded the same way: magnitude 7 at zoom 7 with multiplier 1.0, then 1.04, both give key `7-7-1` but need 24 px and 25 px (`Markers.CacheKeyMergesClasses`) | a cache key that determines the icon, such as the magnitude class, the zoom-dependent size and the multiplier | not executed | Markers.StaleIconScenario | Markers.ClassIconCache.CreateCustomIcon |
