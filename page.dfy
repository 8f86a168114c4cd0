/** The home page (app/page.tsx): the client-side filter over the fetched records, the
    settings restored from local storage, and the request the page sends. */
module Page {
  import opened Common
  import opened Earthquakes

  // ----- The filter panel's values -----

  /** The filter state. Numeric bounds are the text of their input boxes. */
  datatype Filters = Filters(
    dateRange: string,
    startDate: Option<string>,
    endDate: Option<string>,
    minMagnitude: string,
    maxMagnitude: string,
    minDepth: string,
    maxDepth: string,
    sources: seq<string>,
    showTectonicPlates: bool,
    showTurkeyFaults: bool,
    showWaveAnimation: bool,
    showCities: bool)

  /** parseFloat: None when the text does not parse (NaN). */
  type ParseFloat = string -> Option<real>

  /** A bound applies only when its text is non-empty and parses to a number. */
  function ActiveBound(text: string, parse: ParseFloat): (b: Option<real>)
    ensures b.Some? <==> text != "" && parse(text).Some?
    ensures b.Some? ==> b == parse(text)
  {
    if text != "" && parse(text).Some? then parse(text) else None
  }

  predicate MinMagnitudeOk(f: Filters, parse: ParseFloat, e: Earthquake)
  {
    var b := ActiveBound(f.minMagnitude, parse); b.Some? ==> e.magnitude >= b.value
  }

  predicate MaxMagnitudeOk(f: Filters, parse: ParseFloat, e: Earthquake)
  {
    var b := ActiveBound(f.maxMagnitude, parse); b.Some? ==> e.magnitude <= b.value
  }

  predicate MinDepthOk(f: Filters, parse: ParseFloat, e: Earthquake)
  {
    var b := ActiveBound(f.minDepth, parse); b.Some? ==> e.depth >= b.value
  }

  predicate MaxDepthOk(f: Filters, parse: ParseFloat, e: Earthquake)
  {
    var b := ActiveBound(f.maxDepth, parse); b.Some? ==> e.depth <= b.value
  }

  /** An empty source list means no source filter. */
  predicate SourceOk(f: Filters, e: Earthquake)
  {
    |f.sources| > 0 ==> SourceName(e.source) in f.sources
  }

  /** The records the page shows: every active predicate at once. */
  predicate Matches(f: Filters, parse: ParseFloat, e: Earthquake)
  {
    MinMagnitudeOk(f, parse, e) && MaxMagnitudeOk(f, parse, e) &&
    MinDepthOk(f, parse, e) && MaxDepthOk(f, parse, e) && SourceOk(f, e)
  }

  function MatchPredicate(f: Filters, parse: ParseFloat): Earthquake -> bool
  {
    (e: Earthquake) => Matches(f, parse, e)
  }

  /** The first k of the five filters, in the order the page applies them. */
  predicate FirstChecks(f: Filters, parse: ParseFloat, k: nat, e: Earthquake)
  {
    && (k > 0 ==> MinMagnitudeOk(f, parse, e))
    && (k > 1 ==> MaxMagnitudeOk(f, parse, e))
    && (k > 2 ==> MinDepthOk(f, parse, e))
    && (k > 3 ==> MaxDepthOk(f, parse, e))
    && (k > 4 ==> SourceOk(f, e))
  }

  function FirstChecksPredicate(f: Filters, parse: ParseFloat, k: nat): Earthquake -> bool
  {
    (e: Earthquake) => FirstChecks(f, parse, k, e)
  }

  /** The predicate each stage filters by. */
  function AtLeastMagnitude(min: real): Earthquake -> bool { (e: Earthquake) => e.magnitude >= min }
  function AtMostMagnitude(max: real): Earthquake -> bool { (e: Earthquake) => e.magnitude <= max }
  function AtLeastDepth(min: real): Earthquake -> bool { (e: Earthquake) => e.depth >= min }
  function AtMostDepth(max: real): Earthquake -> bool { (e: Earthquake) => e.depth <= max }
  function FromSources(sources: seq<string>): Earthquake -> bool { (e: Earthquake) => SourceName(e.source) in sources }

  /** What stage k of the memo does to the list it receives. */
  function StageResult(filtered: seq<Earthquake>, f: Filters, parse: ParseFloat, k: nat): seq<Earthquake>
    requires k < 5
  {
    match k
    case 0 => var b := ActiveBound(f.minMagnitude, parse); if b.Some? then Filter(filtered, AtLeastMagnitude(b.value)) else filtered
    case 1 => var b := ActiveBound(f.maxMagnitude, parse); if b.Some? then Filter(filtered, AtMostMagnitude(b.value)) else filtered
    case 2 => var b := ActiveBound(f.minDepth, parse); if b.Some? then Filter(filtered, AtLeastDepth(b.value)) else filtered
    case 3 => var b := ActiveBound(f.maxDepth, parse); if b.Some? then Filter(filtered, AtMostDepth(b.value)) else filtered
    case 4 => if |f.sources| > 0 then Filter(filtered, FromSources(f.sources)) else filtered
  }

  /** Stage k adds the k-th check to those already applied. */
  lemma NarrowStep(earthquakes: seq<Earthquake>, f: Filters, parse: ParseFloat, k: nat, filtered: seq<Earthquake>)
    requires k < 5
    requires filtered == Filter(earthquakes, FirstChecksPredicate(f, parse, k))
    ensures StageResult(filtered, f, parse, k) == Filter(earthquakes, FirstChecksPredicate(f, parse, k + 1))
  {
    var before, after := FirstChecksPredicate(f, parse, k), FirstChecksPredicate(f, parse, k + 1);
    match k
    case 0 =>
      var b := ActiveBound(f.minMagnitude, parse);
      if b.Some? { FilterThen(earthquakes, before, AtLeastMagnitude(b.value), after); }
      else { FilterExtensional(earthquakes, before, after); }
    case 1 =>
      var b := ActiveBound(f.maxMagnitude, parse);
      if b.Some? { FilterThen(earthquakes, before, AtMostMagnitude(b.value), after); }
      else { FilterExtensional(earthquakes, before, after); }
    case 2 =>
      var b := ActiveBound(f.minDepth, parse);
      if b.Some? { FilterThen(earthquakes, before, AtLeastDepth(b.value), after); }
      else { FilterExtensional(earthquakes, before, after); }
    case 3 =>
      var b := ActiveBound(f.maxDepth, parse);
      if b.Some? { FilterThen(earthquakes, before, AtMostDepth(b.value), after); }
      else { FilterExtensional(earthquakes, before, after); }
    case 4 =>
      if |f.sources| > 0 { FilterThen(earthquakes, before, FromSources(f.sources), after); }
      else { FilterExtensional(earthquakes, before, after); }
  }

  /** One `if (filters.x) { const v = parseFloat(filters.x); if (!isNaN(v)) filtered = ... }`
      block of the memo (the last stage is the source block). */
  method ApplyStage(filtered: seq<Earthquake>, filters: Filters, parse: ParseFloat, k: nat)
    returns (next: seq<Earthquake>)
    requires k < 5
    ensures next == StageResult(filtered, filters, parse, k)
  {
    next := filtered;
    if k == 4 {
      if |filters.sources| > 0 {
        next := Filter(filtered, FromSources(filters.sources));
      }
      return;
    }
    var text := match k case 0 => filters.minMagnitude case 1 => filters.maxMagnitude
                        case 2 => filters.minDepth case 3 => filters.maxDepth;
    if text != "" {
      var v := parse(text);
      if v.Some? {
        next := Filter(filtered, match k case 0 => AtLeastMagnitude(v.value) case 1 => AtMostMagnitude(v.value)
                                            case 2 => AtLeastDepth(v.value) case 3 => AtMostDepth(v.value));
      }
    }
  }

  /** The filteredEarthquakes memo: starts from a copy and narrows it one bound at a time,
      minimum and maximum magnitude, minimum and maximum depth, then sources. */
  method FilteredEarthquakes(earthquakes: seq<Earthquake>, filters: Filters, parse: ParseFloat)
    returns (filtered: seq<Earthquake>)
    ensures filtered == Filter(earthquakes, MatchPredicate(filters, parse))
  {
    filtered := earthquakes;
    FilterAllKept(earthquakes, FirstChecksPredicate(filters, parse, 0));
    NarrowStep(earthquakes, filters, parse, 0, filtered);
    filtered := ApplyStage(filtered, filters, parse, 0);
    NarrowStep(earthquakes, filters, parse, 1, filtered);
    filtered := ApplyStage(filtered, filters, parse, 1);
    NarrowStep(earthquakes, filters, parse, 2, filtered);
    filtered := ApplyStage(filtered, filters, parse, 2);
    NarrowStep(earthquakes, filters, parse, 3, filtered);
    filtered := ApplyStage(filtered, filters, parse, 3);
    NarrowStep(earthquakes, filters, parse, 4, filtered);
    filtered := ApplyStage(filtered, filters, parse, 4);
    FilterExtensional(earthquakes, FirstChecksPredicate(filters, parse, 5), MatchPredicate(filters, parse));
  }

  /** The memo keeps exactly the records satisfying every active predicate, in their order. */
  lemma FilteredMeaning(earthquakes: seq<Earthquake>, f: Filters, parse: ParseFloat)
    ensures var r := Filter(earthquakes, MatchPredicate(f, parse));
            && IsSubseq(r, earthquakes)
            && forall e :: e in r <==> e in earthquakes && Matches(f, parse, e)
  {
    FilterIsSubseq(earthquakes, MatchPredicate(f, parse));
    FilterMembership(earthquakes, MatchPredicate(f, parse));
  }

  /** Each bound, when its text parses, holds on every shown record; and every shown record
      comes from a listed source when the list is non-empty. */
  lemma ActiveBoundsHold(earthquakes: seq<Earthquake>, f: Filters, parse: ParseFloat, e: Earthquake)
    requires e in Filter(earthquakes, MatchPredicate(f, parse))
    ensures f.minMagnitude != "" && parse(f.minMagnitude).Some? ==> e.magnitude >= parse(f.minMagnitude).value
    ensures f.maxMagnitude != "" && parse(f.maxMagnitude).Some? ==> e.magnitude <= parse(f.maxMagnitude).value
    ensures f.minDepth != "" && parse(f.minDepth).Some? ==> e.depth >= parse(f.minDepth).value
    ensures f.maxDepth != "" && parse(f.maxDepth).Some? ==> e.depth <= parse(f.maxDepth).value
    ensures |f.sources| > 0 ==> SourceName(e.source) in f.sources
    ensures e in earthquakes
  {
    FilterMembership(earthquakes, MatchPredicate(f, parse));
  }

  /** Empty or unparsable bounds and an empty source list show every record. */
  lemma InactiveFiltersKeepAll(earthquakes: seq<Earthquake>, f: Filters, parse: ParseFloat)
    requires f.minMagnitude == "" || parse(f.minMagnitude).None?
    requires f.maxMagnitude == "" || parse(f.maxMagnitude).None?
    requires f.minDepth == "" || parse(f.minDepth).None?
    requires f.maxDepth == "" || parse(f.maxDepth).None?
    requires f.sources == []
    ensures Filter(earthquakes, MatchPredicate(f, parse)) == earthquakes
  {
    FilterAllKept(earthquakes, MatchPredicate(f, parse));
  }

  /** The order of the filters does not matter: filtering by source first and by the numeric
      bounds second gives the same list. */
  lemma FilterOrderIrrelevant(earthquakes: seq<Earthquake>, f: Filters, parse: ParseFloat)
    ensures Filter(Filter(earthquakes, (e: Earthquake) => SourceOk(f, e)),
                   (e: Earthquake) => MinMagnitudeOk(f, parse, e) && MaxMagnitudeOk(f, parse, e) &&
                                      MinDepthOk(f, parse, e) && MaxDepthOk(f, parse, e))
            == Filter(earthquakes, MatchPredicate(f, parse))
  {
    FilterThen(earthquakes, (e: Earthquake) => SourceOk(f, e),
               (e: Earthquake) => MinMagnitudeOk(f, parse, e) && MaxMagnitudeOk(f, parse, e) &&
                                  MinDepthOk(f, parse, e) && MaxDepthOk(f, parse, e),
               MatchPredicate(f, parse));
  }

  // ----- Settings kept in local storage -----

  datatype MapStyle = Light | Satellite | Terrain

  /** The stored blob once parsed; a field that is missing or null is None. */
  datatype StoredSettings = StoredSettings(
    isListOpen: Option<bool>,
    mapStyle: Option<MapStyle>,
    markerSizeMultiplier: Option<real>,
    showLegend: Option<bool>,
    showTectonicPlates: Option<bool>,
    showTurkeyFaults: Option<bool>,
    showWaveAnimation: Option<bool>,
    showCities: Option<bool>)

  datatype Settings = Settings(
    isListOpen: bool,
    mapStyle: MapStyle,
    markerSizeMultiplier: real,
    showLegend: bool,
    showTectonicPlates: bool,
    showTurkeyFaults: bool,
    showWaveAnimation: bool,
    showCities: bool)

  const DefaultSettings: Settings := Settings(true, Light, 1.0, true, true, true, true, true)

  /** `a ?? b` */
  function OrElse<T>(o: Option<T>, default: T): (r: T)
    ensures o.Some? ==> r == o.value
    ensures o.None? ==> r == default
  {
    if o.Some? then o.value else default
  }

  /** loadSettingsFromStorage: nothing stored, an empty string, or a blob JSON.parse rejects
      (or that is not an object) gives null. */
  function LoadSettings(stored: Option<string>, parseJson: string -> Option<StoredSettings>): (r: Option<StoredSettings>)
    ensures stored.None? || stored == Some("") ==> r.None?
    ensures stored.Some? && stored.value != "" ==> r == parseJson(stored.value)
  {
    if stored.Some? && stored.value != "" then parseJson(stored.value) else None
  }

  /** The initial state of each setting: the stored value when there is one, else its default. */
  function InitialSettings(stored: Option<StoredSettings>): (s: Settings)
    ensures stored.None? ==> s == DefaultSettings
  {
    if stored.None? then DefaultSettings
    else
      var st := stored.value;
      Settings(
        OrElse(st.isListOpen, true),
        OrElse(st.mapStyle, Light),
        OrElse(st.markerSizeMultiplier, 1.0),
        OrElse(st.showLegend, true),
        OrElse(st.showTectonicPlates, true),
        OrElse(st.showTurkeyFaults, true),
        OrElse(st.showWaveAnimation, true),
        OrElse(st.showCities, true))
  }

  /** Each field falls back to its own default independently of the others. */
  lemma FieldDefaults(st: StoredSettings)
    ensures InitialSettings(Some(st)).isListOpen == (st.isListOpen != Some(false))
    ensures InitialSettings(Some(st)).mapStyle == (if st.mapStyle.Some? then st.mapStyle.value else Light)
    ensures InitialSettings(Some(st)).markerSizeMultiplier ==
              (if st.markerSizeMultiplier.Some? then st.markerSizeMultiplier.value else 1.0)
    ensures InitialSettings(Some(st)).showLegend == (st.showLegend != Some(false))
    ensures InitialSettings(Some(st)).showTectonicPlates == (st.showTectonicPlates != Some(false))
    ensures InitialSettings(Some(st)).showTurkeyFaults == (st.showTurkeyFaults != Some(false))
    ensures InitialSettings(Some(st)).showWaveAnimation == (st.showWaveAnimation != Some(false))
    ensures InitialSettings(Some(st)).showCities == (st.showCities != Some(false))
    ensures st == StoredSettings(None, None, None, None, None, None, None, None) ==>
              InitialSettings(Some(st)) == DefaultSettings
  {
  }

  /** The object the save effect writes: every setting present. */
  function ToStored(s: Settings): (st: StoredSettings)
    ensures st.isListOpen.Some? && st.mapStyle.Some? && st.markerSizeMultiplier.Some? && st.showLegend.Some?
    ensures st.showTectonicPlates.Some? && st.showTurkeyFaults.Some? && st.showWaveAnimation.Some? && st.showCities.Some?
  {
    StoredSettings(Some(s.isListOpen), Some(s.mapStyle), Some(s.markerSizeMultiplier), Some(s.showLegend),
                   Some(s.showTectonicPlates), Some(s.showTurkeyFaults), Some(s.showWaveAnimation), Some(s.showCities))
  }

  /** What is saved is what the next visit starts with, when JSON.parse reads back what
      JSON.stringify wrote. */
  lemma SaveLoadRoundTrip(s: Settings, serialize: StoredSettings -> string, parseJson: string -> Option<StoredSettings>)
    requires serialize(ToStored(s)) != ""
    requires parseJson(serialize(ToStored(s))) == Some(ToStored(s))
    ensures InitialSettings(LoadSettings(Some(serialize(ToStored(s))), parseJson)) == s
  {
  }

  /** The filters the page starts with: today's data, no bounds, Kandilli and AFAD, and the
      stored layer toggles. */
  function InitialFilters(stored: Option<StoredSettings>): (f: Filters)
    ensures f.dateRange == "today" && f.sources == ["kandilli", "afad"]
    ensures f.minMagnitude == "" && f.maxMagnitude == "" && f.minDepth == "" && f.maxDepth == ""
  {
    var s := InitialSettings(stored);
    Filters("today", None, None, "", "", "", "", ["kandilli", "afad"],
            s.showTectonicPlates, s.showTurkeyFaults, s.showWaveAnimation, s.showCities)
  }

  /** Under the initial filters the page shows the Kandilli and AFAD records, all of them. */
  lemma InitialFiltersShowKandilliAndAfad(earthquakes: seq<Earthquake>, stored: Option<StoredSettings>, parse: ParseFloat)
    ensures forall e :: e in Filter(earthquakes, MatchPredicate(InitialFilters(stored), parse)) <==>
              e in earthquakes && (e.source == Kandilli || e.source == Afad)
  {
    FilterMembership(earthquakes, MatchPredicate(InitialFilters(stored), parse));
  }

  // ----- The request -----

  /** The calendar fields of a Date in local time: getFullYear, getMonth (0-based), getDate. */
  datatype CalendarDate = CalendarDate(year: int, monthIndex: nat, day: nat)

  predicate ValidCalendarDate(d: CalendarDate)
  {
    1000 <= d.year <= 9999 && d.monthIndex < 12 && 1 <= d.day <= 31
  }

  /** String(n).padStart(2, '0'). */
  function Pad2(n: nat): (s: string)
    ensures n < 100 ==> |s| == 2
    ensures forall i :: 0 <= i < |s| ==> '0' <= s[i] <= '9'
    ensures DigitsValue(s) == n
  {
    NatToStringLength(n);
    NatToStringRoundTrip(n);
    if n < 10 then
      var s := "0" + NatToString(n);
      assert s[..1] == "0";
      s
    else NatToString(n)
  }

  /** `${getFullYear()}-${pad(getMonth() + 1)}-${pad(getDate())}` */
  function Ymd(d: CalendarDate): string
  {
    IntToString(d.year) + "-" + Pad2(d.monthIndex + 1) + "-" + Pad2(d.day)
  }

  /** A four-digit year gives the ten characters YYYY-MM-DD, and reading the three fields back
      gives the year, the month counted from 1, and the day. */
  lemma YmdFormat(d: CalendarDate)
    requires ValidCalendarDate(d)
    ensures var s := Ymd(d);
            && |s| == 10 && s[4] == '-' && s[7] == '-'
            && (forall i :: 0 <= i < 10 && i != 4 && i != 7 ==> '0' <= s[i] <= '9')
            && DigitsValue(s[..4]) == d.year
            && DigitsValue(s[5..7]) == d.monthIndex + 1
            && DigitsValue(s[8..]) == d.day
  {
    NatToStringLength(d.year);
    NatToStringRoundTrip(d.year);
    var s := Ymd(d);
    assert s[..4] == NatToString(d.year);
    assert s[5..7] == Pad2(d.monthIndex + 1);
    assert s[8..] == Pad2(d.day);
  }

  const UrlBase: string := "/api/earthquakes?date="
  const DateEndParameter: string := "&date_end="

  /** The request URL; `&date_end=` is appended only when date_end is set and non-empty. */
  function RequestUrl(date: string, dateEnd: Option<string>): (url: string)
    ensures UrlBase + date <= url
    ensures dateEnd.Some? && dateEnd.value != "" ==> url == UrlBase + date + DateEndParameter + dateEnd.value
    ensures dateEnd.None? || dateEnd.value == "" ==> url == UrlBase + date
  {
    UrlBase + date + (if dateEnd.Some? && dateEnd.value != "" then DateEndParameter + dateEnd.value else "")
  }

  predicate Present(o: Option<string>)
  {
    o.Some? && o.value != ""
  }

  /** The URL fetchEarthquakes requests, or None when it returns before fetching. `today` is
      the current local date and `start` the start date the Date arithmetic yields for the
      chosen range. */
  function RequestFor(f: Filters, today: CalendarDate, start: CalendarDate): (url: Option<string>)
    ensures f.dateRange == "custom" && (!Present(f.startDate) || !Present(f.endDate)) ==> url.None?
    ensures f.dateRange == "custom" && Present(f.startDate) && Present(f.endDate) ==>
              url == Some(UrlBase + f.startDate.value + DateEndParameter + f.endDate.value)
    ensures f.dateRange != "custom" ==> url == Some(UrlBase + Ymd(start) + DateEndParameter + Ymd(today))
  {
    if f.dateRange == "custom" && (!Present(f.startDate) || !Present(f.endDate)) then None
    else
      var date := if f.dateRange == "custom" then f.startDate.value else Ymd(start);
      var dateEnd := if f.dateRange == "custom" then f.endDate.value else Ymd(today);
      // The `!date` fallback: `date` is never empty here, so it never applies.
      var date' := if date == "" then Ymd(today) else date;
      Some(RequestUrl(date', Some(dateEnd)))
  }

  /** Every request the page sends carries a date_end. */
  lemma RequestsCarryDateEnd(f: Filters, today: CalendarDate, start: CalendarDate)
    requires RequestFor(f, today, start).Some?
    ensures exists date, dateEnd :: dateEnd != "" && RequestFor(f, today, start) == Some(RequestUrl(date, Some(dateEnd)))
  {
    if f.dateRange == "custom" {
      assert RequestFor(f, today, start) == Some(RequestUrl(f.startDate.value, Some(f.endDate.value)));
    } else {
      assert RequestFor(f, today, start) == Some(RequestUrl(Ymd(start), Some(Ymd(today))));
    }
  }
}
