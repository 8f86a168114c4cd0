/** getAFADArchive (lib/api/afad-archive.ts): turns one page of the AFAD archive into
    canonical records, dropping items without coordinates or with a missing or null
    magnitude. */
module AfadArchive {
  import opened Common
  import opened Earthquakes

  /** A GeoJSON position: longitude first, then latitude (an altitude may follow). */
  type Position = s: seq<real> | |s| >= 2 witness [0.0, 0.0]

  datatype GeoJson = GeoJson(coordinates: Option<Position>)

  /** One element of the archive's `result` array; None stands for an absent or null field. */
  datatype RawItem = RawItem(
    geojson: Option<GeoJson>,
    mag: Option<real>,
    createdAt: Option<int>,
    dateTime: Option<string>,
    depth: Option<real>,
    title: Option<string>,
    earthquakeId: Option<string>)

  /** An element of `result` is either null or an object. */
  datatype Entry = Null | Item(item: RawItem)

  /** `result` is None when it is missing or not an array. */
  datatype Body = Body(status: bool, result: Option<seq<Entry>>)

  /** What the HTTP request yields: a JSON body (None for a null body), or a failure. */
  datatype Response = Answered(body: Option<Body>) | RequestFailed

  /** What the adapter takes from the JavaScript runtime: the current instant (Date.now()
      and new Date()), the Date string parser (None for an invalid date), the UTC date
      and local time renderings of an instant, and the Math.random() text of the i-th item. */
  datatype Env = Env(
    now: nat,
    parseDate: string -> Option<int>,
    isoDate: int -> string,
    localTime: int -> string,
    random: nat -> string)

  const DefaultLocation: string := "Konum belirtilmemiş"
  const IdPrefix: string := "afad-"

  /** The largest distance from the epoch, in milliseconds, that a JavaScript Date can hold. */
  const MaxTimeValue: int := 8_640_000_000_000_000

  predicate ValidTime(t: int)
  {
    -MaxTimeValue <= t <= MaxTimeValue
  }

  /** JavaScript truthiness of a possibly absent field. */
  predicate TruthyText(o: Option<string>) { o.Some? && o.value != "" }
  predicate TruthyInt(o: Option<int>) { o.Some? && o.value != 0 }
  predicate TruthyReal(o: Option<real>) { o.Some? && o.value != 0.0 }

  /** The guard of line 29, with `mag` a number: geojson.coordinates exists and mag is
      present. A null `mag` is None here, so the item is dropped. */
  predicate Emitted(item: RawItem)
  {
    item.geojson.Some? && item.geojson.value.coordinates.Some? && item.mag.Some?
  }

  /** The instant the record gets: created_at seconds when truthy, else the parsed
      date_time when truthy, else now; a date that comes out invalid is replaced by now. */
  function ItemInstant(item: RawItem, env: Env): (t: int)
    ensures TruthyInt(item.createdAt) && ValidTime(item.createdAt.value * 1000) ==> t == item.createdAt.value * 1000
    ensures TruthyInt(item.createdAt) && !ValidTime(item.createdAt.value * 1000) ==> t == env.now
    ensures !TruthyInt(item.createdAt) && TruthyText(item.dateTime) && env.parseDate(item.dateTime.value).Some? ==>
              t == env.parseDate(item.dateTime.value).value
    ensures t != env.now ==>
              (TruthyInt(item.createdAt) && t == item.createdAt.value * 1000) ||
              (!TruthyInt(item.createdAt) && TruthyText(item.dateTime) && env.parseDate(item.dateTime.value) == Some(t))
  {
    var date :=
      if TruthyInt(item.createdAt) then
        (if ValidTime(item.createdAt.value * 1000) then Some(item.createdAt.value * 1000) else None)
      else if TruthyText(item.dateTime) then env.parseDate(item.dateTime.value)
      else Some(env.now);
    if date.None? then env.now else date.value
  }

  /** The record built from an emitted item whose instant is known (lines 47-57). */
  function ToRecord(item: RawItem, timestamp: int, index: nat, env: Env): (e: Earthquake)
    requires Emitted(item)
  {
    var coords := item.geojson.value.coordinates.value;
    Earthquake(
      IdPrefix + (if TruthyText(item.earthquakeId) then item.earthquakeId.value else NatToString(env.now)) + "-" + env.random(index),
      env.isoDate(timestamp),
      env.localTime(timestamp),
      coords[1],
      coords[0],
      if TruthyReal(item.depth) then item.depth.value else 0.0,
      item.mag.value,
      if TruthyText(item.title) then item.title.value else DefaultLocation,
      Afad,
      timestamp)
  }

  function NormalizeAt(items: seq<Entry>, i: nat, env: Env): Earthquake
    requires i < |items| && items[i].Item? && Emitted(items[i].item)
  {
    ToRecord(items[i].item, ItemInstant(items[i].item, env), i, env)
  }

  predicate NoNulls(items: seq<Entry>)
  {
    forall i :: 0 <= i < |items| ==> items[i].Item?
  }

  /** The forEach over a result array without nulls. */
  function Keep(items: seq<Entry>, env: Env): seq<Earthquake>
    requires NoNulls(items)
  {
    if items == [] then []
    else
      var n := |items| - 1;
      Keep(items[..n], env) + (if Emitted(items[n].item) then [NormalizeAt(items, n, env)] else [])
  }

  /** What getAFADArchive returns. A null element makes `item.geojson` throw, and the
      catch block turns the whole page into []. */
  function Archive(response: Response, env: Env): seq<Earthquake>
  {
    if response.RequestFailed? || response.body.None? then []
    else
      var body := response.body.value;
      if !body.status || body.result.None? then []
      else if !NoNulls(body.result.value) then []
      else Keep(body.result.value, env)
  }

  /** The adapter: the forEach pushes records one by one, and `let date` walks the fallback
      chain of lines 32-45. */
  method GetAfadArchive(response: Response, env: Env) returns (earthquakes: seq<Earthquake>)
    ensures earthquakes == Archive(response, env)
  {
    earthquakes := [];
    if response.RequestFailed? {
      return;
    }
    var data := response.body;
    if data.Some? && data.value.status && data.value.result.Some? {
      var items := data.value.result.value;
      var i := 0;
      while i < |items|
        invariant 0 <= i <= |items|
        invariant NoNulls(items[..i]) && earthquakes == Keep(items[..i], env)
      {
        assert items[..i + 1][..i] == items[..i];
        match items[i]
        case Null =>
          earthquakes := [];
          return;
        case Item(item) =>
          if Emitted(item) {
            var date: Option<int>;
            if TruthyInt(item.createdAt) {
              date := if ValidTime(item.createdAt.value * 1000) then Some(item.createdAt.value * 1000) else None;
            } else if TruthyText(item.dateTime) {
              date := env.parseDate(item.dateTime.value);
            } else {
              date := Some(env.now);
            }
            if date.None? {
              date := Some(env.now);
            }
            var timestamp := date.value;
            earthquakes := earthquakes + [ToRecord(item, timestamp, i, env)];
          }
        i := i + 1;
      }
      assert items[..i] == items;
    }
  }

  // ----- What the adapter promises -----

  /** The positions of the items that produce a record, each once and in increasing order. */
  function EmittedPositions(items: seq<Entry>): (ps: seq<nat>)
    requires NoNulls(items)
    ensures forall j :: 0 <= j < |ps| ==> ps[j] < |items| && Emitted(items[ps[j]].item)
    ensures forall j, k :: 0 <= j < k < |ps| ==> ps[j] < ps[k]
    ensures forall i :: 0 <= i < |items| && Emitted(items[i].item) ==> i in ps
    ensures |ps| <= |items|
  {
    if items == [] then []
    else
      var n := |items| - 1;
      EmittedPositions(items[..n]) + (if Emitted(items[n].item) then [n] else [])
  }

  /** The j-th record comes from the j-th emitted item: records keep the order of their items. */
  lemma {:induction false} KeepFollowsItems(items: seq<Entry>, env: Env)
    requires NoNulls(items)
    ensures |Keep(items, env)| == |EmittedPositions(items)|
    ensures forall j :: 0 <= j < |Keep(items, env)| ==>
              Keep(items, env)[j] == NormalizeAt(items, EmittedPositions(items)[j], env)
  {
    if items != [] {
      var n := |items| - 1;
      var init := items[..n];
      KeepFollowsItems(init, env);
      forall j | 0 <= j < |EmittedPositions(init)|
        ensures NormalizeAt(init, EmittedPositions(init)[j], env) == NormalizeAt(items, EmittedPositions(init)[j], env)
      {
      }
    }
  }

  /** Every output record is an AFAD record read from an emitted item: latitude from
      coordinates[1], longitude from coordinates[0], depth 0 when missing or falsy, the
      default location when the title is missing, and an id starting with `afad-` that
      embeds earthquake_id when there is one. */
  lemma {:induction false} RecordsReadTheirItems(items: seq<Entry>, env: Env, j: nat)
    requires NoNulls(items) && j < |Keep(items, env)|
    ensures |Keep(items, env)| == |EmittedPositions(items)|
    ensures var it := items[EmittedPositions(items)[j]].item;
            var e := Keep(items, env)[j];
            var coords := it.geojson.value.coordinates.value;
            && e.source == Afad
            && e.latitude == coords[1] && e.longitude == coords[0]
            && e.magnitude == it.mag.value
            && e.depth == (if TruthyReal(it.depth) then it.depth.value else 0.0)
            && e.location == (if TruthyText(it.title) then it.title.value else DefaultLocation)
            && IdPrefix <= e.id
            && (TruthyText(it.earthquakeId) ==> IdPrefix + it.earthquakeId.value + "-" <= e.id)
            && e.timestamp == ItemInstant(it, env)
  {
    KeepFollowsItems(items, env);
  }

  /** Items are only dropped, never invented: at most one record per item. */
  lemma ArchiveNoLonger(response: Response, env: Env)
    requires response.Answered? && response.body.Some? && response.body.value.result.Some?
    ensures |Archive(response, env)| <= |response.body.value.result.value|
  {
    var items := response.body.value.result.value;
    if response.body.value.status && NoNulls(items) {
      KeepFollowsItems(items, env);
    }
  }

  /** A failed request, a null body, a falsy status, a result that is not an array, or a
      null element all give the empty page. */
  lemma ArchiveFailuresAreEmpty(response: Response, env: Env)
    requires || response.RequestFailed?
             || response.body.None?
             || !response.body.value.status
             || response.body.value.result.None?
             || !NoNulls(response.body.value.result.value)
    ensures Archive(response, env) == []
  {
  }
}
