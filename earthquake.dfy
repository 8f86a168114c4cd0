/** The canonical record every provider adapter produces (types/earthquake.ts). */
module Earthquakes {

  datatype Source = Kandilli | Afad | Usgs | Emsc

  /** Epoch instants are milliseconds; magnitudes, depths and coordinates are exact reals. */
  datatype Earthquake = Earthquake(
    id: string,
    date: string,
    time: string,
    latitude: real,
    longitude: real,
    depth: real,
    magnitude: real,
    location: string,
    source: Source,
    timestamp: int)

  /** The string literal the source union type uses for each provider. */
  function SourceName(s: Source): (name: string)
    ensures |name| > 0
  {
    match s
    case Kandilli => "kandilli"
    case Afad => "afad"
    case Usgs => "usgs"
    case Emsc => "emsc"
  }

  lemma SourceNameInjective(a: Source, b: Source)
    ensures SourceName(a) == SourceName(b) <==> a == b
  {
  }

  /** The magnitude classes every colour and size table of the interface uses:
      0 below 3, then one class per unit up to 5 for magnitude 7 and above. */
  function MagnitudeBand(m: real): (b: nat)
    ensures b <= 5
    ensures b == 0 <==> m < 3.0
    ensures b == 5 <==> m >= 7.0
    ensures 0 < b < 5 ==> (b + 2) as real <= m < (b + 3) as real
  {
    if m >= 7.0 then 5
    else if m >= 6.0 then 4
    else if m >= 5.0 then 3
    else if m >= 4.0 then 2
    else if m >= 3.0 then 1
    else 0
  }

  lemma MagnitudeBandMonotone(m1: real, m2: real)
    requires m1 <= m2
    ensures MagnitudeBand(m1) <= MagnitudeBand(m2)
  {
  }

  /** `earthquakes.map((eq) => eq.magnitude)` and `earthquakes.map((eq) => eq.depth)`. */
  function Magnitudes(s: seq<Earthquake>): (ms: seq<real>)
    ensures |ms| == |s| && forall i :: 0 <= i < |s| ==> ms[i] == s[i].magnitude
  {
    seq(|s|, i requires 0 <= i < |s| => s[i].magnitude)
  }

  function Depths(s: seq<Earthquake>): (ds: seq<real>)
    ensures |ds| == |s| && forall i :: 0 <= i < |s| ==> ds[i] == s[i].depth
  {
    seq(|s|, i requires 0 <= i < |s| => s[i].depth)
  }
}
