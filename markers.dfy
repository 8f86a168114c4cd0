/** Marker appearance in components/MapView.tsx: the colour pair of a magnitude, the
    marker's pixel size, and the module-level icon cache of createCustomIcon. */
module Markers {
  import opened Common
  import opened Earthquakes

  /** getMagnitudeColor and getMagnitudeColorDarker, indexed by magnitude class (weakest first). */
  const Colors: seq<string> := ["#22c55e", "#84cc16", "#eab308", "#f59e0b", "#ea580c", "#dc2626"]
  const DarkerColors: seq<string> := ["#16a34a", "#65a30d", "#ca8a04", "#d97706", "#9a3412", "#991b1b"]

  /** The base pixel size of each magnitude class. */
  const BaseSizes: seq<nat> := [8, 14, 16, 18, 20, 24]

  /** The smallest marker getMarkerSize returns. */
  const MinMarkerSize: int := 6

  function MagnitudeColor(magnitude: real): (c: string)
    ensures c == Colors[MagnitudeBand(magnitude)]
  {
    if magnitude >= 7.0 then "#dc2626"
    else if magnitude >= 6.0 then "#ea580c"
    else if magnitude >= 5.0 then "#f59e0b"
    else if magnitude >= 4.0 then "#eab308"
    else if magnitude >= 3.0 then "#84cc16"
    else "#22c55e"
  }

  function MagnitudeColorDarker(magnitude: real): (c: string)
    ensures c == DarkerColors[MagnitudeBand(magnitude)]
  {
    if magnitude >= 7.0 then "#991b1b"
    else if magnitude >= 6.0 then "#9a3412"
    else if magnitude >= 5.0 then "#d97706"
    else if magnitude >= 4.0 then "#ca8a04"
    else if magnitude >= 3.0 then "#65a30d"
    else "#16a34a"
  }

  /** The twelve colours are pairwise distinct, so each colour names exactly one class. */
  lemma PaletteDistinct()
    ensures forall i, j :: 0 <= i < j < 6 ==> Colors[i] != Colors[j] && DarkerColors[i] != DarkerColors[j]
    ensures forall i, j :: 0 <= i < 6 && 0 <= j < 6 ==> Colors[i] != DarkerColors[j]
  {
    assert forall i :: 0 <= i < 6 ==> Colors[i][1] == ['2', '8', 'e', 'f', 'e', 'd'][i];
    assert forall i :: 0 <= i < 6 ==> Colors[i][2] == ['2', '4', 'a', '5', 'a', 'c'][i];
    assert forall i :: 0 <= i < 6 ==> DarkerColors[i][1] == ['1', '6', 'c', 'd', '9', '9'][i];
    assert forall i :: 0 <= i < 6 ==> DarkerColors[i][2] == ['6', '5', 'a', '9', 'a', '9'][i];
    assert forall i :: 0 <= i < 6 ==> DarkerColors[i][3] == ['a', 'a', '8', '7', '3', '1'][i];
  }

  /** Two magnitudes get the same marker colour exactly when they are in the same class. */
  lemma ColorIdentifiesBand(a: real, b: real)
    ensures MagnitudeColor(a) == MagnitudeColor(b) <==> MagnitudeBand(a) == MagnitudeBand(b)
    ensures MagnitudeColorDarker(a) == MagnitudeColorDarker(b) <==> MagnitudeBand(a) == MagnitudeBand(b)
    ensures MagnitudeColor(a) != MagnitudeColorDarker(b)
  {
    PaletteDistinct();
  }

  function BaseSize(magnitude: real): (s: nat)
    ensures s == BaseSizes[MagnitudeBand(magnitude)]
  {
    if magnitude >= 7.0 then 24
    else if magnitude >= 6.0 then 20
    else if magnitude >= 5.0 then 18
    else if magnitude >= 4.0 then 16
    else if magnitude >= 3.0 then 14
    else 8
  }

  /** Markers shrink as the map zooms in past level 8. */
  function ZoomScale(zoom: real): (s: real)
    ensures 0.65 <= s <= 1.0
    ensures zoom < 8.0 <==> s == 1.0
  {
    if zoom >= 10.0 then 0.65
    else if zoom >= 9.0 then 0.75
    else if zoom >= 8.0 then 0.85
    else 1.0
  }

  lemma ZoomScaleNonIncreasing(z1: real, z2: real)
    requires z1 <= z2
    ensures ZoomScale(z2) <= ZoomScale(z1)
  {
  }

  /** getMarkerSize: the rounded product of base size, zoom scale and the user's multiplier,
      never below 6 pixels. */
  function MarkerSize(magnitude: real, zoom: real, multiplier: real): (size: int)
    ensures size >= MinMarkerSize
    ensures size >= JsRound(BaseSize(magnitude) as real * ZoomScale(zoom) * multiplier)
    ensures size == MinMarkerSize || size == JsRound(BaseSize(magnitude) as real * ZoomScale(zoom) * multiplier)
  {
    var raw := JsRound(BaseSize(magnitude) as real * ZoomScale(zoom) * multiplier);
    if raw < MinMarkerSize then MinMarkerSize else raw
  }

  /** At a fixed zoom and multiplier a stronger earthquake never gets a smaller marker. A
      negative multiplier makes every marker the minimum, so no sign condition is needed. */
  lemma MarkerSizeMonotone(m1: real, m2: real, zoom: real, multiplier: real)
    requires m1 <= m2
    ensures MarkerSize(m1, zoom, multiplier) <= MarkerSize(m2, zoom, multiplier)
  {
    MagnitudeBandMonotone(m1, m2);
    var b1 := BaseSize(m1) as real;
    var b2 := BaseSize(m2) as real;
    var s := ZoomScale(zoom);
    assert b1 <= b2 by {
      assert BaseSizes[MagnitudeBand(m1)] <= BaseSizes[MagnitudeBand(m2)];
    }
    if multiplier >= 0.0 {
      assert b1 * s <= b2 * s;
      ScaleNonNegative(b1 * s, b2 * s, multiplier);
      JsRoundMonotone(b1 * s * multiplier, b2 * s * multiplier);
    } else {
      ProductNonPositive(b1 * s, multiplier);
      ProductNonPositive(b2 * s, multiplier);
    }
  }

  lemma ScaleNonNegative(x: real, y: real, k: real)
    requires x <= y && k >= 0.0
    ensures x * k <= y * k
  {
  }

  lemma ProductNonPositive(x: real, k: real)
    requires x >= 0.0 && k < 0.0
    ensures JsRound(x * k) < MinMarkerSize
  {
  }

  /** Zooming in never enlarges a marker (for a non-negative multiplier). */
  lemma MarkerSizeShrinksWithZoom(magnitude: real, z1: real, z2: real, multiplier: real)
    requires z1 <= z2 && multiplier >= 0.0
    ensures MarkerSize(magnitude, z2, multiplier) <= MarkerSize(magnitude, z1, multiplier)
  {
    var b := BaseSize(magnitude) as real;
    ZoomScaleNonIncreasing(z1, z2);
    assert b * ZoomScale(z2) <= b * ZoomScale(z1);
    ScaleNonNegative(b * ZoomScale(z2), b * ZoomScale(z1), multiplier);
    JsRoundMonotone(b * ZoomScale(z2) * multiplier, b * ZoomScale(z1) * multiplier);
  }

  /** Below zoom 8 and with the default multiplier a marker is exactly its class's base size. */
  lemma DefaultMarkerSize(magnitude: real, zoom: real)
    requires zoom < 8.0
    ensures MarkerSize(magnitude, zoom, 1.0) == BaseSizes[MagnitudeBand(magnitude)]
  {
    assert BaseSize(magnitude) as real * ZoomScale(zoom) * 1.0 == BaseSize(magnitude) as real;
  }

  // ----- The icon cache -----

  /** What the icon's HTML depends on: the two colours and the pixel size. */
  datatype Icon = Icon(color: string, darker: string, size: int)

  function IconFor(magnitude: real, zoom: real, multiplier: real): Icon
  {
    Icon(MagnitudeColor(magnitude), MagnitudeColorDarker(magnitude), MarkerSize(magnitude, zoom, multiplier))
  }

  /** The cache key `${rounded magnitude}-${zoom level}-${rounded multiplier}`. Each part is a
      number and JavaScript's number-to-text conversion is one-to-one, so the key is kept as
      the three integers it is built from (tenths of magnitude, floor of zoom, tenths of
      multiplier). */
  datatype IconKey = IconKey(magnitudeTenths: int, zoomLevel: int, multiplierTenths: int)

  function CacheKey(magnitude: real, zoom: real, multiplier: real): (k: IconKey)
    ensures k.zoomLevel as real <= zoom < k.zoomLevel as real + 1.0
  {
    IconKey(JsRound(magnitude * 10.0), zoom.Floor, JsRound(multiplier * 10.0))
  }

  /** The module-level `iconCache` as written: keyed by CacheKey. */
  class IconCache {
    var icons: map<IconKey, Icon>

    constructor ()
      ensures icons == map[]
    {
      icons := map[];
    }

    /** createCustomIcon: nothing before Leaflet has loaded; a cached icon when the key is
        known; otherwise a new icon, which is cached. */
    method CreateCustomIcon(magnitude: real, zoom: real, multiplier: real, leafletLoaded: bool)
      returns (icon: Option<Icon>)
      modifies this
      ensures !leafletLoaded ==> icon == None && icons == old(icons)
      ensures leafletLoaded && CacheKey(magnitude, zoom, multiplier) in old(icons) ==>
                icon == Some(old(icons)[CacheKey(magnitude, zoom, multiplier)]) && icons == old(icons)
      ensures leafletLoaded && CacheKey(magnitude, zoom, multiplier) !in old(icons) ==>
                icon == Some(IconFor(magnitude, zoom, multiplier)) &&
                icons == old(icons)[CacheKey(magnitude, zoom, multiplier) := IconFor(magnitude, zoom, multiplier)]
    {
      if !leafletLoaded {
        return None;
      }
      var key := CacheKey(magnitude, zoom, multiplier);
      if key in icons {
        return Some(icons[key]);
      }
      var created := IconFor(magnitude, zoom, multiplier);
      icons := icons[key := created];
      icon := Some(created);
    }
  }

  /** Magnitudes 2.96 and 3.04 share a key, since both round to 3.0, but lie in different
      classes: their icons differ in colour and size. Multipliers 1.0 and 1.04 share a key
      too, while at magnitude 7 they give 24 and 25 pixels. */
  lemma CacheKeyMergesClasses()
    ensures CacheKey(2.96, 7.0, 1.0) == CacheKey(3.04, 7.0, 1.0)
    ensures IconFor(2.96, 7.0, 1.0) != IconFor(3.04, 7.0, 1.0)
    ensures CacheKey(7.0, 7.0, 1.0) == CacheKey(7.0, 7.0, 1.04)
    ensures IconFor(7.0, 7.0, 1.0) != IconFor(7.0, 7.0, 1.04)
  {
    assert JsRound(29.6) == 30 && JsRound(30.4) == 30;
    assert MarkerSize(2.96, 7.0, 1.0) == 8 && MarkerSize(3.04, 7.0, 1.0) == 14;
    assert JsRound(10.0) == 10 && JsRound(10.4) == 10;
    assert JsRound(24.0) == 24 && JsRound(24.96) == 25;
    assert MarkerSize(7.0, 7.0, 1.0) == 24 && MarkerSize(7.0, 7.0, 1.04) == 25;
  }

  /** The two calls in that order: the second marker is drawn with the first one's icon. */
  method StaleIconScenario() returns (first: Option<Icon>, second: Option<Icon>)
    ensures first == Some(IconFor(2.96, 7.0, 1.0))
    ensures second == first && second != Some(IconFor(3.04, 7.0, 1.0))
  {
    CacheKeyMergesClasses();
    var cache := new IconCache();
    first := cache.CreateCustomIcon(2.96, 7.0, 1.0, true);
    second := cache.CreateCustomIcon(3.04, 7.0, 1.0, true);
  }

  /** A key made of exactly what the icon depends on: the magnitude class and the pixel size. */
  datatype ClassKey = ClassKey(band: nat, size: int)

  function ClassKeyOf(magnitude: real, zoom: real, multiplier: real): (k: ClassKey)
    ensures k.band < 6
  {
    ClassKey(MagnitudeBand(magnitude), MarkerSize(magnitude, zoom, multiplier))
  }

  function IconOfKey(k: ClassKey): Icon
    requires k.band < 6
  {
    Icon(Colors[k.band], DarkerColors[k.band], k.size)
  }

  /** The key determines the icon: equal keys mean equal icons. */
  lemma ClassKeySound(m1: real, z1: real, k1: real, m2: real, z2: real, k2: real)
    ensures IconOfKey(ClassKeyOf(m1, z1, k1)) == IconFor(m1, z1, k1)
    ensures ClassKeyOf(m1, z1, k1) == ClassKeyOf(m2, z2, k2) ==> IconFor(m1, z1, k1) == IconFor(m2, z2, k2)
  {
  }

  /** The icon cache keyed by ClassKey: every cached icon is the icon of its key, so a cache
      hit returns exactly the icon the arguments call for. */
  class ClassIconCache {
    var icons: map<ClassKey, Icon>

    ghost predicate Valid()
      reads this
    {
      forall k :: k in icons ==> k.band < 6 && icons[k] == IconOfKey(k)
    }

    constructor ()
      ensures Valid() && icons == map[]
    {
      icons := map[];
    }

    method CreateCustomIcon(magnitude: real, zoom: real, multiplier: real, leafletLoaded: bool)
      returns (icon: Option<Icon>)
      requires Valid()
      modifies this
      ensures Valid()
      ensures icon == if leafletLoaded then Some(IconFor(magnitude, zoom, multiplier)) else None
      ensures old(icons).Keys <= icons.Keys
    {
      if !leafletLoaded {
        return None;
      }
      var key := ClassKeyOf(magnitude, zoom, multiplier);
      ClassKeySound(magnitude, zoom, multiplier, magnitude, zoom, multiplier);
      if key in icons {
        return Some(icons[key]);
      }
      var created := IconFor(magnitude, zoom, multiplier);
      icons := icons[key := created];
      icon := Some(created);
    }
  }
}
