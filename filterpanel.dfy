/** The filter panel (components/FilterPanel.tsx): how one field of the filters changes, the
    source check-boxes, and the summary of the filtered records. */
module FilterPanel {
  import opened Common
  import opened Earthquakes

  /** A filter field holds a text (dates, bounds, the range) or a list of texts (sources). */
  datatype Value = Text(text: string) | TextList(items: seq<string>)

  /** The filters object, keyed by field name. */
  type PanelFilters = map<string, Value>

  const SourcesKey: string := "sources"

  /** handleFilterChange: `{ ...filters, [key]: value }`. */
  function ChangeFilter(filters: PanelFilters, key: string, value: Value): (r: PanelFilters)
    ensures key in r && r[key] == value
    ensures forall k :: k != key ==> (k in r <==> k in filters)
    ensures forall k :: k != key && k in filters ==> r[k] == filters[k]
  {
    filters[key := value]
  }

  /** Writing a field its current value changes nothing, and of two writes to one field the
      second wins. */
  lemma ChangeFilterLaws(filters: PanelFilters, key: string, v1: Value, v2: Value)
    ensures key in filters && filters[key] == v1 ==> ChangeFilter(filters, key, v1) == filters
    ensures ChangeFilter(ChangeFilter(filters, key, v1), key, v2) == ChangeFilter(filters, key, v2)
  {
  }

  function Other(source: string): string -> bool
  {
    (s: string) => s != source
  }

  /** The new source list of handleSourceToggle: every occurrence removed when the source is
      present, appended at the end otherwise. */
  function ToggleSource(sources: seq<string>, source: string): (r: seq<string>)
    ensures source in sources ==> r == Filter(sources, Other(source))
    ensures source !in sources ==> r == sources + [source]
  {
    if source in sources then Filter(sources, Other(source)) else sources + [source]
  }

  /** A present source disappears entirely while the other entries stay, in their order. */
  lemma ToggleRemoves(sources: seq<string>, source: string)
    requires source in sources
    ensures source !in ToggleSource(sources, source)
    ensures forall s :: s != source ==> (s in ToggleSource(sources, source) <==> s in sources)
    ensures IsSubseq(ToggleSource(sources, source), sources)
  {
    FilterMembership(sources, Other(source));
    FilterIsSubseq(sources, Other(source));
  }

  /** An absent source is added after all the others. */
  lemma ToggleAppends(sources: seq<string>, source: string)
    requires source !in sources
    ensures |ToggleSource(sources, source)| == |sources| + 1
    ensures ToggleSource(sources, source)[|sources|] == source
    ensures ToggleSource(sources, source)[..|sources|] == sources
  {
  }

  /** Toggling twice restores the set of sources, and restores the list itself when the
      source was absent. */
  lemma {:induction false} ToggleTwice(sources: seq<string>, source: string)
    ensures var r := ToggleSource(ToggleSource(sources, source), source);
            forall s :: s in r <==> s in sources
    ensures source !in sources ==> ToggleSource(ToggleSource(sources, source), source) == sources
  {
    var once := ToggleSource(sources, source);
    if source in sources {
      FilterMembership(sources, Other(source));
      assert source !in once;
    } else {
      assert source in once;
      FilterConcat(sources, [source], Other(source));
      assert [source][..0] == [];
      FilterAllKept(sources, Other(source));
    }
  }

  /** handleSourceToggle: the toggled list becomes the `sources` field. */
  function HandleSourceToggle(filters: PanelFilters, source: string): (r: PanelFilters)
    requires SourcesKey in filters && filters[SourcesKey].TextList?
    ensures r == ChangeFilter(filters, SourcesKey, TextList(ToggleSource(filters[SourcesKey].items, source)))
    ensures forall k :: k != SourcesKey ==> (k in r <==> k in filters) && (k in filters ==> r[k] == filters[k])
  {
    ChangeFilter(filters, SourcesKey, TextList(ToggleSource(filters[SourcesKey].items, source)))
  }

  // ----- The summary -----

  datatype PanelStatistics = PanelStatistics(total: nat, avgMagnitude: real, maxMagnitude: real, maxDepth: real)

  function Statistics(filtered: seq<Earthquake>): (st: PanelStatistics)
    ensures filtered == [] ==> st == PanelStatistics(0, 0.0, 0.0, 0.0)
    ensures filtered != [] ==>
              && st.total == |filtered|
              && (forall i :: 0 <= i < |filtered| ==> filtered[i].magnitude <= st.maxMagnitude)
              && (forall i :: 0 <= i < |filtered| ==> filtered[i].depth <= st.maxDepth)
              && st.maxMagnitude in Magnitudes(filtered) && st.maxDepth in Depths(filtered)
              && MinOf(Magnitudes(filtered)) <= st.avgMagnitude <= st.maxMagnitude
  {
    if filtered == [] then PanelStatistics(0, 0.0, 0.0, 0.0)
    else
      PanelStatistics(
        |filtered|,
        MeanOf(Magnitudes(filtered)),
        MaxOf(Magnitudes(filtered)),
        MaxOf(Depths(filtered)))
  }
}
