/** removeDuplicates (lib/api/index.ts): records whose rounded position (0.1 degree)
    and rounded minute coincide are taken to be one event; of each group the record with
    the strictly greatest magnitude seen so far is kept. */
module Deduplication {
  import opened Common
  import opened Earthquakes

  /** The template string `${lat}_${lon}_${minute}` joins three integers with a separator
      no integer contains, so it identifies the triple. */
  datatype Key = Key(lat: int, lon: int, minute: int)

  function KeyOf(e: Earthquake): Key
  {
    Key(JsRound(e.latitude * 10.0), JsRound(e.longitude * 10.0), JsRound(e.timestamp as real / 60000.0))
  }

  predicate HasKey(eqs: seq<Earthquake>, k: Key)
  {
    exists i | 0 <= i < |eqs| :: KeyOf(eqs[i]) == k
  }

  lemma HasKeyStep(eqs: seq<Earthquake>, k: Key)
    requires |eqs| > 0
    ensures HasKey(eqs, k) <==> HasKey(eqs[..|eqs| - 1], k) || KeyOf(eqs[|eqs| - 1]) == k
  {
    var init := eqs[..|eqs| - 1];
    if HasKey(init, k) {
      var i :| 0 <= i < |init| && KeyOf(init[i]) == k;
      assert KeyOf(eqs[i]) == k;
    }
    if HasKey(eqs, k) && KeyOf(eqs[|eqs| - 1]) != k {
      var i :| 0 <= i < |eqs| && KeyOf(eqs[i]) == k;
      assert KeyOf(init[i]) == k;
    }
  }

  /** The distinct keys in the order in which they first appear. */
  function FirstKeys(eqs: seq<Earthquake>): (ks: seq<Key>)
    ensures forall k :: k in ks <==> HasKey(eqs, k)
    ensures forall a, b :: 0 <= a < b < |ks| ==> ks[a] != ks[b]
    ensures |ks| <= |eqs|
  {
    if eqs == [] then []
    else
      var p := FirstKeys(eqs[..|eqs| - 1]);
      var k := KeyOf(eqs[|eqs| - 1]);
      HasKeyAllStep(eqs);
      if k in p then p else p + [k]
  }

  lemma HasKeyAllStep(eqs: seq<Earthquake>)
    requires |eqs| > 0
    ensures forall k :: HasKey(eqs, k) <==> HasKey(eqs[..|eqs| - 1], k) || KeyOf(eqs[|eqs| - 1]) == k
  {
    forall k ensures HasKey(eqs, k) <==> HasKey(eqs[..|eqs| - 1], k) || KeyOf(eqs[|eqs| - 1]) == k {
      HasKeyStep(eqs, k);
    }
  }

  /** The position at which key k first appears. */
  function FirstIndex(eqs: seq<Earthquake>, k: Key): (i: nat)
    requires HasKey(eqs, k)
    ensures i < |eqs| && KeyOf(eqs[i]) == k
    ensures forall j :: 0 <= j < i ==> KeyOf(eqs[j]) != k
  {
    var n := |eqs| - 1;
    HasKeyStep(eqs, k);
    if HasKey(eqs[..n], k) then FirstIndex(eqs[..n], k) else n
  }

  /** The position of the record removeDuplicates keeps for key k: the first record of
      that key whose magnitude is the greatest of the key's group. */
  function KeptIndex(eqs: seq<Earthquake>, k: Key): (j: nat)
    requires HasKey(eqs, k)
    ensures j < |eqs| && KeyOf(eqs[j]) == k
    ensures forall i :: 0 <= i < |eqs| && KeyOf(eqs[i]) == k ==> eqs[i].magnitude <= eqs[j].magnitude
    ensures forall i :: 0 <= i < j && KeyOf(eqs[i]) == k ==> eqs[i].magnitude < eqs[j].magnitude
  {
    var n := |eqs| - 1;
    HasKeyStep(eqs, k);
    if !HasKey(eqs[..n], k) then
      assert forall i :: 0 <= i < n ==> KeyOf(eqs[..n][i]) != k;
      n
    else
      var j := KeptIndex(eqs[..n], k);
      assert forall i :: 0 <= i < n ==> eqs[..n][i] == eqs[i];
      if KeyOf(eqs[n]) == k && eqs[j].magnitude < eqs[n].magnitude then n else j
  }

  /** What removeDuplicates returns: for each key, in order of first appearance, the kept record. */
  function Dedup(eqs: seq<Earthquake>): (r: seq<Earthquake>)
    ensures |r| == |FirstKeys(eqs)| <= |eqs|
    ensures forall i :: 0 <= i < |r| ==> r[i] in eqs && KeyOf(r[i]) == FirstKeys(eqs)[i]
    ensures forall i, j :: 0 <= i < j < |r| ==> KeyOf(r[i]) != KeyOf(r[j])
  {
    var ks := FirstKeys(eqs);
    seq(|ks|, i requires 0 <= i < |ks| => eqs[KeptIndex(eqs, ks[i])])
  }

  /** The map of the loop holds, for every key seen in the prefix, the record kept so far. */
  ghost predicate Tracks(seen: map<Key, Earthquake>, prefix: seq<Earthquake>)
  {
    && (forall k :: k in seen <==> HasKey(prefix, k))
    && (forall k :: k in seen ==> seen[k] == prefix[KeptIndex(prefix, k)])
  }

  lemma TracksStep(seen: map<Key, Earthquake>, prefix: seq<Earthquake>, e: Earthquake)
    requires Tracks(seen, prefix)
    ensures var k := KeyOf(e);
            Tracks(if k !in seen || seen[k].magnitude < e.magnitude then seen[k := e] else seen, prefix + [e])
  {
    var k := KeyOf(e);
    var after := prefix + [e];
    var seen' := if k !in seen || seen[k].magnitude < e.magnitude then seen[k := e] else seen;
    assert after[..|prefix|] == prefix;
    HasKeyAllStep(after);
    forall k' | k' in seen'
      ensures seen'[k'] == after[KeptIndex(after, k')]
    {
      if k' != k {
        assert HasKey(prefix, k');
        assert after[KeptIndex(prefix, k')] == prefix[KeptIndex(prefix, k')];
      } else if k in seen {
        assert after[KeptIndex(prefix, k)] == prefix[KeptIndex(prefix, k)];
      }
    }
  }

  lemma FirstKeysStep(prefix: seq<Earthquake>, e: Earthquake)
    ensures FirstKeys(prefix + [e]) ==
            if KeyOf(e) in FirstKeys(prefix) then FirstKeys(prefix) else FirstKeys(prefix) + [KeyOf(e)]
  {
    assert (prefix + [e])[..|prefix|] == prefix;
  }

  /** The state of the loop after a prefix of the input: the Map's keys in insertion
      order and its entries. A JavaScript Map remembers the order in which its keys were
      first set, and setting an existing key keeps its place. */
  datatype Seen = Seen(order: seq<Key>, kept: map<Key, Earthquake>)

  function Record(st: Seen, e: Earthquake): Seen
  {
    var k := KeyOf(e);
    if k !in st.kept then Seen(st.order + [k], st.kept[k := e])
    else if st.kept[k].magnitude < e.magnitude then Seen(st.order, st.kept[k := e])
    else st
  }

  function Scan(eqs: seq<Earthquake>): Seen
  {
    if eqs == [] then Seen([], map[]) else Record(Scan(eqs[..|eqs| - 1]), eqs[|eqs| - 1])
  }

  lemma {:induction false} ScanTracks(eqs: seq<Earthquake>)
    ensures Scan(eqs).order == FirstKeys(eqs)
    ensures Tracks(Scan(eqs).kept, eqs)
  {
    if eqs != [] {
      var init, last := eqs[..|eqs| - 1], eqs[|eqs| - 1];
      assert init + [last] == eqs;
      ScanTracks(init);
      TracksStep(Scan(init).kept, init, last);
      FirstKeysStep(init, last);
    }
  }

  /** The loop of removeDuplicates; `order` and `seen` together are the JavaScript Map. */
  method RemoveDuplicates(earthquakes: seq<Earthquake>) returns (unique: seq<Earthquake>)
    ensures unique == Dedup(earthquakes)
  {
    var order: seq<Key> := [];
    var seen: map<Key, Earthquake> := map[];
    var i := 0;
    while i < |earthquakes|
      invariant 0 <= i <= |earthquakes|
      invariant Seen(order, seen) == Scan(earthquakes[..i])
    {
      var eq := earthquakes[i];
      var key := KeyOf(eq);
      assert earthquakes[..i + 1][..i] == earthquakes[..i];
      if key !in seen || seen[key].magnitude < eq.magnitude {
        if key !in seen {
          order := order + [key];
        }
        seen := seen[key := eq];
      }
      i := i + 1;
    }
    assert earthquakes[..i] == earthquakes;
    ScanTracks(earthquakes);
    unique := seq(|order|, j requires 0 <= j < |order| => seen[order[j]]);
    TrackedValuesAreDedup(order, seen, earthquakes);
  }

  lemma TrackedValuesAreDedup(order: seq<Key>, seen: map<Key, Earthquake>, eqs: seq<Earthquake>)
    requires order == FirstKeys(eqs) && Tracks(seen, eqs)
    ensures forall k :: k in order ==> k in seen
    ensures seq(|order|, j requires 0 <= j < |order| => seen[order[j]]) == Dedup(eqs)
  {
  }

  // ----- What removeDuplicates promises -----

  /** Every key of the input is represented in the output. */
  lemma EveryKeyRepresented(eqs: seq<Earthquake>, e: Earthquake)
    requires e in eqs
    ensures exists i :: 0 <= i < |Dedup(eqs)| && KeyOf(Dedup(eqs)[i]) == KeyOf(e)
  {
    var ks := FirstKeys(eqs);
    var j :| 0 <= j < |eqs| && eqs[j] == e;
    assert HasKey(eqs, KeyOf(e));
    var i :| 0 <= i < |ks| && ks[i] == KeyOf(e);
    assert KeyOf(Dedup(eqs)[i]) == KeyOf(e);
  }

  /** The kept record has the greatest magnitude of its group and, among equal greatest
      magnitudes, is the first one seen. */
  lemma KeptIsFirstMaximum(eqs: seq<Earthquake>, i: nat, j: nat)
    requires i < |Dedup(eqs)| && j < |eqs| && KeyOf(eqs[j]) == KeyOf(Dedup(eqs)[i])
    ensures eqs[j].magnitude <= Dedup(eqs)[i].magnitude
    ensures j < KeptIndex(eqs, KeyOf(eqs[j])) ==> eqs[j].magnitude < Dedup(eqs)[i].magnitude
  {
  }

  /** The output lists the groups in the order in which each key first appeared. */
  lemma {:induction false} OutputInFirstAppearanceOrder(eqs: seq<Earthquake>, a: nat, b: nat)
    requires a < b < |Dedup(eqs)|
    ensures FirstIndex(eqs, KeyOf(Dedup(eqs)[a])) < FirstIndex(eqs, KeyOf(Dedup(eqs)[b]))
  {
    FirstKeysOrder(eqs, a, b);
  }

  lemma {:induction false} FirstKeysOrder(eqs: seq<Earthquake>, a: nat, b: nat)
    requires a < b < |FirstKeys(eqs)|
    ensures FirstIndex(eqs, FirstKeys(eqs)[a]) < FirstIndex(eqs, FirstKeys(eqs)[b])
  {
    var n := |eqs| - 1;
    var init := eqs[..n];
    var p := FirstKeys(init);
    var ks := FirstKeys(eqs);
    HasKeyAllStep(eqs);
    assert ks[a] in p;
    HasKeyStep(eqs, ks[a]);
    if b < |p| {
      FirstKeysOrder(init, a, b);
      HasKeyStep(eqs, ks[b]);
    } else {
      assert ks[b] == KeyOf(eqs[n]) && !HasKey(init, ks[b]);
    }
  }

  /** Two detections one minute-half apart merge only when the earlier lies in the second
      half of its minute: the key rounds to the nearest minute rather than truncating to
      the calendar minute. At 39.000/35.000 and 39.004/35.004 with magnitudes 3.0 and 4.2,
      30 seconds apart, one of the two placements keeps only the 4.2 record and the other
      keeps both. */
  lemma NearbyPairScenario(a: Earthquake, b: Earthquake, m: int)
    requires a.latitude == 39.000 && a.longitude == 35.000 && a.magnitude == 3.0
    requires b.latitude == 39.004 && b.longitude == 35.004 && b.magnitude == 4.2
    requires b.timestamp == a.timestamp + 30000
    ensures a.timestamp == 60000 * m + 30000 ==> Dedup([a, b]) == [b]
    ensures a.timestamp == 60000 * m ==> Dedup([a, b]) == [a, b]
  {
    assert KeyOf(a).lat == 390 && KeyOf(b).lat == 390;
    assert KeyOf(a).lon == 350 && KeyOf(b).lon == 350;
    if a.timestamp == 60000 * m + 30000 {
      assert a.timestamp as real / 60000.0 == m as real + 0.5;
      assert b.timestamp as real / 60000.0 == m as real + 1.0;
      assert KeyOf(a) == KeyOf(b);
      assert [a, b][..1] == [a];
      assert FirstKeys([a, b]) == [KeyOf(a)];
      assert KeptIndex([a, b], KeyOf(a)) == 1;
    }
    if a.timestamp == 60000 * m {
      assert a.timestamp as real / 60000.0 == m as real;
      assert b.timestamp as real / 60000.0 == m as real + 0.5;
      assert KeyOf(a).minute == m && KeyOf(b).minute == m + 1;
      assert [a, b][..1] == [a];
      assert FirstKeys([a, b]) == [KeyOf(a), KeyOf(b)];
      assert KeptIndex([a, b], KeyOf(a)) == 0;
      assert KeptIndex([a, b], KeyOf(b)) == 1;
    }
  }
}
