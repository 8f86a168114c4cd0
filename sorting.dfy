/** Array.prototype.sort with a numeric comparator, as the interface uses it: a stable
    sort of records by one numeric key. `b.k - a.k` sorts by descending key and
    `a.k - b.k` by ascending key; the latter is the descending sort of the negated key. */
module Sorting {
  import opened Earthquakes

  /** The key of `b.magnitude - a.magnitude`. */
  function Magnitude(e: Earthquake): real
  {
    e.magnitude
  }

  ghost predicate SortedDesc(s: seq<Earthquake>, key: Earthquake -> real)
  {
    forall i, j :: 0 <= i < j < |s| ==> key(s[i]) >= key(s[j])
  }

  /** Places x before the first element whose key is not greater, so that of two equal
      keys the one inserted later (earlier in the input) comes first. */
  function InsertDesc(x: Earthquake, s: seq<Earthquake>, key: Earthquake -> real): (r: seq<Earthquake>)
    requires SortedDesc(s, key)
    ensures SortedDesc(r, key)
    ensures multiset(r) == multiset(s) + multiset{x}
    ensures |r| == |s| + 1
    ensures r[0] == x || (s != [] && r[0] == s[0])
  {
    if s == [] || key(x) >= key(s[0]) then [x] + s
    else
      var t := InsertDesc(x, s[1..], key);
      assert s == [s[0]] + s[1..];
      assert key(s[0]) >= key(t[0]);
      [s[0]] + t
  }

  /** Stable sort by descending key. */
  function SortDesc(s: seq<Earthquake>, key: Earthquake -> real): (r: seq<Earthquake>)
    ensures SortedDesc(r, key)
    ensures multiset(r) == multiset(s)
    ensures |r| == |s|
  {
    if s == [] then []
    else
      assert s == [s[0]] + s[1..];
      InsertDesc(s[0], SortDesc(s[1..], key), key)
  }

  lemma SortedMembers(s: seq<Earthquake>, key: Earthquake -> real)
    ensures forall e :: e in SortDesc(s, key) <==> e in s
  {
    var r := SortDesc(s, key);
    forall e ensures e in r <==> e in s {
      assert e in r <==> e in multiset(r);
      assert e in s <==> e in multiset(s);
    }
  }
}
