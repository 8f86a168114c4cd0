/** fetchAllPages (lib/api/index.ts): drives one provider's fetch function over
    successive pages until a page comes back empty, short, or the call throws.

    A provider is modelled by the answers it gives to its successive calls: the k-th
    element of `pages` is what the k-th call returns (or that it throws). Calls beyond
    the end of the list answer an empty page, so every provider is finite. */
module Paginator {
  import opened Earthquakes

  datatype PageOutcome = Page(records: seq<Earthquake>) | Throws

  /** What the k-th call to the fetch function returns. */
  function Response(pages: seq<PageOutcome>, k: nat): PageOutcome
  {
    if k < |pages| then pages[k] else Page([])
  }

  /** The records a call contributes: a call that throws contributes none. */
  function Delivered(o: PageOutcome): seq<Earthquake>
  {
    match o
    case Page(rs) => rs
    case Throws => []
  }

  /** A call after which the loop stops: it threw, or its page was empty or shorter than the limit. */
  predicate Stops(o: PageOutcome, limit: nat)
  {
    o.Throws? || |o.records| == 0 || |o.records| < limit
  }

  /** The index of the first call, from k on, after which the loop stops. */
  function StopIndex(pages: seq<PageOutcome>, limit: nat, k: nat): (n: nat)
    requires k <= |pages|
    ensures k <= n <= |pages|
    ensures Stops(Response(pages, n), limit)
    ensures forall j :: k <= j < n ==> !Stops(Response(pages, j), limit)
    decreases |pages| - k
  {
    if Stops(Response(pages, k), limit) then k else StopIndex(pages, limit, k + 1)
  }

  /** Number of calls fetchAllPages makes. */
  function CallCount(pages: seq<PageOutcome>, limit: nat): (c: nat)
    ensures 1 <= c <= |pages| + 1
  {
    StopIndex(pages, limit, 0) + 1
  }

  /** The records of the first n calls, concatenated in call order. */
  function Received(pages: seq<PageOutcome>, n: nat): seq<Earthquake>
  {
    if n == 0 then [] else Received(pages, n - 1) + Delivered(Response(pages, n - 1))
  }

  /** The loop of fetchAllPages. Besides the records it returns the `skip` argument of
      every call it made, in order. */
  method FetchAllPages(pages: seq<PageOutcome>, limit: nat) returns (allResults: seq<Earthquake>, skips: seq<nat>)
    ensures allResults == Received(pages, CallCount(pages, limit))
    ensures |skips| == CallCount(pages, limit)
    ensures forall k :: 0 <= k < |skips| ==> skips[k] == k * limit
  {
    allResults := [];
    skips := [];
    var skip: nat := 0;
    var hasMore := true;
    ghost var n := StopIndex(pages, limit, 0);
    while hasMore
      invariant |skips| <= n + 1
      invariant hasMore ==> skip == |skips| * limit
      invariant forall k :: 0 <= k < |skips| ==> skips[k] == k * limit
      invariant allResults == Received(pages, |skips|)
      invariant hasMore ==> |skips| <= n
      invariant !hasMore ==> |skips| == n + 1
      decreases if hasMore then n + 1 - |skips| else 0
    {
      var k := |skips|;
      var outcome := Response(pages, k);
      skips := skips + [skip];
      match outcome {
        case Throws =>
          hasMore := false;
        case Page(results) =>
          if |results| == 0 {
            hasMore := false;
          } else {
            allResults := allResults + results;
            if |results| < limit {
              hasMore := false;
            } else {
              skip := skip + limit;
            }
          }
      }
      assert !hasMore <==> Stops(outcome, limit);
    }
  }

  // ----- Properties of the pagination the loop performs -----

  /** Every call before the last received a full, non-empty page. */
  lemma CallsBeforeLastWereFull(pages: seq<PageOutcome>, limit: nat, k: nat)
    requires k + 1 < CallCount(pages, limit)
    ensures Response(pages, k).Page?
    ensures |Response(pages, k).records| >= limit
    ensures |Response(pages, k).records| > 0
  {
  }

  /** Fed pages that are full except a short last one, the paginator makes one call per
      page and returns exactly their concatenation. */
  lemma {:induction false} FullPagesThenShort(pages: seq<PageOutcome>, limit: nat)
    requires |pages| > 0
    requires forall k :: 0 <= k < |pages| - 1 ==> pages[k].Page? && |pages[k].records| == limit > 0
    requires pages[|pages| - 1].Page? && 0 < |pages[|pages| - 1].records| < limit
    ensures CallCount(pages, limit) == |pages|
    ensures |Received(pages, |pages|)| == (|pages| - 1) * limit + |pages[|pages| - 1].records|
  {
    StopAtLast(pages, limit, 0);
    ReceivedLength(pages, limit, |pages| - 1);
  }

  lemma {:induction false} StopAtLast(pages: seq<PageOutcome>, limit: nat, k: nat)
    requires k < |pages|
    requires forall j :: 0 <= j < |pages| - 1 ==> pages[j].Page? && |pages[j].records| == limit > 0
    requires pages[|pages| - 1].Page? && 0 < |pages[|pages| - 1].records| < limit
    ensures StopIndex(pages, limit, k) == |pages| - 1
    decreases |pages| - k
  {
    if k < |pages| - 1 {
      StopAtLast(pages, limit, k + 1);
    }
  }

  lemma {:induction false} ReceivedLength(pages: seq<PageOutcome>, limit: nat, n: nat)
    requires n <= |pages|
    requires forall j :: 0 <= j < n ==> pages[j].Page? && |pages[j].records| == limit
    ensures |Received(pages, n)| == n * limit
  {
    if n > 0 {
      ReceivedLength(pages, limit, n - 1);
    }
  }

  /** An empty first page: one call, no records. */
  lemma EmptyFirstPage(pages: seq<PageOutcome>, limit: nat)
    requires |pages| > 0 && pages[0] == Page([])
    ensures CallCount(pages, limit) == 1
    ensures Received(pages, CallCount(pages, limit)) == []
  {
  }

  /** A call that throws ends the pagination, adds nothing, and keeps every earlier page. */
  lemma {:induction false} ThrowKeepsEarlierPages(pages: seq<PageOutcome>, limit: nat, k: nat)
    requires k < |pages| && pages[k].Throws?
    requires forall j :: 0 <= j < k ==> !Stops(pages[j], limit)
    ensures CallCount(pages, limit) == k + 1
    ensures Received(pages, k + 1) == Received(pages, k)
  {
    StopAtThrow(pages, limit, k, 0);
  }

  lemma {:induction false} StopAtThrow(pages: seq<PageOutcome>, limit: nat, k: nat, i: nat)
    requires i <= k < |pages| && pages[k].Throws?
    requires forall j :: 0 <= j < k ==> !Stops(pages[j], limit)
    ensures StopIndex(pages, limit, i) == k
    decreases k - i
  {
    if i < k {
      StopAtThrow(pages, limit, k, i + 1);
    }
  }

  /** A provider whose every call throws yields nothing after a single call. */
  lemma AlwaysThrowing(pages: seq<PageOutcome>, limit: nat)
    requires |pages| > 0 && pages[0].Throws?
    ensures CallCount(pages, limit) == 1
    ensures Received(pages, CallCount(pages, limit)) == []
  {
  }

  /** The scenario of pages of sizes 100, 100 and 47: three calls and 247 records. */
  lemma ThreePageScenario(e: Earthquake)
    ensures var pages := [Page(seq(100, _ => e)), Page(seq(100, _ => e)), Page(seq(47, _ => e))];
            CallCount(pages, 100) == 3 && |Received(pages, CallCount(pages, 100))| == 247
  {
    var pages := [Page(seq(100, _ => e)), Page(seq(100, _ => e)), Page(seq(47, _ => e))];
    FullPagesThenShort(pages, 100);
  }
}
