/** The "progressive reveal by threshold list" pattern shared by every scene:
    how many thresholds a progress value has reached, and which one it reached
    last. Phase cascades, reveal counters and the boss-fight attack index are
    all stated against these two reference definitions. */
module Thresholds {

  /** Strictly ascending, stated pair by adjacent pair (cheap to check on constants). */
  predicate Ascending(ts: seq<real>) {
    forall i :: 0 < i < |ts| ==> ts[i - 1] < ts[i]
  }

  lemma {:induction false} AscendingOrdered(ts: seq<real>, i: int, j: int)
    requires Ascending(ts) && 0 <= i < j < |ts|
    ensures ts[i] < ts[j]
  {
    if i + 1 < j {
      AscendingOrdered(ts, i, j - 1);
    }
  }

  /** Number of thresholds that are at or below `p`. */
  function Reached(ts: seq<real>, p: real): (n: nat)
    ensures n <= |ts|
  {
    if ts == [] then 0
    else Reached(ts[..|ts| - 1], p) + (if ts[|ts| - 1] <= p then 1 else 0)
  }

  /** Index of the last threshold (in list order) at or below `p`, or -1. */
  function LastReached(ts: seq<real>, p: real): (i: int)
    ensures -1 <= i < |ts|
    ensures 0 <= i ==> ts[i] <= p
    ensures forall j :: i < j < |ts| ==> p < ts[j]
  {
    if ts == [] then -1
    else if ts[|ts| - 1] <= p then |ts| - 1
    else LastReached(ts[..|ts| - 1], p)
  }

  /** Reaching more progress never hides an item. */
  lemma {:induction false} ReachedMonotone(ts: seq<real>, p: real, q: real)
    requires p <= q
    ensures Reached(ts, p) <= Reached(ts, q)
  {
    if ts != [] {
      ReachedMonotone(ts[..|ts| - 1], p, q);
    }
  }

  /** On an ascending list the reached thresholds are exactly a prefix. */
  lemma {:induction false} ReachedAscending(ts: seq<real>, p: real)
    requires Ascending(ts)
    ensures forall k :: 0 <= k < |ts| ==> (k < Reached(ts, p) <==> ts[k] <= p)
  {
    if ts != [] {
      var n := |ts|;
      var init := ts[..n - 1];
      assert Ascending(init);
      ReachedAscending(init, p);
      if ts[n - 1] <= p {
        forall k | 0 <= k < n - 1 ensures init[k] <= p {
          AscendingOrdered(ts, k, n - 1);
        }
      }
    }
  }

  /** Pins the count down from the two thresholds around `p`. */
  lemma ReachedIs(ts: seq<real>, p: real, k: nat)
    requires Ascending(ts) && k <= |ts|
    requires k == 0 || ts[k - 1] <= p
    requires k == |ts| || p < ts[k]
    ensures Reached(ts, p) == k
  {
    ReachedAscending(ts, p);
    var n := Reached(ts, p);
    assert k < |ts| ==> (k < n <==> ts[k] <= p);
    assert 0 < k ==> (k - 1 < n <==> ts[k - 1] <= p);
  }

  /** On an ascending list, the last reached index is the count minus one. */
  lemma LastReachedIsCountMinusOne(ts: seq<real>, p: real)
    requires Ascending(ts)
    ensures LastReached(ts, p) == Reached(ts, p) - 1
  {
    var i := LastReached(ts, p);
    if 0 <= i {
      forall k | 0 <= k < i ensures ts[k] <= p {
        AscendingOrdered(ts, k, i);
      }
    }
    ReachedIs(ts, p, i + 1);
  }

  /** The counting loop of the reveal scenes: one increment per reached threshold. */
  method CountReached(ts: seq<real>, p: real) returns (count: nat)
    ensures count == Reached(ts, p)
  {
    count := 0;
    for i := 0 to |ts|
      invariant count == Reached(ts[..i], p)
    {
      assert ts[..i + 1][..i] == ts[..i];
      if p >= ts[i] {
        count := count + 1;
      }
    }
    assert ts[..|ts|] == ts;
  }
}
