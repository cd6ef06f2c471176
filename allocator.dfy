/** The allocator is modelled only by the outcome of each request: `true`
    when `realloc` returns a new block, `false` when it returns null. */
module Allocator {

  /** The values that end up stored when `xs` are appended one after another
      and the i-th reallocation has outcome `allocOk[i]`: a failed append
      stores nothing and the next append goes on from the unchanged vector. */
  function Kept<T>(xs: seq<T>, allocOk: seq<bool>): (r: seq<T>)
    requires |allocOk| == |xs|
    ensures |r| <= |xs|
    ensures (forall k :: 0 <= k < |allocOk| ==> allocOk[k]) ==> r == xs
    decreases |xs|
  {
    if |xs| == 0 then []
    else
      var n := |xs| - 1;
      Kept(xs[..n], allocOk[..n]) + (if allocOk[n] then [xs[n]] else [])
  }

  lemma KeptAppend<T>(xs: seq<T>, x: T, allocOk: seq<bool>, ok: bool)
    requires |allocOk| == |xs|
    ensures Kept(xs + [x], allocOk + [ok]) == Kept(xs, allocOk) + (if ok then [x] else [])
  {
    assert (xs + [x])[..|xs|] == xs;
    assert (allocOk + [ok])[..|xs|] == allocOk;
  }

  /** Every stored value was pushed, no more often than it was pushed, and a
      run whose reallocations all fail stores nothing. */
  lemma {:induction false} KeptFromPushed<T>(xs: seq<T>, allocOk: seq<bool>)
    requires |allocOk| == |xs|
    ensures multiset(Kept(xs, allocOk)) <= multiset(xs)
    ensures (forall k :: 0 <= k < |allocOk| ==> !allocOk[k]) ==> Kept(xs, allocOk) == []
    decreases |xs|
  {
    if |xs| > 0 {
      var n := |xs| - 1;
      assert xs == xs[..n] + [xs[n]];
      KeptFromPushed(xs[..n], allocOk[..n]);
    }
  }
}
