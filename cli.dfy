/** The offline runner's split of a loaded interaction list into a "previous" and a "current" part. */
module Cli {
  import opened Models

  /** `max(1, int(n * ratio))`: the split point, never below one. */
  function SplitIndex(n: nat, ratio: real): (k: int)
    ensures k >= 1
    ensures ratio >= 1.0 ==> k >= n
    ensures k > 1 ==> k as real <= n as real * ratio < k as real + 1.0
    ensures k == 1 <==> n as real * ratio < 2.0
  {
    ScaledAtLeast(n, ratio);
    var t := Trunc(n as real * ratio);
    if 1 >= t then 1 else t
  }

  /** A ratio of at least one does not shrink a count. */
  lemma ScaledAtLeast(n: nat, ratio: real)
    ensures ratio >= 1.0 ==> n as real * ratio >= n as real
  {
    assert n as real * ratio == n as real + n as real * (ratio - 1.0);
  }

  /** `_split_interactions`: `xs[:k]` and `xs[k:]` for the split point `k`, Python slicing
      clamping `k` to the length. */
  function SplitInteractions<T>(xs: seq<T>, ratio: real): (r: (seq<T>, seq<T>))
    ensures r.0 + r.1 == xs
    ensures |r.0| == if SplitIndex(|xs|, ratio) <= |xs| then SplitIndex(|xs|, ratio) else |xs|
    ensures xs != [] ==> r.0 != []
    ensures ratio >= 1.0 ==> r.0 == xs && r.1 == []
    ensures xs == [] ==> r.0 == [] && r.1 == []
  {
    var k := SplitIndex(|xs|, ratio);
    var cut := if k <= |xs| then k else |xs|;
    assert xs[..cut] + xs[cut..] == xs;
    (xs[..cut], xs[cut..])
  }
}
