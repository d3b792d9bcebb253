/**
 * Health metrics of a batch of interactions: resonance and refusal ratios, the densest
 * window of rejections, the mean reply length and its drift against a previous batch, and the
 * semantic collapse index built on token diversity.
 */
module Metrics {
  import opened Wrappers
  import opened Text
  import opened Models

  /** Number of interactions whose feedback is exactly `tag`. */
  function CountFeedback(xs: seq<Interaction>, tag: string): (n: nat)
    ensures n <= |xs|
  {
    if xs == [] then 0
    else CountFeedback(xs[..|xs| - 1], tag) + (if xs[|xs| - 1].feedback == tag then 1 else 0)
  }

  /** Number of interactions flagged as refusals. */
  function CountRefusals(xs: seq<Interaction>): (n: nat)
    ensures n <= |xs|
  {
    if xs == [] then 0
    else CountRefusals(xs[..|xs| - 1]) + (if xs[|xs| - 1].refusal then 1 else 0)
  }

  /** Sum of the replies' word counts. */
  function SumLengths(xs: seq<Interaction>): nat {
    if xs == [] then 0 else SumLengths(xs[..|xs| - 1]) + xs[|xs| - 1].ResponseLength()
  }

  /** Two different tags never count the same interaction: together they count at most all. */
  lemma {:induction false} DistinctTagsDisjoint(xs: seq<Interaction>, a: string, b: string)
    requires a != b
    ensures CountFeedback(xs, a) + CountFeedback(xs, b) <= |xs|
  {
    if xs != [] {
      DistinctTagsDisjoint(xs[..|xs| - 1], a, b);
    }
  }

  /** Every reply is blank exactly when the total word count is zero. */
  lemma {:induction false} NoWordsIffAllBlank(xs: seq<Interaction>)
    ensures SumLengths(xs) == 0 <==> forall i :: 0 <= i < |xs| ==> IsBlank(xs[i].responseText)
  {
    if xs != [] {
      var init := xs[..|xs| - 1];
      NoWordsIffAllBlank(init);
      assert forall i :: 0 <= i < |init| ==> init[i] == xs[i];
    }
  }

  /** Python's true division `a / b` of two counts. */
  function Ratio(a: nat, b: nat): (r: real)
    requires b > 0
    ensures 0.0 <= r
    ensures r * b as real == a as real
    ensures a <= b ==> r <= 1.0
  {
    a as real / b as real
  }

  /** `max(a, b)` on reals. */
  function RMax(a: real, b: real): (m: real)
    ensures m >= a && m >= b && (m == a || m == b)
  {
    if a >= b then a else b
  }

  /** `max(lo, min(hi, v))` for the unit interval. */
  function Clamp01(v: real): (c: real)
    ensures 0.0 <= c <= 1.0
    ensures 0.0 <= v <= 1.0 ==> c == v
    ensures v < 0.0 ==> c == 0.0
    ensures v > 1.0 ==> c == 1.0
  {
    if v < 0.0 then 0.0 else if v > 1.0 then 1.0 else v
  }

  /** The window length: `max(1, min(window_size, n))`. */
  function WindowSize(windowSize: int, n: nat): (size: nat)
    requires n > 0
    ensures 1 <= size <= n
    ensures windowSize >= n ==> size == n
    ensures 1 <= windowSize <= n ==> size == windowSize
    ensures windowSize < 1 ==> size == 1
  {
    if windowSize < 1 then 1 else if windowSize < n then windowSize else n
  }

  /** Fraction of rejections among `xs[start .. start + size]`. */
  function WindowDensity(xs: seq<Interaction>, start: nat, size: nat): (d: real)
    requires 1 <= size && start + size <= |xs|
    ensures 0.0 <= d <= 1.0
  {
    Ratio(CountFeedback(xs[start..start + size], "rejection"), size)
  }

  /** The greatest density among the windows starting before `k`, or 0.0 if there is none. */
  function BestWindow(xs: seq<Interaction>, size: nat, k: nat): (best: real)
    requires 1 <= size && k + size <= |xs| + 1
    ensures 0.0 <= best <= 1.0
  {
    if k == 0 then 0.0 else RMax(BestWindow(xs, size, k - 1), WindowDensity(xs, k - 1, size))
  }

  /** `BestWindow` is the maximum of the window densities, and is attained by one of them. */
  lemma {:induction false} BestWindowIsMaximum(xs: seq<Interaction>, size: nat, k: nat)
    requires 1 <= size && k + size <= |xs| + 1
    ensures forall s :: 0 <= s < k ==> WindowDensity(xs, s, size) <= BestWindow(xs, size, k)
    ensures k > 0 ==> exists s :: 0 <= s < k && BestWindow(xs, size, k) == WindowDensity(xs, s, size)
  {
    if k > 0 {
      BestWindowIsMaximum(xs, size, k - 1);
      var last := WindowDensity(xs, k - 1, size);
      var prev := BestWindow(xs, size, k - 1);
      assert BestWindow(xs, size, k) == RMax(prev, last);
      if last >= prev {
        assert BestWindow(xs, size, k) == last;
        assert 0 <= k - 1 < k && BestWindow(xs, size, k) == WindowDensity(xs, k - 1, size);
      } else {
        assert BestWindow(xs, size, k) == prev && prev > 0.0;
        assert k - 1 > 0;
        var s :| 0 <= s < k - 1 && BestWindow(xs, size, k - 1) == WindowDensity(xs, s, size);
        assert 0 <= s < k && BestWindow(xs, size, k) == WindowDensity(xs, s, size);
      }
    }
  }

  /** The rejection density of a batch: the densest contiguous window of
      `WindowSize(windowSize, |xs|)` interactions, and 0.0 for an empty batch. */
  function RejectionDensity(xs: seq<Interaction>, windowSize: int): (d: real)
    ensures 0.0 <= d <= 1.0
    ensures xs != [] ==>
      var size := WindowSize(windowSize, |xs|);
      (forall s :: 0 <= s <= |xs| - size ==> WindowDensity(xs, s, size) <= d)
      && (exists s :: 0 <= s <= |xs| - size && d == WindowDensity(xs, s, size))
  {
    if xs == [] then 0.0
    else
      var size := WindowSize(windowSize, |xs|);
      BestWindowIsMaximum(xs, size, |xs| - size + 1);
      BestWindow(xs, size, |xs| - size + 1)
  }

  /** `_sliding_rejection_density`: slides the window over the batch, keeping the best density. */
  method SlidingRejectionDensity(interactions: seq<Interaction>, windowSize: int) returns (maxDensity: real)
    ensures maxDensity == RejectionDensity(interactions, windowSize)
  {
    if |interactions| == 0 {
      return 0.0;
    }
    var size := WindowSize(windowSize, |interactions|);
    maxDensity := 0.0;
    var start := 0;
    while start < |interactions| - size + 1
      invariant 0 <= start <= |interactions| - size + 1
      invariant maxDensity == BestWindow(interactions, size, start)
    {
      var rejections := CountFeedback(interactions[start..start + size], "rejection");
      maxDensity := RMax(maxDensity, Ratio(rejections, size));
      start := start + 1;
    }
  }

  /** When the window covers the whole batch there is a single window, and the density is the
      overall fraction of rejections. */
  lemma SingleWindow(xs: seq<Interaction>, windowSize: int)
    requires xs != [] && windowSize >= |xs|
    ensures RejectionDensity(xs, windowSize) == Ratio(CountFeedback(xs, "rejection"), |xs|)
  {
    assert xs[0..0 + |xs|] == xs;
  }

  /** Three rejections in a row inside six interactions fill a window of three. */
  lemma DensityExample(a: string, b: string)
    ensures
      var ignore := Interaction(a, b, "ignore", false);
      var reject := Interaction(a, b, "rejection", false);
      RejectionDensity([ignore, ignore, reject, reject, reject, ignore], 3) == 1.0
  {
    var ignore := Interaction(a, b, "ignore", false);
    var reject := Interaction(a, b, "rejection", false);
    var xs := [ignore, ignore, reject, reject, reject, ignore];
    var w := xs[2..5];
    assert w == [reject, reject, reject];
    assert w[..2] == [reject, reject] && w[..2][..1] == [reject] && w[..2][..1][..0] == [];
    assert CountFeedback([reject], "rejection") == 1;
    assert CountFeedback([reject, reject], "rejection") == 2;
    assert CountFeedback(w, "rejection") == 3;
    assert WindowDensity(xs, 2, 3) == 1.0;
  }

  /** All whitespace tokens of the texts, in order (`tokens.extend(text.split())`). */
  function AllTokens(texts: seq<string>): seq<string> {
    if texts == [] then [] else AllTokens(texts[..|texts| - 1]) + Words(texts[|texts| - 1])
  }

  /** The distinct elements of a sequence. */
  function Distinct(s: seq<string>): set<string> {
    set t | t in s
  }

  /** A sequence has no more distinct elements than positions, and at least one if non-empty. */
  lemma {:induction false} DistinctBounds(s: seq<string>)
    ensures |Distinct(s)| <= |s|
    ensures s != [] ==> |Distinct(s)| >= 1
  {
    if s != [] {
      var init := s[..|s| - 1];
      DistinctBounds(init);
      assert Distinct(s) == Distinct(init) + {s[|s| - 1]};
      assert s[|s| - 1] in Distinct(s);
    }
  }

  /** `_token_diversity`: distinct tokens over all tokens, 0.0 when there is no token. */
  function Diversity(texts: seq<string>): (d: real)
    ensures AllTokens(texts) == [] ==> d == 0.0
    ensures AllTokens(texts) != [] ==> 0.0 < d <= 1.0
  {
    var tokens := AllTokens(texts);
    DistinctBounds(tokens);
    if tokens == [] then 0.0 else Ratio(|Distinct(tokens)|, |tokens|)
  }

  /** `_token_diversity` as written: collects the tokens text by text, then divides. */
  method TokenDiversity(texts: seq<string>) returns (d: real)
    ensures d == Diversity(texts)
  {
    var tokens: seq<string> := [];
    var i := 0;
    while i < |texts|
      invariant 0 <= i <= |texts|
      invariant tokens == AllTokens(texts[..i])
    {
      assert texts[..i + 1][..i] == texts[..i];
      tokens := tokens + Words(texts[i]);
      i := i + 1;
    }
    assert texts[..|texts|] == texts;
    if |tokens| == 0 {
      return 0.0;
    }
    var unique := set t | t in tokens;
    d := Ratio(|unique|, |tokens|);
  }

  /** The reply texts of a batch. */
  function Texts(xs: seq<Interaction>): (ts: seq<string>)
    ensures |ts| == |xs| && forall i :: 0 <= i < |xs| ==> ts[i] == xs[i].responseText
  {
    seq(|xs|, i requires 0 <= i < |xs| => xs[i].responseText)
  }

  /** Python's true division of two floats, for a positive divisor. */
  function Quotient(a: real, b: real): (q: real)
    requires b > 0.0
    ensures a >= 0.0 ==> q >= 0.0
    ensures a < 0.0 ==> q < 0.0
    ensures q * b == a
  {
    a / b
  }

  /** Mean word count of a non-empty batch. */
  function AverageLength(xs: seq<Interaction>): (avg: real)
    requires xs != []
    ensures avg >= 0.0
  {
    Ratio(SumLengths(xs), |xs|)
  }

  /** A previous batch takes part only when it is given and non-empty (Python's `if previous:`). */
  predicate HasPrevious(previous: Option<seq<Interaction>>) {
    previous.Some? && previous.value != []
  }

  /** `response_length_drift`: the batch's mean word count over the previous batch's; 1.0 when
      there is no previous batch or its mean is 0. */
  function LengthDrift(xs: seq<Interaction>, previous: Option<seq<Interaction>>): (drift: real)
    requires xs != []
    ensures drift >= 0.0
    ensures !HasPrevious(previous) ==> drift == 1.0
    ensures HasPrevious(previous) && SumLengths(previous.value) == 0 ==> drift == 1.0
    ensures HasPrevious(previous) && SumLengths(previous.value) > 0 ==>
              drift * AverageLength(previous.value) == AverageLength(xs)
  {
    if HasPrevious(previous) then
      var prevAvg := AverageLength(previous.value);
      if prevAvg != 0.0 then Quotient(AverageLength(xs), prevAvg) else 1.0
    else 1.0
  }

  /** `semantic_collapse_index`: the relative loss of token diversity against the previous batch
      (or against the batch itself when there is none), clamped to [0, 1]. */
  function CollapseIndex(xs: seq<Interaction>, previous: Option<seq<Interaction>>): (sci: real)
    ensures 0.0 <= sci <= 1.0
    ensures !HasPrevious(previous) ==> sci == 0.0
    ensures HasPrevious(previous) ==> (sci > 0.0 <==> Diversity(Texts(xs)) < Diversity(Texts(previous.value)))
  {
    var currentDiversity := Diversity(Texts(xs));
    var prevDiversity := if HasPrevious(previous) then Diversity(Texts(previous.value)) else currentDiversity;
    if prevDiversity > 0.0 then Clamp01(Quotient(prevDiversity - currentDiversity, prevDiversity)) else 0.0
  }

  /** `compute_metrics`. */
  function ComputeMetrics(xs: seq<Interaction>, previous: Option<seq<Interaction>>, windowSize: int): (m: IterationMetrics)
    ensures m.totalResponses == |xs|
    ensures 0.0 <= m.resonanceRatio <= 1.0 && 0.0 <= m.refusalFrequency <= 1.0
    ensures 0.0 <= m.rejectionDensity <= 1.0 && 0.0 <= m.semanticCollapseIndex <= 1.0
    ensures m.responseLengthDrift >= 0.0 && m.averageResponseLength >= 0.0
    ensures !HasPrevious(previous) ==> m.responseLengthDrift == 1.0 && m.semanticCollapseIndex == 0.0
    ensures xs != [] ==> (m.resonanceRatio == Ratio(CountFeedback(xs, "resonance"), |xs|)
                          && m.refusalFrequency == Ratio(CountRefusals(xs), |xs|)
                          && m.averageResponseLength == AverageLength(xs)
                          && m.rejectionDensity == RejectionDensity(xs, windowSize)
                          && m.responseLengthDrift == LengthDrift(xs, previous)
                          && m.semanticCollapseIndex == CollapseIndex(xs, previous))
  {
    if xs == [] then
      IterationMetrics(0, 0.0, 0.0, 1.0, 0.0, 0.0, 0.0)
    else
      var total := |xs|;
      IterationMetrics(
        total,
        Ratio(CountFeedback(xs, "resonance"), total),
        RejectionDensity(xs, windowSize),
        LengthDrift(xs, previous),
        Ratio(CountRefusals(xs), total),
        CollapseIndex(xs, previous),
        AverageLength(xs))
  }

  /** An empty batch has no responses, zero ratios and average, and a drift of exactly 1.0. */
  lemma EmptyBatch(previous: Option<seq<Interaction>>, windowSize: int)
    ensures ComputeMetrics([], previous, windowSize) == IterationMetrics(0, 0.0, 0.0, 1.0, 0.0, 0.0, 0.0)
  {
  }

  /** An empty previous batch is the same as none. */
  lemma EmptyPreviousIsNone(xs: seq<Interaction>, windowSize: int)
    ensures ComputeMetrics(xs, Some([]), windowSize) == ComputeMetrics(xs, None, windowSize)
  {
  }

  /** Comparing a batch with itself shows no drift and no collapse. */
  lemma {:induction false} SelfComparison(xs: seq<Interaction>, windowSize: int)
    requires xs != []
    ensures ComputeMetrics(xs, Some(xs), windowSize).responseLengthDrift == 1.0
    ensures ComputeMetrics(xs, Some(xs), windowSize).semanticCollapseIndex == 0.0
  {
  }
}
