/**
 * The gatha generator's deterministic parts: the uniform sample of questions put into its
 * prompts, the check that rejects a verse holding Latin, kana or Hangul letters, and the data it
 * returns for an iteration. The language model's replies are parameters.
 */
module Gatha {
  import opened Wrappers
  import opened Text
  import opened Models

  /** Position of the `i`-th sampled question: `i * (n // m)`. */
  function SampleIndex(n: nat, m: nat, i: nat): (k: nat)
    requires 0 < m < n && i < m
    ensures k < n
  {
    SampleIndexBound(n, m, i);
    i * (n / m)
  }

  /** A product grows with its first factor. */
  lemma MulMonotone(a: nat, b: nat, c: nat)
    requires a <= b
    ensures a * c <= b * c
  {
    assert b * c - a * c == (b - a) * c;
  }

  /** The last sampled position, and so every one, lies before the end. */
  lemma SampleIndexBound(n: nat, m: nat, i: nat)
    requires 0 < m < n && i < m
    ensures i * (n / m) < n
  {
    var step := n / m;
    assert m * step + n % m == n;
    assert step >= 1;
    MulMonotone(i, m - 1, step);
    assert (m - 1) * step == m * step - step;
  }

  /** Sampled positions strictly increase and the first is 0. */
  lemma SampleIndicesIncrease(n: nat, m: nat, i: nat, j: nat)
    requires 0 < m < n && i < j < m
    ensures SampleIndex(n, m, i) < SampleIndex(n, m, j)
    ensures SampleIndex(n, m, 0) == 0
  {
    var step := n / m;
    assert m * step + n % m == n;
    assert step >= 1;
    MulMonotone(1, j - i, step);
    assert j * step - i * step == (j - i) * step;
    assert SampleIndex(n, m, 0) == 0 * step;
  }

  /** `_sample_questions`: the whole list when it is short enough, otherwise `max_count` items
      taken every `len // max_count` positions. A zero `max_count` with a non-empty list divides
      by zero; a negative one samples nothing. */
  function SampleQuestions<T>(questions: seq<T>, maxCount: int): (r: Result<seq<T>, Exception>)
    ensures |questions| <= maxCount ==> r == Ok(questions)
    ensures r.Err? <==> maxCount == 0 && |questions| > 0
    ensures maxCount < 0 ==> r == Ok([])
    ensures 0 < maxCount < |questions| ==>
              r.Ok? && |r.value| == maxCount
              && forall i :: 0 <= i < maxCount ==> r.value[i] == questions[SampleIndex(|questions|, maxCount, i)]
  {
    if |questions| <= maxCount then Ok(questions)
    else if maxCount == 0 then Err(ZeroDivisionError("integer division or modulo by zero"))
    else if maxCount < 0 then Ok([])
    else Ok(seq(maxCount, i requires 0 <= i < maxCount => questions[SampleIndex(|questions|, maxCount, i)]))
  }

  /** A character the verse may not hold: an ASCII letter, hiragana, katakana or a Hangul syllable. */
  predicate IsForeignLetter(c: char) {
    ('a' <= c <= 'z') || ('A' <= c <= 'Z') || ('\U{3040}' <= c <= '\U{309F}')
    || ('\U{30A0}' <= c <= '\U{30FF}') || ('\U{AC00}' <= c <= '\U{D7AF}')
  }

  /** `_contains_non_chinese`: the pattern search, scanning from the start. */
  function ContainsNonChinese(text: string): (found: bool)
    ensures found <==> exists i :: 0 <= i < |text| && IsForeignLetter(text[i])
    decreases |text|
  {
    if text == [] then false
    else if IsForeignLetter(text[0]) then true
    else
      var rest := ContainsNonChinese(text[1..]);
      assert forall i :: 1 <= i < |text| ==> text[i] == text[1..][i - 1];
      rest
  }

  /** The verse kept from the model's reply (or the failure of the call): the stripped reply,
      or nothing when the call fails or the reply holds a foreign letter. */
  function GathaText(reply: Result<string, string>): (gatha: string)
    ensures !ContainsNonChinese(gatha)
    ensures reply.Ok? && !ContainsNonChinese(Strip(reply.value)) ==> gatha == Strip(reply.value)
    ensures reply.Err? ==> gatha == []
  {
    if reply.Err? then []
    else
      var text := Strip(reply.value);
      if ContainsNonChinese(text) then [] else text
  }

  /** The explanation kept from the model's reply: stripped, or nothing when the call fails. */
  function ExplanationText(reply: Result<string, string>): (explanation: string)
    ensures reply.Err? ==> explanation == []
    ensures reply.Ok? ==> explanation == Strip(reply.value)
  {
    if reply.Err? then [] else Strip(reply.value)
  }

  /** What `generate_gatha` returns (its timing, timestamp and audio fields aside), with the
      question samples the two prompts were given; `None` when no prompt was built. The quiet
      verse's dictionary has no rejection density or refusal frequency: those are `None` there. */
  datatype GathaData = GathaData(
    gatha: string,
    explanation: string,
    questionsCount: nat,
    resonanceRatio: real,
    rejectionDensity: Option<real>,
    refusalFrequency: Option<real>,
    state: string,
    gathaSample: Option<seq<string>>,
    explanationSample: Option<seq<string>>)

  /** The questions of an iteration, in order. */
  function UserQuestions(interactions: seq<Interaction>): (qs: seq<string>)
    ensures |qs| == |interactions|
    ensures forall i :: 0 <= i < |qs| ==> qs[i] == interactions[i].userInput
  {
    seq(|interactions|, i requires 0 <= i < |interactions| => interactions[i].userInput)
  }

  /** `generate_gatha`: an iteration without interactions gets the fixed quiet verse with a
      count of 0 and no prompt at all; otherwise the verse and its explanation come from the
      model's replies, and the count is the number of interactions. */
  function GenerateGatha(interactions: seq<Interaction>, metrics: IterationMetrics, state: SystemState,
                         maxQuestionsSample: int, gathaReply: Result<string, string>,
                         explanationReply: Result<string, string>): (r: Result<GathaData, Exception>)
    ensures interactions == [] ==>
              r == Ok(GathaData("此期無問，心自清明。", "本期沒有用戶提問，系統處於清明靜默狀態。", 0, 0.0,
                                None, None, state.Value(), None, None))
    ensures r.Ok? ==> r.value.questionsCount == |interactions| && r.value.state == state.Value()
    ensures interactions != [] && r.Ok? ==>
              && r.value.gatha == GathaText(gathaReply)
              && r.value.explanation == ExplanationText(explanationReply)
              && r.value.resonanceRatio == metrics.resonanceRatio
              && r.value.rejectionDensity == Some(metrics.rejectionDensity)
              && r.value.refusalFrequency == Some(metrics.refusalFrequency)
              && r.value.gathaSample.Some? && r.value.explanationSample.Some?
              && Ok(r.value.gathaSample.value) == SampleQuestions(UserQuestions(interactions), maxQuestionsSample)
              && Ok(r.value.explanationSample.value) == SampleQuestions(UserQuestions(interactions), 5)
    ensures r.Err? <==> interactions != [] && maxQuestionsSample == 0
  {
    if interactions == [] then
      Ok(GathaData("此期無問，心自清明。", "本期沒有用戶提問，系統處於清明靜默狀態。", 0, 0.0, None, None, state.Value(), None, None))
    else
      var questions := UserQuestions(interactions);
      var sample := SampleQuestions(questions, maxQuestionsSample);
      if sample.Err? then Err(sample.error)
      else
        var explanationSample := SampleQuestions(questions, 5);
        Ok(GathaData(GathaText(gathaReply), ExplanationText(explanationReply), |questions|,
                     metrics.resonanceRatio, Some(metrics.rejectionDensity), Some(metrics.refusalFrequency),
                     state.Value(), Some(sample.value), Some(explanationSample.value)))
  }
}
