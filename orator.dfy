/**
 * The orator, the public-facing responder: the refusal heuristic applied to every reply, the
 * instruction that asks for the user's language, and what one exchange produces when the
 * language model answers or fails.
 */
module Orator {
  import opened Wrappers
  import opened Text
  import opened Models

  /** The refusal heuristic over a phrase list: fewer than ten words, or some phrase in the
      lower-cased reply. */
  function RefusesWith(responseText: string, phrases: seq<string>): (r: bool)
    ensures r <==> |Words(responseText)| < 10 || ContainsAny(Lower(responseText), phrases)
  {
    if |Words(responseText)| < 10 then true
    else FindAny(Lower(responseText), phrases)
  }

  /** The phrases that mark a refusal, in the order they are tried. */
  const RefusalPhrases: seq<string> := ["i cannot", "i can't", "i'm unable", "i am unable", "i don't know",
                                        "i do not know", "i refuse", "i will not", "i won't", "[system error"]

  /** `_detect_refusal`: the policy's refusal threshold is read but plays no part. */
  function DetectRefusal(responseText: string, policy: map<string, Num>): (r: bool)
    ensures r <==> |Words(responseText)| < 10 || ContainsAny(Lower(responseText), RefusalPhrases)
  {
    var threshold := MetricOr(policy, "refusal_threshold");
    RefusesWith(responseText, RefusalPhrases)
  }

  /** A reply of at least ten words that holds none of the phrases is an answer. */
  lemma LongPlainReplyIsAnswer(responseText: string, policy: map<string, Num>)
    requires |Words(responseText)| >= 10
    requires forall i :: 0 <= i < |RefusalPhrases| ==> !Contains(Lower(responseText), RefusalPhrases[i])
    ensures !DetectRefusal(responseText, policy)
  {
  }

  /** The text that replaces the reply when the model call raises: a timeout, a connection
      problem or a generic failure, judged on the lower-cased exception text. */
  function FailureText(exceptionText: string): (text: string)
    ensures StartsWith(text, "[System Error: ")
  {
    var lower := Lower(exceptionText);
    var message := if Contains(lower, "timeout") then "Request timeout"
                   else if Contains(lower, "connection") then "Connection failed"
                   else "LLM request failed";
    "[System Error: " + message + "]"
  }

  /** The failure text is one the refusal heuristic itself flags, so marking it a refusal agrees
      with the detector. */
  lemma FailureTextIsRefusal(exceptionText: string, policy: map<string, Num>)
    ensures DetectRefusal(FailureText(exceptionText), policy)
  {
    var text := FailureText(exceptionText);
    var lower := Lower(text);
    var prefix := "[system error";
    assert text[..15] == "[System Error: ";
    assert lower[..|prefix|] == prefix by {
      forall i | 0 <= i < |prefix| ensures lower[i] == prefix[i] {
        assert lower[i] == LowerChar(text[i]);
      }
    }
    assert StartsWith(lower, prefix);
    assert RefusalPhrases[9] == prefix;
  }

  /** The languages with their own instruction. */
  const Languages: set<string> := {"zh", "zh-tw", "en", "ja", "ko"}

  /** The instruction appended to the user's input: one per known language, English otherwise. */
  function LanguageInstruction(language: string): (instruction: string)
    ensures language !in Languages ==> instruction == "Please respond in English."
  {
    match language
    case "zh" => "请用简体中文回答。"
    case "zh-tw" => "請用繁體中文回答。"
    case "ja" => "日本語で答えてください。"
    case "ko" => "한국어로 답변해 주세요."
    case _ => "Please respond in English."
  }

  /** One chat message. */
  datatype Message = Message(role: string, content: string)

  /** What one `respond` call sends, gets back and stores. */
  datatype Exchange = Exchange(
    messages: seq<Message>,
    temperature: real,
    maxTokens: int,
    responseText: string,
    refusal: bool,
    promptVersion: int,
    stored: Interaction)

  /** `respond` for the latest prompt `latest` (version and record) and the outcome `llm` of the
      model call (the reply, or the text of the exception it raised): no prompt is a
      `RuntimeError`; a failed call yields the failure text marked as a refusal; a reply is
      judged by the refusal heuristic. The stored interaction has no feedback yet, which the
      archive records as "ignore". */
  function Respond(latest: Option<(int, string, map<string, Num>)>, userInput: string, language: string,
                   llm: Result<string, string>): (r: Result<Exchange, Exception>)
    ensures latest.None? <==> r == Err(RuntimeError("No prompt available. Initialize system first."))
    ensures r.Ok? ==> r.value.messages == [Message("system", latest.value.1),
                                          Message("user", userInput + "\n\n" + LanguageInstruction(language))]
                      && r.value.promptVersion == latest.value.0
    ensures r.Ok? && llm.Err? ==> r.value.responseText == FailureText(llm.error) && r.value.refusal
    ensures r.Ok? && llm.Ok? ==> r.value.responseText == llm.value
                                 && r.value.refusal == DetectRefusal(llm.value, latest.value.2)
    ensures r.Ok? ==> r.value.refusal == DetectRefusal(r.value.responseText, latest.value.2)
    ensures r.Ok? ==> r.value.temperature == (if "temperature" in latest.value.2 then latest.value.2["temperature"].AsReal() else 0.7)
                      && r.value.maxTokens == (if "max_output_tokens" in latest.value.2 then latest.value.2["max_output_tokens"].AsInt() else 220)
    ensures r.Ok? ==> r.value.stored == Interaction(userInput, r.value.responseText, "ignore", r.value.refusal)
  {
    if latest.None? then Err(RuntimeError("No prompt available. Initialize system first."))
    else
      var (version, promptText, policy) := latest.value;
      var messages := [Message("system", promptText), Message("user", userInput + "\n\n" + LanguageInstruction(language))];
      var temperature := if "temperature" in policy then policy["temperature"].AsReal() else 0.7;
      var maxTokens := if "max_output_tokens" in policy then policy["max_output_tokens"].AsInt() else 220;
      var text := if llm.Err? then FailureText(llm.error) else llm.value;
      var refusal := if llm.Err? then true else DetectRefusal(llm.value, policy);
      var exchange := Exchange(messages, temperature, maxTokens, text, refusal, version,
                               Interaction(userInput, text, "ignore", refusal));
      if llm.Err? then
        FailureTextIsRefusal(llm.error, policy);
        Ok(exchange)
      else
        Ok(exchange)
  }
}
