/**
 * The engine's value types: the operating states, the evolution actions, one logged
 * interaction, the metrics of an iteration, the generation policy and a prompt snapshot,
 * with the dictionary forms under which they are stored.
 */
module Models {
  import opened Wrappers
  import opened Text

  /** Health classification of an iteration. */
  datatype SystemState = Stable | Drifting | Collapsing | Mute | Dead
  {
    /** The enum's string value. */
    function Value(): string {
      match this
      case Stable => "stable"
      case Drifting => "drifting"
      case Collapsing => "collapsing"
      case Mute => "mute"
      case Dead => "dead"
    }
  }

  /** `SystemState(s)`: the state whose value is `s`, if any. */
  function ParseSystemState(s: string): (r: Option<SystemState>)
    ensures forall st: SystemState :: r == Some(st) <==> st.Value() == s
  {
    match s
    case "stable" => Some(Stable)
    case "drifting" => Some(Drifting)
    case "collapsing" => Some(Collapsing)
    case "mute" => Some(Mute)
    case "dead" => Some(Dead)
    case _ => None
  }

  /** Policy adjustments the evolution step can report. */
  datatype EvolutionAction =
    | TightenLength | RelaxLength | RaiseRefusalThreshold | LowerRefusalThreshold
    | MildPerturbation | TuneTemperature
  {
    function Value(): string {
      match this
      case TightenLength => "tighten_length"
      case RelaxLength => "relax_length"
      case RaiseRefusalThreshold => "raise_refusal_threshold"
      case LowerRefusalThreshold => "lower_refusal_threshold"
      case MildPerturbation => "mild_perturbation"
      case TuneTemperature => "tune_temperature"
    }
  }

  /** `EvolutionAction(s)`: the action whose value is `s`, if any. */
  function ParseEvolutionAction(s: string): (r: Option<EvolutionAction>)
    ensures forall a: EvolutionAction :: r == Some(a) <==> a.Value() == s
  {
    match s
    case "tighten_length" => Some(TightenLength)
    case "relax_length" => Some(RelaxLength)
    case "raise_refusal_threshold" => Some(RaiseRefusalThreshold)
    case "lower_refusal_threshold" => Some(LowerRefusalThreshold)
    case "mild_perturbation" => Some(MildPerturbation)
    case "tune_temperature" => Some(TuneTemperature)
    case _ => None
  }

  /** The string values of a list of actions, in order. */
  function ActionValues(actions: seq<EvolutionAction>): (vs: seq<string>)
    ensures |vs| == |actions|
    ensures forall i :: 0 <= i < |vs| ==> ParseEvolutionAction(vs[i]) == Some(actions[i])
  {
    seq(|actions|, i requires 0 <= i < |actions| => actions[i].Value())
  }

  /** One logged exchange: the user's input, the reply, the free-form feedback tag and
      whether the reply was a refusal. */
  datatype Interaction = Interaction(userInput: string, responseText: string, feedback: string, refusal: bool)
  {
    /** Number of whitespace-separated words of the reply. */
    function ResponseLength(): (n: nat)
      ensures n == 0 <==> IsBlank(responseText)
    {
      NoWordsIffBlank(responseText);
      |Words(responseText)|
    }
  }

  /** A number stored in a dictionary: a Python `int` or a `float` (modelled as a real). */
  datatype Num = IntV(i: int) | RealV(r: real)
  {
    /** `float(v)`. */
    function AsReal(): real {
      match this
      case IntV(i) => i as real
      case RealV(r) => r
    }

    /** `int(v)`: an int is kept, a float is truncated toward zero. */
    function AsInt(): int {
      match this
      case IntV(i) => i
      case RealV(r) => Trunc(r)
    }
  }

  /** `metrics.get(key, 0)`: an absent metric reads as zero. */
  function MetricOr(metrics: map<string, Num>, key: string): (v: Num)
    ensures key in metrics ==> v == metrics[key]
    ensures key !in metrics ==> v.AsReal() == 0.0 && v.AsInt() == 0
  {
    if key in metrics then metrics[key] else IntV(0)
  }

  /** Python's `int(x)` for a float: rounds toward zero. */
  function Trunc(x: real): (n: int)
    ensures x >= 0.0 ==> 0.0 <= n as real <= x < n as real + 1.0
    ensures x < 0.0 ==> n as real - 1.0 < x <= n as real <= 0.0
  {
    if x >= 0.0 then x.Floor else -((-x).Floor)
  }

  /** The measurements of one iteration. */
  datatype IterationMetrics = IterationMetrics(
    totalResponses: int,
    resonanceRatio: real,
    rejectionDensity: real,
    responseLengthDrift: real,
    refusalFrequency: real,
    semanticCollapseIndex: real,
    averageResponseLength: real)
  {
    /** The stored dictionary form: one entry per field, under the field's own name. */
    function ToDict(): (d: map<string, Num>)
      ensures d.Keys == MetricKeys()
      ensures d["total_responses"] == IntV(totalResponses)
      ensures d["resonance_ratio"].AsReal() == resonanceRatio
      ensures d["rejection_density"].AsReal() == rejectionDensity
      ensures d["response_length_drift"].AsReal() == responseLengthDrift
      ensures d["refusal_frequency"].AsReal() == refusalFrequency
      ensures d["semantic_collapse_index"].AsReal() == semanticCollapseIndex
      ensures d["average_response_length"].AsReal() == averageResponseLength
    {
      map["total_responses" := IntV(totalResponses),
          "resonance_ratio" := RealV(resonanceRatio),
          "rejection_density" := RealV(rejectionDensity),
          "response_length_drift" := RealV(responseLengthDrift),
          "refusal_frequency" := RealV(refusalFrequency),
          "semantic_collapse_index" := RealV(semanticCollapseIndex),
          "average_response_length" := RealV(averageResponseLength)]
    }
  }

  /** The seven keys of a stored metrics dictionary. */
  function MetricKeys(): set<string> {
    {"total_responses", "resonance_ratio", "rejection_density", "response_length_drift",
     "refusal_frequency", "semantic_collapse_index", "average_response_length"}
  }

  /** The seven keys are distinct, so the stored form has exactly seven entries. */
  lemma MetricDictSize(m: IterationMetrics)
    ensures |m.ToDict()| == 7
  {
    var d := m.ToDict();
    assert d.Keys == {"total_responses"} + {"resonance_ratio"} + {"rejection_density"}
      + {"response_length_drift"} + {"refusal_frequency"} + {"semantic_collapse_index"}
      + {"average_response_length"};
  }

  /** The generation knobs handed to the language model. */
  datatype PromptPolicy = PromptPolicy(
    maxOutputTokens: int,
    refusalThreshold: real,
    perturbationLevel: real,
    temperature: real)
  {
    /** The stored dictionary form; reading it back gives the same policy. */
    function ToDict(): (d: map<string, Num>)
      ensures d.Keys == PolicyKeys()
      ensures PolicyFromDict(d) == Ok(this)
    {
      map["max_output_tokens" := IntV(maxOutputTokens),
          "refusal_threshold" := RealV(refusalThreshold),
          "perturbation_level" := RealV(perturbationLevel),
          "temperature" := RealV(temperature)]
    }
  }

  /** The four keys of a stored policy dictionary. */
  function PolicyKeys(): set<string> {
    {"max_output_tokens", "refusal_threshold", "perturbation_level", "temperature"}
  }

  /** `PromptPolicy.from_dict`: `int()` of the token budget, `float()` of the rest; the first
      absent key, in that order, raises `KeyError`. */
  function PolicyFromDict(data: map<string, Num>): (r: Result<PromptPolicy, Exception>)
    ensures r.Ok? <==> PolicyKeys() <= data.Keys
    ensures r.Ok? ==> (r.value.maxOutputTokens == data["max_output_tokens"].AsInt()
                       && r.value.refusalThreshold == data["refusal_threshold"].AsReal()
                       && r.value.perturbationLevel == data["perturbation_level"].AsReal()
                       && r.value.temperature == data["temperature"].AsReal())
    ensures r.Err? ==> r.error.KeyError? && r.error.message in PolicyKeys() && r.error.message !in data
  {
    if "max_output_tokens" !in data then Err(KeyError("max_output_tokens"))
    else if "refusal_threshold" !in data then Err(KeyError("refusal_threshold"))
    else if "perturbation_level" !in data then Err(KeyError("perturbation_level"))
    else if "temperature" !in data then Err(KeyError("temperature"))
    else Ok(PromptPolicy(
      data["max_output_tokens"].AsInt(),
      data["refusal_threshold"].AsReal(),
      data["perturbation_level"].AsReal(),
      data["temperature"].AsReal()))
  }

  /** A numbered policy together with the prompt text rendered from it. */
  datatype PromptSnapshot = PromptSnapshot(version: int, policy: PromptPolicy, promptText: string)
}
