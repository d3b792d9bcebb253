/**
 * Iteration reports: the flat record built from a trainer result, its JSON payload form and
 * the parser that reads it back, the summary of one report and the metric deltas between two.
 */
module Reporting {
  import opened Wrappers
  import opened Text
  import opened Models
  import opened JsonData
  import opened Trainer
  import Config

  /** `IterationReport`: a trainer result with the state and actions as their string values and
      the metrics as their stored dictionary. */
  datatype IterationReport = IterationReport(
    iterationId: int,
    metrics: map<string, Num>,
    state: string,
    actions: seq<string>,
    promptVersion: Option<int>)

  /** `build_report`: every field copied from the trainer result, enums by value. */
  function BuildReport(result: TrainerIterationResult): (r: IterationReport)
    ensures r.iterationId == result.iterationId
    ensures ParseSystemState(r.state) == Some(result.state)
    ensures |r.actions| == |result.evolutionActions|
    ensures forall i :: 0 <= i < |r.actions| ==> ParseEvolutionAction(r.actions[i]) == Some(result.evolutionActions[i])
    ensures r.metrics == result.metrics.ToDict()
    ensures r.metrics.Keys == MetricKeys()
    ensures r.promptVersion == result.newPromptVersion
  {
    IterationReport(result.iterationId, result.metrics.ToDict(), result.state.Value(),
                    ActionValues(result.evolutionActions), result.newPromptVersion)
  }

  /** The keys `_parse_report` requires, in the order it reports them. */
  const ReportKeys: seq<string> := ["iteration_id", "metrics", "state", "actions", "prompt_version"]

  /** `_report_to_payload`: one entry per report field, under the keys the parser requires. */
  function ReportToPayload(r: IterationReport): (payload: map<string, Json>)
    ensures Config.HasAll(payload, ReportKeys)
  {
    map["iteration_id" := JNum(IntV(r.iterationId)),
        "metrics" := JObject(map k | k in r.metrics :: JNum(r.metrics[k])),
        "state" := JString(r.state),
        "actions" := JArray(seq(|r.actions|, i requires 0 <= i < |r.actions| => JString(r.actions[i]))),
        "prompt_version" := if r.promptVersion.Some? then JNum(IntV(r.promptVersion.value)) else JNull]
  }

  /** The metrics field as a report holds it: a dict of numbers. */
  function MetricsOf(v: Json): (r: Result<map<string, Num>, Exception>)
    ensures r.Ok? <==> v.JObject? && forall k :: k in v.fields ==> v.fields[k].JNum?
    ensures r.Ok? ==> r.value.Keys == v.fields.Keys && forall k :: k in r.value ==> v.fields[k] == JNum(r.value[k])
  {
    if v.JObject? && forall k :: k in v.fields ==> v.fields[k].JNum? then
      Ok(map k | k in v.fields :: v.fields[k].n)
    else Err(Unmodelled("metrics that are not a dict of numbers"))
  }

  /** `list(v)` as a report holds it: a list of strings. */
  function ActionsOf(v: Json): (r: Result<seq<string>, Exception>)
    ensures r.Ok? <==> v.JArray? && forall i :: 0 <= i < |v.items| ==> v.items[i].JString?
    ensures r.Ok? ==> |r.value| == |v.items| && forall i :: 0 <= i < |v.items| ==> v.items[i] == JString(r.value[i])
  {
    if v.JArray? && forall i :: 0 <= i < |v.items| ==> v.items[i].JString? then
      Ok(seq(|v.items|, i requires 0 <= i < |v.items| => v.items[i].s))
    else Err(Unmodelled("actions that are not a list of strings"))
  }

  /** The prompt version as a report holds it: `None` or an int. */
  function PromptVersionOf(v: Json): (r: Result<Option<int>, Exception>)
    ensures r == Ok(None) <==> v.JNull?
    ensures forall i :: r == Ok(Some(i)) <==> v == JNum(IntV(i))
  {
    match v
    case JNull => Ok(None)
    case JNum(IntV(i)) => Ok(Some(i))
    case _ => Err(Unmodelled("a prompt version that is neither None nor an int"))
  }

  /** `_parse_report`: every missing key is reported in one `ValueError`; otherwise the fields
      are read in order with `int()`, `str()` and `list()`. */
  function ParseReport(payload: map<string, Json>, path: string): (r: Result<IterationReport, Exception>)
    ensures !Config.HasAll(payload, ReportKeys) ==>
              r == Err(ValueError("Missing keys in report " + path + ": " + Join(Config.Missing(payload, ReportKeys))))
    ensures r.Ok? ==> Config.HasAll(payload, ReportKeys)
                      && "iteration_id" in payload && "metrics" in payload && "state" in payload
                      && "actions" in payload && "prompt_version" in payload
                      && IntOf(payload["iteration_id"]) == Ok(r.value.iterationId)
                      && MetricsOf(payload["metrics"]) == Ok(r.value.metrics)
                      && StrOf(payload["state"]) == Ok(r.value.state)
                      && ActionsOf(payload["actions"]) == Ok(r.value.actions)
                      && PromptVersionOf(payload["prompt_version"]) == Ok(r.value.promptVersion)
  {
    var missing := Config.Missing(payload, ReportKeys);
    if missing != [] then
      Err(ValueError("Missing keys in report " + path + ": " + Join(missing)))
    else
      assert "iteration_id" == ReportKeys[0] && "metrics" == ReportKeys[1] && "state" == ReportKeys[2];
      assert "actions" == ReportKeys[3] && "prompt_version" == ReportKeys[4];
      var id := IntOf(payload["iteration_id"]);
      if id.Err? then Err(id.error)
      else
        var metrics := MetricsOf(payload["metrics"]);
        if metrics.Err? then Err(metrics.error)
        else
          var state := StrOf(payload["state"]);
          if state.Err? then Err(state.error)
          else
            var actions := ActionsOf(payload["actions"]);
            if actions.Err? then Err(actions.error)
            else
              var version := PromptVersionOf(payload["prompt_version"]);
              if version.Err? then Err(version.error)
              else Ok(IterationReport(id.value, metrics.value, state.value, actions.value, version.value))
  }

  /** Writing a report as a payload and parsing it back gives the same report. */
  lemma PayloadRoundTrip(r: IterationReport, path: string)
    ensures ParseReport(ReportToPayload(r), path) == Ok(r)
  {
    var payload := ReportToPayload(r);
    var metrics := MetricsOf(payload["metrics"]);
    assert metrics.Ok? && metrics.value == r.metrics;
    var actions := ActionsOf(payload["actions"]);
    assert actions.Ok? && actions.value == r.actions;
  }

  /** Every required key absent from the payload, and only those, is named in the error. */
  lemma MissingKeysNamed(payload: map<string, Json>, path: string, key: string)
    requires ParseReport(payload, path).Err? && !Config.HasAll(payload, ReportKeys)
    ensures key in Config.Missing(payload, ReportKeys) <==> key in ReportKeys && key !in payload
  {
    Config.MissingExactlyAbsent(payload, ReportKeys, key);
  }

  /** `summarize_report`'s dictionary. */
  datatype ReportSummary = ReportSummary(
    state: string,
    totalResponses: int,
    resonanceRatio: real,
    rejectionDensity: real,
    refusalFrequency: real,
    semanticCollapseIndex: real,
    actionsCount: nat,
    promptVersion: Option<int>)

  /** `summarize_report`: the state, the action count, the prompt version and five metrics, each
      read with a zero default. */
  function SummarizeReport(report: IterationReport): (s: ReportSummary)
    ensures s.state == report.state && s.actionsCount == |report.actions| && s.promptVersion == report.promptVersion
    ensures s.totalResponses == (if "total_responses" in report.metrics then report.metrics["total_responses"].AsInt() else 0)
    ensures s.resonanceRatio == (if "resonance_ratio" in report.metrics then report.metrics["resonance_ratio"].AsReal() else 0.0)
    ensures s.rejectionDensity == (if "rejection_density" in report.metrics then report.metrics["rejection_density"].AsReal() else 0.0)
    ensures s.refusalFrequency == (if "refusal_frequency" in report.metrics then report.metrics["refusal_frequency"].AsReal() else 0.0)
    ensures s.semanticCollapseIndex == (if "semantic_collapse_index" in report.metrics then report.metrics["semantic_collapse_index"].AsReal() else 0.0)
  {
    var m := report.metrics;
    ReportSummary(report.state,
                  MetricOr(m, "total_responses").AsInt(),
                  MetricOr(m, "resonance_ratio").AsReal(),
                  MetricOr(m, "rejection_density").AsReal(),
                  MetricOr(m, "refusal_frequency").AsReal(),
                  MetricOr(m, "semantic_collapse_index").AsReal(),
                  |report.actions|,
                  report.promptVersion)
  }

  /** The summary of a report built from a trainer result gives back that result's measurements. */
  lemma SummaryOfBuiltReport(result: TrainerIterationResult)
    ensures var s := SummarizeReport(BuildReport(result));
            && ParseSystemState(s.state) == Some(result.state)
            && s.totalResponses == result.metrics.totalResponses
            && s.resonanceRatio == result.metrics.resonanceRatio
            && s.rejectionDensity == result.metrics.rejectionDensity
            && s.refusalFrequency == result.metrics.refusalFrequency
            && s.semanticCollapseIndex == result.metrics.semanticCollapseIndex
            && s.actionsCount == |result.evolutionActions|
            && s.promptVersion == result.newPromptVersion
  {
  }

  /** The metrics `compare_reports` diffs, in order. */
  const CompareKeys: seq<string> := ["resonance_ratio", "rejection_density", "response_length_drift",
                                     "refusal_frequency", "semantic_collapse_index", "average_response_length"]

  /** The six compared metrics are six different names: their fourth letters differ. */
  lemma CompareKeysDistinct()
    ensures forall i, j :: 0 <= i < j < |CompareKeys| ==> CompareKeys[i] != CompareKeys[j]
  {
    var fourth := seq(6, i requires 0 <= i < 6 => CompareKeys[i][3]);
    assert fourth == ['o', 'e', 'p', 'u', 'a', 'r'];
    forall i, j | 0 <= i < j < |CompareKeys| ensures CompareKeys[i] != CompareKeys[j] {
      assert fourth[i] != fourth[j];
    }
  }

  /** The delta of one metric: later minus earlier, absent metrics reading as zero. */
  function Delta(earlier: map<string, Num>, later: map<string, Num>, key: string): real {
    MetricOr(later, key).AsReal() - MetricOr(earlier, key).AsReal()
  }

  /** The deltas dictionary after the loop has visited `keys`: one `<key>_delta` entry per key. */
  function Deltas(keys: seq<string>, earlier: map<string, Num>, later: map<string, Num>): (d: map<string, real>)
    ensures |d| <= |keys|
    ensures |keys| > 0 ==> keys[|keys| - 1] + "_delta" in d
                           && d[keys[|keys| - 1] + "_delta"] == Delta(earlier, later, keys[|keys| - 1])
    decreases |keys|
  {
    if keys == [] then map[]
    else
      var k := keys[|keys| - 1];
      assert keys == keys[..|keys| - 1] + [k];
      Deltas(keys[..|keys| - 1], earlier, later)[k + "_delta" := Delta(earlier, later, k)]
  }

  /** Appending the same suffix to two names keeps them apart. */
  lemma SuffixInjective(a: string, b: string, suffix: string)
    ensures a + suffix == b + suffix <==> a == b
  {
    if a + suffix == b + suffix {
      assert |a| == |b|;
      assert a == (a + suffix)[..|a|];
      assert b == (b + suffix)[..|b|];
    }
  }

  /** The deltas hold exactly one entry per key, each the later value minus the earlier one. */
  lemma {:induction false} DeltasExact(keys: seq<string>, earlier: map<string, Num>, later: map<string, Num>)
    ensures Deltas(keys, earlier, later).Keys == set k | k in keys :: k + "_delta"
    ensures forall k :: k in keys ==> Deltas(keys, earlier, later)[k + "_delta"] == Delta(earlier, later, k)
    decreases |keys|
  {
    if keys != [] {
      var pre := keys[..|keys| - 1];
      var last := keys[|keys| - 1];
      DeltasExact(pre, earlier, later);
      assert keys == pre + [last];
      forall k | k in keys ensures Deltas(keys, earlier, later)[k + "_delta"] == Delta(earlier, later, k) {
        if k + "_delta" == last + "_delta" {
          SuffixInjective(k, last, "_delta");
        }
      }
    }
  }

  /** Distinct keys give as many deltas as keys. */
  lemma {:induction false} DeltasCount(keys: seq<string>, earlier: map<string, Num>, later: map<string, Num>)
    requires forall i, j :: 0 <= i < j < |keys| ==> keys[i] != keys[j]
    ensures |Deltas(keys, earlier, later)| == |keys|
    decreases |keys|
  {
    if keys != [] {
      var pre := keys[..|keys| - 1];
      var last := keys[|keys| - 1];
      DeltasCount(pre, earlier, later);
      DeltasExact(pre, earlier, later);
      forall k | k in pre ensures k + "_delta" != last + "_delta" {
        var i :| 0 <= i < |pre| && pre[i] == k;
        assert keys[i] == k;
        SuffixInjective(k, last, "_delta");
      }
    }
  }

  /** A report compared with itself has every delta equal to zero. */
  lemma {:induction false} SelfDeltasZero(keys: seq<string>, metrics: map<string, Num>)
    ensures forall k :: k in Deltas(keys, metrics, metrics) ==> Deltas(keys, metrics, metrics)[k] == 0.0
    decreases |keys|
  {
    if keys != [] {
      SelfDeltasZero(keys[..|keys| - 1], metrics);
    }
  }

  /** One more key extends the dictionary by that key's delta. */
  lemma DeltasStep(keys: seq<string>, i: nat, earlier: map<string, Num>, later: map<string, Num>)
    requires i < |keys|
    ensures Deltas(keys[..i + 1], earlier, later)
            == Deltas(keys[..i], earlier, later)[keys[i] + "_delta" := Delta(earlier, later, keys[i])]
  {
    assert keys[..i + 1][..i] == keys[..i];
  }

  /** `compare_reports`: fills the deltas dictionary key by key. */
  method CompareReports(earlier: IterationReport, later: IterationReport) returns (deltas: map<string, real>)
    ensures deltas == Deltas(CompareKeys, earlier.metrics, later.metrics)
  {
    var keys := CompareKeys;
    deltas := map[];
    var i := 0;
    while i < |keys|
      invariant 0 <= i <= |keys|
      invariant deltas == Deltas(keys[..i], earlier.metrics, later.metrics)
    {
      var key := keys[i];
      var before := MetricOr(earlier.metrics, key).AsReal();
      var after := MetricOr(later.metrics, key).AsReal();
      DeltasStep(keys, i, earlier.metrics, later.metrics);
      deltas := deltas[key + "_delta" := after - before];
      i := i + 1;
    }
    assert keys[..i] == keys;
  }

  /** `compare_reports` yields exactly six `<key>_delta` entries, each later minus earlier, and
      all zero when a report is compared with itself. */
  lemma CompareReportsExact(earlier: IterationReport, later: IterationReport)
    ensures var d := Deltas(CompareKeys, earlier.metrics, later.metrics);
            && |d| == 6
            && d.Keys == (set k | k in CompareKeys :: k + "_delta")
            && forall k :: k in CompareKeys ==> d[k + "_delta"] == Delta(earlier.metrics, later.metrics, k)
    ensures forall k :: k in Deltas(CompareKeys, earlier.metrics, earlier.metrics) ==>
              Deltas(CompareKeys, earlier.metrics, earlier.metrics)[k] == 0.0
  {
    DeltasExact(CompareKeys, earlier.metrics, later.metrics);
    CompareKeysDistinct();
    DeltasCount(CompareKeys, earlier.metrics, later.metrics);
    SelfDeltasZero(CompareKeys, earlier.metrics);
  }
}
