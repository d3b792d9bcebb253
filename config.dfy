/**
 * Strict configuration loading over an already-parsed YAML document: every section and every
 * parameter must be present, missing names are reported all at once and in listing order, and
 * values are carried over as they are (no conversion, no defaults).
 *
 * The loader is stated over a `Schema` (the section names and each section's parameter names)
 * so that its proofs do not depend on the spelling of the names; `ConfigSchema` is the schema
 * the engine's configuration file follows.
 */
module Config {
  import opened Wrappers
  import opened Text

  /** The parameters each section requires, in the order the loader lists them. */
  const PathParams: seq<string> := ["data_dir", "database", "reports_dir"]
  const SchedulerParams: seq<string> := ["time_window_hours", "min_interactions", "check_interval_minutes"]
  const InitialPolicyParams: seq<string> := ["max_output_tokens", "refusal_threshold", "perturbation_level", "temperature"]
  const StateThresholdParams: seq<string> := [
    "stable_min_rr", "stable_max_rd", "stable_min_rld", "stable_max_rf", "stable_max_sci",
    "drifting_rr_drop", "collapsing_rr", "collapsing_rd", "collapsing_sci",
    "mute_min_avg_length", "mute_min_rr"]
  const EvolutionRuleParams: seq<string> := [
    "target_rr", "target_rr_high", "target_rd", "target_rld", "target_rf", "target_rf_low", "target_sci",
    "length_relax_weight", "length_tighten_weight", "refusal_raise_weight", "refusal_lower_weight",
    "perturbation_weight", "temperature_weight",
    "length_scale", "refusal_scale", "perturbation_scale", "temperature_scale",
    "action_threshold_tokens", "action_threshold_ratio",
    "min_output_tokens", "max_output_tokens", "min_temperature", "max_temperature"]
  const SafetyThresholdParams: seq<string> := [
    "kill_consecutive_collapsing", "kill_consecutive_mute", "kill_min_rr", "kill_max_rd", "kill_max_sci"]

  /** The top-level sections, in the order they are loaded. */
  const RequiredSections: seq<string> :=
    ["paths", "scheduler", "initial_policy", "state_thresholds", "evolution_rules", "safety_thresholds"]

  /** Section names and, for each section, its parameter names. */
  datatype Schema = Schema(sections: seq<string>, params: seq<seq<string>>)

  /** Six sections whose parameter lists have the lengths of the six configuration records. */
  predicate WellShaped(schema: Schema) {
    |schema.sections| == 6 && |schema.params| == 6
    && |schema.params[0]| == 3 && |schema.params[1]| == 3 && |schema.params[2]| == 4
    && |schema.params[3]| == 11 && |schema.params[4]| == 23 && |schema.params[5]| == 5
  }

  /** The schema of the engine's configuration file. */
  const ConfigSchema: Schema := Schema(RequiredSections,
    [PathParams, SchedulerParams, InitialPolicyParams, StateThresholdParams, EvolutionRuleParams,
     SafetyThresholdParams])

  /** Whether every one of `names` is a key of `data`. */
  predicate HasAll<V>(data: map<string, V>, names: seq<string>) {
    forall i :: 0 <= i < |names| ==> names[i] in data
  }

  /** The names of `names` that are not keys of `data`, in list order. */
  function Missing<V>(data: map<string, V>, names: seq<string>): (m: seq<string>)
    ensures |m| <= |names|
    ensures m == [] <==> HasAll(data, names)
    decreases |names|
  {
    if names == [] then []
    else
      var rest := Missing(data, names[1..]);
      if names[0] in data then rest else [names[0]] + rest
  }

  /** The report lists exactly the names that are not keys. */
  lemma {:induction false} MissingExactlyAbsent<V>(data: map<string, V>, names: seq<string>, p: string)
    ensures p in Missing(data, names) <==> p in names && p !in data
    decreases |names|
  {
    if names != [] {
      MissingExactlyAbsent(data, names[1..], p);
      assert names == [names[0]] + names[1..];
    }
  }

  /** `_check_required_params`: a `TypeError` naming the section and every missing parameter. */
  function CheckRequiredParams<V>(data: map<string, V>, names: seq<string>, section: string): (r: Result<(), Exception>)
    ensures r.Ok? <==> HasAll(data, names)
    ensures r.Err? ==> r.error == TypeError("Missing required parameters in '" + section + "' section: "
                                            + Join(Missing(data, names))
                                            + ". All parameters must be explicitly defined in config.yml.")
  {
    var missing := Missing(data, names);
    if missing != [] then
      Err(TypeError("Missing required parameters in '" + section + "' section: " + Join(missing)
                    + ". All parameters must be explicitly defined in config.yml."))
    else
      Ok(())
  }

  /** The values of `names` in `data`, in list order. */
  function Values<V>(data: map<string, V>, names: seq<string>): (vs: seq<V>)
    requires HasAll(data, names)
    ensures |vs| == |names| && forall i :: 0 <= i < |names| ==> vs[i] == data[names[i]]
  {
    seq(|names|, i requires 0 <= i < |names| => data[names[i]])
  }

  datatype PathConfig<V> = PathConfig(dataDir: V, database: V, reportsDir: V)
  {
    /** The fields in the order of `PathParams`. */
    function Fields(): seq<V> { [dataDir, database, reportsDir] }
  }

  /** The path settings whose fields, in order, are `vs`. */
  function PathsFromValues<V>(vs: seq<V>): (c: PathConfig<V>)
    requires |vs| == 3
    ensures c.Fields() == vs
  {
    PathConfig(vs[0], vs[1], vs[2])
  }

  datatype SchedulerConfig<V> = SchedulerConfig(timeWindowHours: V, minInteractions: V, checkIntervalMinutes: V)
  {
    /** The fields in the order of `SchedulerParams`. */
    function Fields(): seq<V> { [timeWindowHours, minInteractions, checkIntervalMinutes] }
  }

  /** The scheduler settings whose fields, in order, are `vs`. */
  function SchedulerFromValues<V>(vs: seq<V>): (c: SchedulerConfig<V>)
    requires |vs| == 3
    ensures c.Fields() == vs
  {
    SchedulerConfig(vs[0], vs[1], vs[2])
  }

  datatype InitialPolicyConfig<V> = InitialPolicyConfig(maxOutputTokens: V, refusalThreshold: V, perturbationLevel: V, temperature: V)
  {
    /** The fields in the order of `InitialPolicyParams`. */
    function Fields(): seq<V> { [maxOutputTokens, refusalThreshold, perturbationLevel, temperature] }
  }

  /** The initial policy whose fields, in order, are `vs`. */
  function InitialPolicyFromValues<V>(vs: seq<V>): (c: InitialPolicyConfig<V>)
    requires |vs| == 4
    ensures c.Fields() == vs
  {
    InitialPolicyConfig(vs[0], vs[1], vs[2], vs[3])
  }

  datatype StateThresholdsConfig<V> = StateThresholdsConfig(
    stableMinRr: V, stableMaxRd: V, stableMinRld: V, stableMaxRf: V, stableMaxSci: V,
    driftingRrDrop: V, collapsingRr: V, collapsingRd: V, collapsingSci: V,
    muteMinAvgLength: V, muteMinRr: V)
  {
    /** The fields in the order of `StateThresholdParams`. */
    function Fields(): seq<V> {
      [stableMinRr, stableMaxRd, stableMinRld, stableMaxRf, stableMaxSci,
       driftingRrDrop, collapsingRr, collapsingRd, collapsingSci,
       muteMinAvgLength, muteMinRr]
    }
  }

  /** The state thresholds whose fields, in order, are `vs`. */
  function StateThresholdsFromValues<V>(vs: seq<V>): (c: StateThresholdsConfig<V>)
    requires |vs| == 11
    ensures c.Fields() == vs
  {
    StateThresholdsConfig(vs[0], vs[1], vs[2], vs[3], vs[4], vs[5], vs[6], vs[7], vs[8], vs[9], vs[10])
  }

  datatype EvolutionRulesConfig<V> = EvolutionRulesConfig(
    targetRr: V, targetRrHigh: V, targetRd: V, targetRld: V, targetRf: V, targetRfLow: V, targetSci: V,
    lengthRelaxWeight: V, lengthTightenWeight: V, refusalRaiseWeight: V, refusalLowerWeight: V,
    perturbationWeight: V, temperatureWeight: V,
    lengthScale: V, refusalScale: V, perturbationScale: V, temperatureScale: V,
    actionThresholdTokens: V, actionThresholdRatio: V,
    minOutputTokens: V, maxOutputTokens: V, minTemperature: V, maxTemperature: V)
  {
    /** The fields in the order of `EvolutionRuleParams`. */
    function Fields(): seq<V> {
      [targetRr, targetRrHigh, targetRd, targetRld, targetRf, targetRfLow, targetSci,
       lengthRelaxWeight, lengthTightenWeight, refusalRaiseWeight, refusalLowerWeight,
       perturbationWeight, temperatureWeight,
       lengthScale, refusalScale, perturbationScale, temperatureScale,
       actionThresholdTokens, actionThresholdRatio,
       minOutputTokens, maxOutputTokens, minTemperature, maxTemperature]
    }
  }

  /** The evolution rules whose fields, in order, are `vs`. */
  function EvolutionRulesFromValues<V>(vs: seq<V>): (c: EvolutionRulesConfig<V>)
    requires |vs| == 23
    ensures c.Fields() == vs
  {
    EvolutionRulesConfig(vs[0], vs[1], vs[2], vs[3], vs[4], vs[5], vs[6], vs[7], vs[8], vs[9], vs[10],
                         vs[11], vs[12], vs[13], vs[14], vs[15], vs[16], vs[17], vs[18], vs[19], vs[20],
                         vs[21], vs[22])
  }

  datatype SafetyThresholdsConfig<V> = SafetyThresholdsConfig(
    killConsecutiveCollapsing: V, killConsecutiveMute: V, killMinRr: V, killMaxRd: V, killMaxSci: V)
  {
    /** The fields in the order of `SafetyThresholdParams`. */
    function Fields(): seq<V> { [killConsecutiveCollapsing, killConsecutiveMute, killMinRr, killMaxRd, killMaxSci] }
  }

  /** The safety thresholds whose fields, in order, are `vs`. */
  function SafetyThresholdsFromValues<V>(vs: seq<V>): (c: SafetyThresholdsConfig<V>)
    requires |vs| == 5
    ensures c.Fields() == vs
  {
    SafetyThresholdsConfig(vs[0], vs[1], vs[2], vs[3], vs[4])
  }

  /** The whole configuration. */
  datatype ZenAiConfig<V> = ZenAiConfig(
    paths: PathConfig<V>,
    scheduler: SchedulerConfig<V>,
    initialPolicy: InitialPolicyConfig<V>,
    stateThresholds: StateThresholdsConfig<V>,
    evolutionRules: EvolutionRulesConfig<V>,
    safetyThresholds: SafetyThresholdsConfig<V>)

  /** Loading the `i`-th section: its values in parameter order, or the `TypeError` of
      `_check_required_params` for it. Each `_load_*_config` is this followed by building its record. */
  function LoadSection<V>(schema: Schema, data: map<string, V>, i: nat): (r: Result<seq<V>, Exception>)
    requires WellShaped(schema) && i < 6
    ensures r.Ok? <==> HasAll(data, schema.params[i])
    ensures r.Ok? ==> r.value == Values(data, schema.params[i])
    ensures r.Err? ==> r.error == CheckRequiredParams(data, schema.params[i], schema.sections[i]).error
  {
    var check := CheckRequiredParams(data, schema.params[i], schema.sections[i]);
    if check.Err? then Err(check.error) else Ok(Values(data, schema.params[i]))
  }

  /** Whether every section is present. */
  predicate HasSections<V>(schema: Schema, doc: map<string, map<string, V>>)
    requires WellShaped(schema)
  {
    HasAll(doc, schema.sections)
  }

  /** Whether the `i`-th section of a document that has all sections lacks a parameter. */
  predicate SectionBroken<V>(schema: Schema, doc: map<string, map<string, V>>, i: nat)
    requires WellShaped(schema) && HasSections(schema, doc) && i < 6
  {
    !HasAll(doc[schema.sections[i]], schema.params[i])
  }

  /** The first section, from the `i`-th on in loading order, that lacks a parameter. */
  function FirstBroken<V>(schema: Schema, doc: map<string, map<string, V>>, i: nat): (k: Option<nat>)
    requires WellShaped(schema) && HasSections(schema, doc) && i <= 6
    ensures k.Some? ==> i <= k.value < 6 && SectionBroken(schema, doc, k.value)
                        && forall j :: i <= j < k.value ==> !SectionBroken(schema, doc, j)
    ensures k.None? ==> forall j :: i <= j < 6 ==> !SectionBroken(schema, doc, j)
    decreases 6 - i
  {
    if i == 6 then None
    else if SectionBroken(schema, doc, i) then Some(i)
    else FirstBroken(schema, doc, i + 1)
  }

  /** The error `_check_required_params` raises for the `i`-th section. */
  function SectionError<V>(schema: Schema, doc: map<string, map<string, V>>, i: nat): Exception
    requires WellShaped(schema) && HasSections(schema, doc) && i < 6 && SectionBroken(schema, doc, i)
  {
    CheckRequiredParams(doc[schema.sections[i]], schema.params[i], schema.sections[i]).error
  }

  /** `load_config` over the parsed document: `None` is an empty file. A missing file raises
      `FileNotFoundError`, an empty one `ValueError`, missing sections a `KeyError` naming all
      of them; then the sections are loaded in order and the first incomplete one raises. */
  function LoadConfig<V>(schema: Schema, path: string, fileExists: bool, document: Option<map<string, map<string, V>>>)
    : (r: Result<ZenAiConfig<V>, Exception>)
    requires WellShaped(schema)
    ensures !fileExists ==> r == Err(FileNotFoundError("Configuration file not found: " + path
                                     + ". All configuration must be explicitly defined in config.yml."))
    ensures fileExists && document.None? ==>
              r == Err(ValueError("Configuration file is empty: " + path
                                  + ". All configuration must be explicitly defined."))
    ensures fileExists && document.Some? && !HasSections(schema, document.value) ==>
              r == Err(KeyError("Missing required configuration sections: "
                                + Join(Missing(document.value, schema.sections))
                                + ". All sections must be defined in config.yml."))
    ensures r.Ok? <==> fileExists && document.Some? && HasSections(schema, document.value)
                       && FirstBroken(schema, document.value, 0).None?
    ensures fileExists && document.Some? && HasSections(schema, document.value)
            && FirstBroken(schema, document.value, 0).Some? ==>
              r == Err(SectionError(schema, document.value, FirstBroken(schema, document.value, 0).value))
    ensures r.Ok? ==> LoadedFrom(schema, document.value, r.value)
  {
    if !fileExists then
      Err(FileNotFoundError("Configuration file not found: " + path
                            + ". All configuration must be explicitly defined in config.yml."))
    else if document.None? then
      Err(ValueError("Configuration file is empty: " + path + ". All configuration must be explicitly defined."))
    else
      var doc := document.value;
      var missing := Missing(doc, schema.sections);
      if missing != [] then
        Err(KeyError("Missing required configuration sections: " + Join(missing)
                     + ". All sections must be defined in config.yml."))
      else
        LoadSections(schema, doc)
  }

  /** All six sections, in loading order; the first failure is the result. */
  function LoadSections<V>(schema: Schema, doc: map<string, map<string, V>>): (r: Result<ZenAiConfig<V>, Exception>)
    requires WellShaped(schema) && HasSections(schema, doc)
    ensures r.Ok? <==> FirstBroken(schema, doc, 0).None?
    ensures r.Err? ==> FirstBroken(schema, doc, 0).Some?
                       && r.error == SectionError(schema, doc, FirstBroken(schema, doc, 0).value)
    ensures r.Ok? ==> LoadedFrom(schema, doc, r.value)
  {
    var first := LoadFirstSections(schema, doc);
    if first.Err? then Err(first.error)
    else
      var later := LoadLaterSections(schema, doc);
      if later.Err? then Err(later.error)
      else
        var (paths, scheduler, policy) := first.value;
        var (state, rules, safety) := later.value;
        Ok(ZenAiConfig(paths, scheduler, policy, state, rules, safety))
  }

  /** The path, scheduler and initial-policy sections, in that order. */
  function LoadFirstSections<V>(schema: Schema, doc: map<string, map<string, V>>)
    : (r: Result<(PathConfig<V>, SchedulerConfig<V>, InitialPolicyConfig<V>), Exception>)
    requires WellShaped(schema) && HasSections(schema, doc)
    ensures r.Ok? <==> FirstBroken(schema, doc, 0) == FirstBroken(schema, doc, 3)
    ensures r.Err? ==> FirstBroken(schema, doc, 0).Some?
                       && r.error == SectionError(schema, doc, FirstBroken(schema, doc, 0).value)
    ensures r.Ok? ==> !SectionBroken(schema, doc, 0) && !SectionBroken(schema, doc, 1) && !SectionBroken(schema, doc, 2)
                      && r.value.0.Fields() == Values(doc[schema.sections[0]], schema.params[0])
                      && r.value.1.Fields() == Values(doc[schema.sections[1]], schema.params[1])
                      && r.value.2.Fields() == Values(doc[schema.sections[2]], schema.params[2])
  {
    var paths := LoadSection(schema, doc[schema.sections[0]], 0);
    if paths.Err? then
      assert FirstBroken(schema, doc, 0) == Some(0);
      Err(paths.error)
    else
      assert FirstBroken(schema, doc, 0) == FirstBroken(schema, doc, 1);
      var scheduler := LoadSection(schema, doc[schema.sections[1]], 1);
      if scheduler.Err? then
        assert FirstBroken(schema, doc, 1) == Some(1);
        Err(scheduler.error)
      else
        assert FirstBroken(schema, doc, 1) == FirstBroken(schema, doc, 2);
        var policy := LoadSection(schema, doc[schema.sections[2]], 2);
        if policy.Err? then
          assert FirstBroken(schema, doc, 2) == Some(2);
          Err(policy.error)
        else
          assert FirstBroken(schema, doc, 2) == FirstBroken(schema, doc, 3);
          Ok((PathsFromValues(paths.value), SchedulerFromValues(scheduler.value), InitialPolicyFromValues(policy.value)))
  }

  /** The state-threshold, evolution-rule and safety sections, in that order. */
  function LoadLaterSections<V>(schema: Schema, doc: map<string, map<string, V>>)
    : (r: Result<(StateThresholdsConfig<V>, EvolutionRulesConfig<V>, SafetyThresholdsConfig<V>), Exception>)
    requires WellShaped(schema) && HasSections(schema, doc)
    ensures r.Ok? <==> FirstBroken(schema, doc, 3).None?
    ensures r.Err? ==> FirstBroken(schema, doc, 3).Some?
                       && r.error == SectionError(schema, doc, FirstBroken(schema, doc, 3).value)
    ensures r.Ok? ==> !SectionBroken(schema, doc, 3) && !SectionBroken(schema, doc, 4) && !SectionBroken(schema, doc, 5)
                      && r.value.0.Fields() == Values(doc[schema.sections[3]], schema.params[3])
                      && r.value.1.Fields() == Values(doc[schema.sections[4]], schema.params[4])
                      && r.value.2.Fields() == Values(doc[schema.sections[5]], schema.params[5])
  {
    var state := LoadSection(schema, doc[schema.sections[3]], 3);
    if state.Err? then
      assert FirstBroken(schema, doc, 3) == Some(3);
      Err(state.error)
    else
      assert FirstBroken(schema, doc, 3) == FirstBroken(schema, doc, 4);
      var rules := LoadSection(schema, doc[schema.sections[4]], 4);
      if rules.Err? then
        assert FirstBroken(schema, doc, 4) == Some(4);
        Err(rules.error)
      else
        assert FirstBroken(schema, doc, 4) == FirstBroken(schema, doc, 5);
        var safety := LoadSection(schema, doc[schema.sections[5]], 5);
        if safety.Err? then
          assert FirstBroken(schema, doc, 5) == Some(5);
          Err(safety.error)
        else
          assert FirstBroken(schema, doc, 5) == FirstBroken(schema, doc, 6);
          Ok((StateThresholdsFromValues(state.value), EvolutionRulesFromValues(rules.value),
              SafetyThresholdsFromValues(safety.value)))
  }

  /** Every record of `c` holds, field by field in parameter order, its section's values. */
  ghost predicate LoadedFrom<V>(schema: Schema, doc: map<string, map<string, V>>, c: ZenAiConfig<V>)
    requires WellShaped(schema) && HasSections(schema, doc)
  {
    !SectionBroken(schema, doc, 0) && c.paths.Fields() == Values(doc[schema.sections[0]], schema.params[0])
    && !SectionBroken(schema, doc, 1) && c.scheduler.Fields() == Values(doc[schema.sections[1]], schema.params[1])
    && !SectionBroken(schema, doc, 2) && c.initialPolicy.Fields() == Values(doc[schema.sections[2]], schema.params[2])
    && !SectionBroken(schema, doc, 3) && c.stateThresholds.Fields() == Values(doc[schema.sections[3]], schema.params[3])
    && !SectionBroken(schema, doc, 4) && c.evolutionRules.Fields() == Values(doc[schema.sections[4]], schema.params[4])
    && !SectionBroken(schema, doc, 5) && c.safetyThresholds.Fields() == Values(doc[schema.sections[5]], schema.params[5])
  }

  /** Two sections that agree on which of `names` they hold, and on those values. */
  predicate AgreeOn<V(==)>(d1: map<string, V>, d2: map<string, V>, names: seq<string>) {
    forall i :: 0 <= i < |names| ==>
      (names[i] in d1 <==> names[i] in d2) && (names[i] in d1 ==> d1[names[i]] == d2[names[i]])
  }

  /** The missing-name report depends only on the listed names. */
  lemma {:induction false} MissingAgree<V>(d1: map<string, V>, d2: map<string, V>, names: seq<string>)
    requires forall i :: 0 <= i < |names| ==> (names[i] in d1 <==> names[i] in d2)
    ensures Missing(d1, names) == Missing(d2, names)
    decreases |names|
  {
    if names != [] {
      assert forall i :: 1 <= i < |names| ==> names[1..][i - 1] == names[i];
      MissingAgree(d1, d2, names[1..]);
    }
  }

  /** Two documents that agree on every required section and parameter. */
  predicate AgreeOnRequired<V(==)>(schema: Schema, d1: map<string, map<string, V>>, d2: map<string, map<string, V>>)
    requires WellShaped(schema)
  {
    forall i :: 0 <= i < 6 ==>
      (schema.sections[i] in d1 <==> schema.sections[i] in d2)
      && (schema.sections[i] in d1 ==> AgreeOn(d1[schema.sections[i]], d2[schema.sections[i]], schema.params[i]))
  }

  /** A section loads the same from two maps that agree on its parameters. */
  lemma SectionAgree<V>(schema: Schema, s1: map<string, V>, s2: map<string, V>, i: nat)
    requires WellShaped(schema) && i < 6 && AgreeOn(s1, s2, schema.params[i])
    ensures LoadSection(schema, s1, i) == LoadSection(schema, s2, i)
  {
    var names := schema.params[i];
    MissingAgree(s1, s2, names);
    if HasAll(s1, names) {
      assert Values(s1, names) == Values(s2, names);
    }
  }

  /** Keys beyond the listed sections and parameters are ignored: two documents that agree on
      the required ones load to the same configuration or the same error. */
  lemma ExtraKeysIgnored<V>(schema: Schema, path: string, fileExists: bool,
                            d1: map<string, map<string, V>>, d2: map<string, map<string, V>>)
    requires WellShaped(schema) && AgreeOnRequired(schema, d1, d2)
    ensures LoadConfig(schema, path, fileExists, Some(d1)) == LoadConfig(schema, path, fileExists, Some(d2))
  {
    assert forall i :: 0 <= i < |schema.sections| ==> (schema.sections[i] in d1 <==> schema.sections[i] in d2);
    MissingAgree(d1, d2, schema.sections);
    if !fileExists {
    } else if !HasSections(schema, d1) {
      assert !HasSections(schema, d2);
    } else {
      assert HasSections(schema, d2);
      forall i | 0 <= i < 6
        ensures LoadSection(schema, d1[schema.sections[i]], i) == LoadSection(schema, d2[schema.sections[i]], i)
      {
        SectionAgree(schema, d1[schema.sections[i]], d2[schema.sections[i]], i);
      }
      SectionsAgree(schema, d1, d2);
      assert LoadConfig(schema, path, fileExists, Some(d1)) == LoadSections(schema, d1);
      assert LoadConfig(schema, path, fileExists, Some(d2)) == LoadSections(schema, d2);
    }
  }

  /** Documents whose sections load alike load alike as a whole. */
  lemma SectionsAgree<V>(schema: Schema, d1: map<string, map<string, V>>, d2: map<string, map<string, V>>)
    requires WellShaped(schema) && HasSections(schema, d1) && HasSections(schema, d2)
    requires forall i :: 0 <= i < 6 ==>
               LoadSection(schema, d1[schema.sections[i]], i) == LoadSection(schema, d2[schema.sections[i]], i)
    ensures LoadSections(schema, d1) == LoadSections(schema, d2)
  {
    FirstSectionsAgree(schema, d1, d2);
    LaterSectionsAgree(schema, d1, d2);
  }

  lemma FirstSectionsAgree<V>(schema: Schema, d1: map<string, map<string, V>>, d2: map<string, map<string, V>>)
    requires WellShaped(schema) && HasSections(schema, d1) && HasSections(schema, d2)
    requires forall i :: 0 <= i < 3 ==>
               LoadSection(schema, d1[schema.sections[i]], i) == LoadSection(schema, d2[schema.sections[i]], i)
    ensures LoadFirstSections(schema, d1) == LoadFirstSections(schema, d2)
  {
    assert LoadSection(schema, d1[schema.sections[0]], 0) == LoadSection(schema, d2[schema.sections[0]], 0);
    assert LoadSection(schema, d1[schema.sections[1]], 1) == LoadSection(schema, d2[schema.sections[1]], 1);
    assert LoadSection(schema, d1[schema.sections[2]], 2) == LoadSection(schema, d2[schema.sections[2]], 2);
  }

  lemma LaterSectionsAgree<V>(schema: Schema, d1: map<string, map<string, V>>, d2: map<string, map<string, V>>)
    requires WellShaped(schema) && HasSections(schema, d1) && HasSections(schema, d2)
    requires forall i :: 3 <= i < 6 ==>
               LoadSection(schema, d1[schema.sections[i]], i) == LoadSection(schema, d2[schema.sections[i]], i)
    ensures LoadLaterSections(schema, d1) == LoadLaterSections(schema, d2)
  {
    assert LoadSection(schema, d1[schema.sections[3]], 3) == LoadSection(schema, d2[schema.sections[3]], 3);
    assert LoadSection(schema, d1[schema.sections[4]], 4) == LoadSection(schema, d2[schema.sections[4]], 4);
    assert LoadSection(schema, d1[schema.sections[5]], 5) == LoadSection(schema, d2[schema.sections[5]], 5);
  }

  /** The engine's schema has the shape the configuration records need. */
  lemma ConfigSchemaShape()
    ensures WellShaped(ConfigSchema)
  {
  }

  /** No section is broken exactly when every section holds all of its parameters. */
  lemma NoneBrokenIff<V>(schema: Schema, doc: map<string, map<string, V>>)
    requires WellShaped(schema) && HasSections(schema, doc)
    ensures FirstBroken(schema, doc, 0).None? <==>
              forall i :: 0 <= i < 6 ==> HasAll(doc[schema.sections[i]], schema.params[i])
  {
    if FirstBroken(schema, doc, 0).Some? {
      assert SectionBroken(schema, doc, FirstBroken(schema, doc, 0).value);
    }
  }

  /** `load_config` for the engine's configuration file: it succeeds exactly when the file
      exists, is not empty, holds all six sections and each section all of its parameters, and
      then every record holds its section's values. */
  function LoadZenAiConfig<V>(path: string, fileExists: bool, document: Option<map<string, map<string, V>>>)
    : (r: Result<ZenAiConfig<V>, Exception>)
    ensures !fileExists ==> r.Err? && r.error.FileNotFoundError?
    ensures fileExists && document.None? ==> r.Err? && r.error.ValueError?
    ensures fileExists && document.Some? && !HasSections(ConfigSchema, document.value) ==> r.Err? && r.error.KeyError?
    ensures r.Ok? <==> fileExists && document.Some? && HasSections(ConfigSchema, document.value)
                       && forall i :: 0 <= i < 6 ==> HasAll(document.value[ConfigSchema.sections[i]], ConfigSchema.params[i])
    ensures r.Ok? ==> LoadedFrom(ConfigSchema, document.value, r.value)
  {
    if fileExists && document.Some? && HasSections(ConfigSchema, document.value) then
      NoneBrokenIff(ConfigSchema, document.value);
      LoadConfig(ConfigSchema, path, fileExists, document)
    else
      LoadConfig(ConfigSchema, path, fileExists, document)
  }

  /** A paths section holding only `data_dir` fails, reporting both missing names in order. */
  lemma PathsMissingTwo<V>(v: V)
    ensures CheckRequiredParams(map["data_dir" := v], PathParams, "paths").Err?
    ensures Missing(map["data_dir" := v], PathParams) == ["database", "reports_dir"]
  {
    var data := map["data_dir" := v];
    assert Missing(data, PathParams[2..]) == ["reports_dir"];
    assert Missing(data, PathParams[1..]) == ["database", "reports_dir"];
  }
}
