/**
 * The trainer: one iteration cycle reads the interactions of a time window, compares them with
 * the interactions of the latest iteration, stores a metrics snapshot and, unless the system is
 * frozen, evolves the latest prompt policy and stores the result as the next prompt version.
 */
module Trainer {
  import opened Wrappers
  import opened Models
  import opened Metrics
  import opened State
  import opened Evolution
  import opened Archive

  /** What one cycle reports back to the scheduler. */
  datatype TrainerIterationResult = TrainerIterationResult(
    iterationId: int,
    state: SystemState,
    metrics: IterationMetrics,
    evolutionActions: seq<EvolutionAction>,
    newPromptVersion: Option<int>)

  /** Window size the trainer passes to `compute_metrics` (its default). */
  const DefaultWindow: int := 5

  /** Metrics of the previous batch on their own, or none when that batch is empty. */
  function PreviousMetrics(previous: seq<Interaction>): (pm: Option<IterationMetrics>)
    ensures pm.None? <==> previous == []
    ensures pm.Some? ==> pm.value.totalResponses == |previous|
                         && pm.value.responseLengthDrift == 1.0 && pm.value.semanticCollapseIndex == 0.0
  {
    if previous != [] then Some(ComputeMetrics(previous, None, DefaultWindow)) else None
  }

  /** `compute_iteration_metrics`: the metrics of the current batch measured against the previous
      batch, and the state they are classified as. */
  function IterationMetricsAndState(current: seq<Interaction>, previous: seq<Interaction>, th: StateThresholds)
    : (r: (IterationMetrics, SystemState))
    ensures r.0.totalResponses == |current|
    ensures r.1 != Dead
    ensures current == [] ==> r.1 == Mute
    ensures previous == [] ==> r.0.responseLengthDrift == 1.0 && r.0.semanticCollapseIndex == 0.0
    ensures EvaluateState(r.0, PreviousMetrics(previous), Some(th)) == Ok(r.1)
  {
    var metrics := ComputeMetrics(current, Some(previous), DefaultWindow);
    var state := EvaluateState(metrics, PreviousMetrics(previous), Some(th));
    if current == [] then
      EmptyIterationIsMute(metrics, PreviousMetrics(previous), th);
      (metrics, state.value)
    else
      (metrics, state.value)
  }

  /** The interactions of the latest iteration (the one with the largest id), or none when no
      iteration exists yet. */
  function PreviousBatch(records: seq<StoredInteraction>, iterationCount: nat): (previous: seq<Interaction>)
    ensures iterationCount == 0 ==> previous == []
    ensures iterationCount > 0 ==> forall x :: x in previous <==>
              exists i :: 0 <= i < |records| && records[i].iterationId == Some(iterationCount) && records[i].interaction == x
  {
    if iterationCount == 0 then [] else RowsOfIteration(records, iterationCount)
  }

  /** Everything one cycle does: its outcome, the snapshot it stores and the prompt it saves. */
  datatype CycleEffect = CycleEffect(
    result: Result<TrainerIterationResult, Exception>,
    snapshot: Option<(int, IterationMetrics)>,
    saved: Option<(int, PromptRecord)>)

  /** `run_iteration_cycle` over the archive's tables given as values. */
  function CycleOf(records: seq<StoredInteraction>, iterationCount: nat, prompts: map<int, PromptRecord>,
                   frozen: bool, id: int, start: int, end: int,
                   th: StateThresholds, rules: EvolutionRules, render: PromptPolicy -> string): (e: CycleEffect)
    ensures RowsInWindow(records, start, end) == [] <==> e.snapshot.None?
    ensures e.snapshot.None? ==> e.result.Err? && e.result.error.ValueError? && e.saved.None?
    ensures e.snapshot.Some? ==> e.snapshot.value.0 == id
    ensures e.result.Ok? ==> e.result.value.iterationId == id && e.snapshot == Some((id, e.result.value.metrics))
    ensures e.saved.Some? <==> e.result.Ok? && e.result.value.newPromptVersion.Some?
    ensures e.snapshot.Some? && frozen ==> e.result.Ok? && e.result.value.evolutionActions == [] && e.saved.None?
    ensures e.snapshot.Some? && !frozen && prompts == map[] ==> e.result.Err? && e.result.error.RuntimeError?
    ensures e.result.Err? ==> e.saved.None?
    ensures e.snapshot.Some? ==>
      e.snapshot.value.1 == IterationMetricsAndState(RowsInWindow(records, start, end), PreviousBatch(records, iterationCount), th).0
    ensures e.result.Ok? ==>
      e.result.value.state == IterationMetricsAndState(RowsInWindow(records, start, end), PreviousBatch(records, iterationCount), th).1
    ensures e.snapshot.Some? && !frozen && prompts != map[] ==>
      (e.saved.Some? <==> PolicyFromDict(prompts[MaxOf(prompts.Keys)].policy).Ok?)
    ensures e.snapshot.Some? && !frozen && prompts != map[] && !e.saved.Some? ==>
      e.result == Err(PolicyFromDict(prompts[MaxOf(prompts.Keys)].policy).error)
  {
    var current := RowsInWindow(records, start, end);
    if current == [] then CycleEffect(Err(ValueError("No interactions found in time window")), None, None)
    else
      var previous := PreviousBatch(records, iterationCount);
      var (metrics, state) := IterationMetricsAndState(current, previous, th);
      var snapshot := Some((id, metrics));
      if frozen then CycleEffect(Ok(TrainerIterationResult(id, state, metrics, [], None)), snapshot, None)
      else
        var (result, saved) := EvolutionStep(prompts, id, state, metrics, rules, render);
        CycleEffect(result, snapshot, saved)
  }

  /** The unfrozen tail of a cycle: evolve the latest prompt's policy and save it as the next
      version, or fail when there is no prompt or its policy lacks a key. */
  function EvolutionStep(prompts: map<int, PromptRecord>, id: int, state: SystemState, metrics: IterationMetrics,
                         rules: EvolutionRules, render: PromptPolicy -> string)
    : (r: (Result<TrainerIterationResult, Exception>, Option<(int, PromptRecord)>))
    ensures prompts == map[] ==> r.0.Err? && r.0.error.RuntimeError?
    ensures r.1.Some? <==> r.0.Ok?
    ensures r.0.Ok? ==> r.0.value.iterationId == id && r.0.value.state == state && r.0.value.metrics == metrics
                        && r.0.value.newPromptVersion.Some?
    ensures prompts != map[] ==> (r.0.Ok? <==> PolicyFromDict(prompts[MaxOf(prompts.Keys)].policy).Ok?)
    ensures prompts != map[] && r.0.Err? ==> r.0 == Err(PolicyFromDict(prompts[MaxOf(prompts.Keys)].policy).error)
  {
    if prompts == map[] then (Err(RuntimeError("No current prompt found in archive")), None)
    else
      var version := MaxOf(prompts.Keys);
      match PolicyFromDict(prompts[version].policy)
      case Err(error) => (Err(error), None)
      case Ok(policy) =>
        var (actions, next) := Evolve(metrics, policy, rules);
        (Ok(TrainerIterationResult(id, state, metrics, actions, Some(version + 1))),
         Some((version + 1, PromptRecord(render(next), next.ToDict(), ActionValues(actions)))))
  }

  /** A saved prompt takes the next free version, records the actions by name, and stores a
      policy that reads back as the evolved policy of the latest prompt, rendered as its text. */
  lemma SavedPromptIsNextVersion(records: seq<StoredInteraction>, iterationCount: nat, prompts: map<int, PromptRecord>,
                                 frozen: bool, id: int, start: int, end: int,
                                 th: StateThresholds, rules: EvolutionRules, render: PromptPolicy -> string)
    ensures var e := CycleOf(records, iterationCount, prompts, frozen, id, start, end, th, rules, render);
      e.saved.Some? ==> (
        var (version, record) := e.saved.value;
        prompts != map[] && version == MaxOf(prompts.Keys) + 1 && version !in prompts
        && e.result.value.newPromptVersion == Some(version)
        && PolicyFromDict(prompts[MaxOf(prompts.Keys)].policy).Ok?
        && PolicyFromDict(record.policy).Ok?
        && (e.result.value.evolutionActions, PolicyFromDict(record.policy).value)
             == Evolve(e.result.value.metrics, PolicyFromDict(prompts[MaxOf(prompts.Keys)].policy).value, rules)
        && record.promptText == render(PolicyFromDict(record.policy).value)
        && |record.actions| == |e.result.value.evolutionActions|
        && forall i :: 0 <= i < |record.actions| ==>
             ParseEvolutionAction(record.actions[i]) == Some(e.result.value.evolutionActions[i]))
  {
    var e := CycleOf(records, iterationCount, prompts, frozen, id, start, end, th, rules, render);
    if e.saved.Some? {
      var top := MaxOf(prompts.Keys);
      if top + 1 in prompts { assert false; }
    }
  }

  /** While frozen, a cycle never saves a prompt, whatever the prompt table holds. */
  lemma FrozenNeverEvolves(records: seq<StoredInteraction>, iterationCount: nat, prompts: map<int, PromptRecord>,
                           id: int, start: int, end: int,
                           th: StateThresholds, rules: EvolutionRules, render: PromptPolicy -> string)
    ensures CycleOf(records, iterationCount, prompts, true, id, start, end, th, rules, render).saved.None?
  {
  }

  /** A stored policy missing a key stops the cycle with that `KeyError` after the snapshot. */
  lemma BrokenPolicyIsKeyError(records: seq<StoredInteraction>, iterationCount: nat, prompts: map<int, PromptRecord>,
                               id: int, start: int, end: int,
                               th: StateThresholds, rules: EvolutionRules, render: PromptPolicy -> string)
    requires RowsInWindow(records, start, end) != [] && prompts != map[]
    requires !(PolicyKeys() <= prompts[MaxOf(prompts.Keys)].policy.Keys)
    ensures var e := CycleOf(records, iterationCount, prompts, false, id, start, end, th, rules, render);
      e.result.Err? && e.result.error.KeyError? && e.snapshot.Some? && e.saved.None?
  {
  }

  /** `ZenAiTrainer`: the cycle over one archive with fixed thresholds, rules and renderer. */
  class ZenAiTrainer {
    const archive: ResonanceArchive
    const thresholds: StateThresholds
    const rules: EvolutionRules
    const render: PromptPolicy -> string

    constructor(archive: ResonanceArchive, thresholds: StateThresholds, rules: EvolutionRules,
                render: PromptPolicy -> string)
      ensures this.archive == archive && this.thresholds == thresholds
      ensures this.rules == rules && this.render == render
    {
      this.archive := archive;
      this.thresholds := thresholds;
      this.rules := rules;
      this.render := render;
    }

    /** `compute_iteration_metrics`. */
    method ComputeIterationMetrics(current: seq<Interaction>, previous: seq<Interaction>)
      returns (metrics: IterationMetrics, state: SystemState)
      ensures (metrics, state) == IterationMetricsAndState(current, previous, thresholds)
    {
      metrics := ComputeMetrics(current, Some(previous), DefaultWindow);
      var previousMetrics := if previous != [] then Some(ComputeMetrics(previous, None, DefaultWindow)) else None;
      var evaluated := EvaluateState(metrics, previousMetrics, Some(thresholds));
      state := evaluated.value;
    }

    /** `evolve_policy`: the trainer's rules applied through `evolve_prompt`. */
    method EvolvePolicy(metrics: IterationMetrics, previousMetrics: Option<IterationMetrics>, policy: PromptPolicy)
      returns (actions: seq<EvolutionAction>, next: PromptPolicy, prompt: string)
      ensures (actions, next) == Evolve(metrics, policy, rules) && prompt == render(next)
    {
      var evolved := EvolvePrompt(metrics, previousMetrics, policy, Some(rules), render);
      actions, next, prompt := evolved.value.0, evolved.value.1, evolved.value.2;
    }

    /** `run_iteration_cycle`: the archive changes exactly as `CycleOf` describes. */
    method RunIterationCycle(id: int, start: int, end: int) returns (r: Result<TrainerIterationResult, Exception>)
      modifies archive
      ensures var e := CycleOf(old(archive.records), |old(archive.iterations)|, old(archive.prompts),
                               old(archive.IsFrozen()), id, start, end, thresholds, rules, render);
        r == e.result
        && archive.snapshots == old(archive.snapshots) + (if e.snapshot.Some? then [e.snapshot.value] else [])
        && archive.prompts == (if e.saved.Some? then old(archive.prompts)[e.saved.value.0 := e.saved.value.1]
                               else old(archive.prompts))
      ensures archive.status == old(archive.status) && archive.iterations == old(archive.iterations)
      ensures archive.records == old(archive.records)
    {
      var current := RowsInWindow(archive.records, start, end);
      if current == [] {
        return Err(ValueError("No interactions found in time window"));
      }
      var previous: seq<Interaction> := [];
      var count := archive.IterationCount();
      if count > 0 {
        previous := RowsOfIteration(archive.records, count);
      }
      var metrics, state := ComputeIterationMetrics(current, previous);
      archive.SaveMetricsSnapshot(id, metrics);
      var frozen := archive.IsFrozen();
      if frozen {
        return Ok(TrainerIterationResult(id, state, metrics, [], None));
      }
      var previousMetrics := if previous != [] then Some(ComputeMetrics(previous, None, DefaultWindow)) else None;
      r := EvolveLatestPrompt(id, state, metrics, previousMetrics);
    }

    /** The unfrozen tail of `run_iteration_cycle`: load the latest prompt, evolve its policy and
        save the next version. */
    method EvolveLatestPrompt(id: int, state: SystemState, metrics: IterationMetrics,
                              previousMetrics: Option<IterationMetrics>)
      returns (r: Result<TrainerIterationResult, Exception>)
      modifies archive
      ensures var (result, saved) := EvolutionStep(old(archive.prompts), id, state, metrics, rules, render);
        r == result
        && archive.prompts == (if saved.Some? then old(archive.prompts)[saved.value.0 := saved.value.1]
                               else old(archive.prompts))
      ensures archive.status == old(archive.status) && archive.iterations == old(archive.iterations)
      ensures archive.records == old(archive.records) && archive.snapshots == old(archive.snapshots)
    {
      var latest := archive.LatestPromptVersion();
      if latest.None? {
        return Err(RuntimeError("No current prompt found in archive"));
      }
      var version := latest.value;
      assert version == MaxOf(archive.prompts.Keys);
      var policy := PolicyFromDict(archive.prompts[version].policy);
      if policy.Err? {
        return Err(policy.error);
      }
      var actions, next, prompt := EvolvePolicy(metrics, previousMetrics, policy.value);
      var newVersion := version + 1;
      if newVersion in archive.prompts {
        assert false;
      }
      archive.SavePrompt(newVersion, prompt, next.ToDict(), Some(ActionValues(actions)));
      return Ok(TrainerIterationResult(id, state, metrics, actions, Some(newVersion)));
    }
  }
}
