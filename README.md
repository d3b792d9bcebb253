# zen_ai adaptive policy engine — a Dafny model

This project models the adaptive policy engine of zen_ai:

- **Measurement.** A batch of logged interactions is turned into iteration metrics: resonance ratio, sliding-window rejection density, response-length drift, refusal frequency, semantic collapse index and average length.
- **Classification.** The metrics are classified into an operating state by an ordered first-match decision list.
- **Evolution.** The next generation policy (output tokens, refusal threshold, perturbation level, temperature) is computed from distance terms, weighted deltas and clamping, and reported as a list of actions.
- **Guards.** Freeze, rollback and kill interlocks protect the result, recorded in the resonance archive.

Around that core the model also covers the smaller rules of the surrounding code:

- strict configuration loading;
- the iteration report and its payload;
- the JSON-lines interaction loader;
- the prefix/suffix split of the offline runner;
- the health check;
- the orator's refusal heuristic;
- question sampling and the script filter of the gatha generator;
- the question score;
- the article writer's reading-time estimate and length settings.

One Dafny module corresponds to one source file:

| module | source file |
|---|---|
| `Models` | `src/core/models.py` |
| `Metrics` | `src/core/metrics.py` |
| `State` | `src/core/state.py` |
| `Evolution` | `src/core/evolution.py` |
| `Registry` | `src/core/registry.py` |
| `Archive` | the archive tables the engine reads and writes (`src/storage/archive.py`) |
| `Safety` | `src/safety/safety.py` |
| `Trainer` | `src/trainer/trainer.py` |
| `Scheduler` | `src/scheduler/scheduler.py` |
| `Config` | `src/config/loader.py` |
| `Reporting` | `src/utils/reporting.py` |
| `DataIo` | `src/utils/data_io.py` |
| `Cli` | `src/utils/cli.py` |
| `Monitoring` | `src/monitoring/monitoring.py` |
| `Orator` | `src/orator/orator.py` |
| `Gatha` | `src/trainer/gatha_generator.py` |
| `Question` | `src/ken_wang/question_generator.py` |
| `Sage` | `src/ken_wang/sage.py` |

Three modules are shared helpers:

- `Wrappers`: `Option`, `Result` and the exception kinds.
- `Text`: Python's `split`, `strip`, `lower`, `in` and `str(int)` over `seq<char>`.
- `JsonData`: decoded JSON values with `str()`, `int()`, `bool()` and `in`.

**Pure and imperative parts.**

- Pure parts are functions with lemmas.
- Loops of the source are methods with loop invariants, proved against a specification function:
  - `TokenDiversity`;
  - `SlidingRejectionDensity`;
  - `CountConsecutiveState`;
  - `GetRecentStates`;
  - `CompareReports`;
  - `LoadInteractions`;
  - `GetIterationHistory`.
- The objects that update state in place are classes whose methods carry `modifies` clauses:
  - `PromptRegistry`;
  - the resonance archive;
  - `SafetyController`;
  - `ZenAiTrainer`;
  - `IterationScheduler`;
  - `SystemMonitor`.

**Numbers.** Ratios and floats are `real`, so arithmetic is exact. Python's `int()` truncation and `round()` (half to even) are written out explicitly.

**Inputs from outside.** Clock readings, file existence, file contents, the JSON decoder, the language model's reply and the prompt renderer are parameters.

## Model

| member | source | states |
|---|---|---|
| Models.ParseSystemState | src/core/models.py:8-13 | exactly the five state values parse, each back to its own state |
| Models.ParseEvolutionAction | src/core/models.py:16-22 | exactly the six action values parse, each back to its own action |
| Models.ActionValues | src/trainer/trainer.py:226 | `[a.value for a in actions]`: same length, and each value parses back to the action at its position |
| Models.Interaction.ResponseLength | src/core/models.py:32-34 | the whitespace word count is 0 exactly when the response is blank |
| Models.Trunc | src/core/models.py:80 | `int()` of a real truncates toward zero: within one unit of `x`, on the side of zero |
| Models.MetricOr | src/utils/reporting.py:96-100 | `metrics.get(key, 0)`: the stored value when present, zero otherwise |
| Models.IterationMetrics.ToDict | src/core/models.py:47-57 | exactly the seven metric keys, each holding the same-named field |
| Models.MetricDictSize | src/core/models.py:47-57 | the metrics dictionary has seven entries |
| Models.PromptPolicy.ToDict | src/core/models.py:67-84 | exactly the four policy keys; reading the dictionary back gives the same policy |
| Models.PolicyFromDict | src/core/models.py:76-84 | succeeds iff all four keys are present; fields as read (tokens through `int()`); a missing key raises `KeyError` naming an absent policy key |
| Metrics.CountFeedback | src/core/metrics.py:53-55 | the count of a feedback tag is at most the batch size |
| Metrics.CountRefusals | src/core/metrics.py:56 | the refusal count is at most the batch size |
| Metrics.DistinctTagsDisjoint | src/core/metrics.py:53-55 | two different tags never count the same interaction, so together they count at most the batch |
| Metrics.NoWordsIffAllBlank | src/core/metrics.py:58 | the word total is 0 exactly when every response is blank |
| Metrics.Ratio | src/core/metrics.py:82-88 | `a / b` as an exact quotient, non-negative and at most 1 when `a <= b` |
| Metrics.Clamp01 | src/core/metrics.py:76-78 | the result lies in [0,1]: the value itself when already there, 0 below, 1 above |
| Metrics.WindowSize | src/core/metrics.py:25 | `max(1, min(window_size, n))`: in [1, n]; n when the window is wider; the window itself when it fits; 1 for a window below 1 |
| Metrics.WindowDensity | src/core/metrics.py:28-32 | the rejection fraction of one window lies in [0,1] |
| Metrics.BestWindow | src/core/metrics.py:26-33 | the running maximum over windows lies in [0,1] |
| Metrics.BestWindowIsMaximum | src/core/metrics.py:26-33 | the running maximum bounds every window visited and equals one of them |
| Metrics.RejectionDensity | src/core/metrics.py:19-33 | 0 for no interactions; otherwise the maximum over all windows of the window size, in [0,1] |
| Metrics.SlidingRejectionDensity | src/core/metrics.py:19-33 | the loop computes exactly `RejectionDensity` |
| Metrics.SingleWindow | src/core/metrics.py:25-33 | a window at least as wide as the batch gives the overall rejection fraction |
| Metrics.DensityExample | src/core/metrics.py:19-33 | [ignore, ignore, rejection, rejection, rejection, ignore] with window 3 has density 1.0 |
| Metrics.DistinctBounds | src/core/metrics.py:15 | distinct tokens number at most all tokens, and at least one when any token exists |
| Metrics.Diversity | src/core/metrics.py:9-16 | 0 without tokens; otherwise in (0,1] |
| Metrics.TokenDiversity | src/core/metrics.py:9-16 | the token-collecting loop computes exactly `Diversity` |
| Metrics.Texts | src/core/metrics.py:69-74 | the response texts of the batch, position by position |
| Metrics.Quotient | src/core/metrics.py:64 | real division by a positive divisor keeps the dividend's sign |
| Metrics.AverageLength | src/core/metrics.py:58 | the mean word count is non-negative |
| Metrics.LengthDrift | src/core/metrics.py:60-66 | 1.0 without previous batch, with an empty one or with previous mean 0; otherwise current mean over previous mean |
| Metrics.CollapseIndex | src/core/metrics.py:68-80 | in [0,1]; 0 without previous batch; positive exactly when diversity fell below the previous diversity |
| Metrics.ComputeMetrics | src/core/metrics.py:36-90 | total is the batch size; ratios are the counts over total; all bounded as stated; no previous batch gives drift 1.0 and index 0 |
| Metrics.EmptyBatch | src/core/metrics.py:41-50 | an empty batch yields total 0, ratios and average 0, drift 1.0 |
| Metrics.EmptyPreviousIsNone | src/core/metrics.py:60-68 | an empty previous batch is treated like no previous batch |
| Metrics.SelfComparison | src/core/metrics.py:60-80 | a batch measured against itself has drift 1.0 and collapse index 0 |
| State.EvaluateState | src/core/state.py:46-87 | missing thresholds raise `ValueError`; MUTE, COLLAPSING, STABLE and DRIFTING each hold exactly under their first-match conditions; DEAD is never returned |
| State.EmptyIterationIsMute | src/core/state.py:57-58 | zero responses give MUTE whatever the other fields |
| State.PreviousOnlyAddsDrifting | src/core/state.py:72-76 | supplying previous metrics changes a verdict only into DRIFTING |
| Evolution.Excess | src/core/evolution.py:89-95 | `max(0, x)`: non-negative, zero exactly when `x <= 0` |
| Evolution.ComputeDistances | src/core/evolution.py:89-95 | all seven distance terms are non-negative; each is zero exactly when its metric is on target |
| Evolution.RoundHalfEven | src/core/evolution.py:101 | `round()`: within 0.5 of the value, ties going to the even integer |
| Evolution.RoundInteger | src/core/evolution.py:101 | rounding an integer gives it back |
| Evolution.NoDistanceNoShift | src/core/evolution.py:97-112 | all distances zero give all four shifts zero |
| Evolution.Clamp | src/core/evolution.py:71-72 | `_clamp` lands in [lo, hi] when lo <= hi, keeps in-range values, saturates to lo below and to hi above, gives lo when lo > hi; the token count goes through it as well, converted to `real` and back |
| Evolution.LengthActions | src/core/evolution.py:114-117 | at most one length action: TIGHTEN iff token delta <= -threshold, RELAX iff not that and delta >= threshold |
| Evolution.RefusalActions | src/core/evolution.py:119-122 | at most one refusal action: RAISE iff shift >= threshold, LOWER iff not that and shift <= -threshold |
| Evolution.PerturbationActions | src/core/evolution.py:124-125 | MILD_PERTURBATION iff the perturbation shift reaches the threshold |
| Evolution.TemperatureActions | src/core/evolution.py:127-128 | TUNE_TEMPERATURE iff the absolute temperature shift reaches the threshold |
| Evolution.PlannedActions | src/core/evolution.py:114-128 | at most four actions, in the fixed order length, refusal, perturbation, temperature |
| Evolution.PlannedActionsExact | src/core/evolution.py:114-128 | each action is in the list exactly when its trigger holds |
| Evolution.RankedActionsDistinct | src/core/evolution.py:114-128 | no action repeats; never both TIGHTEN and RELAX, never both RAISE and LOWER |
| Evolution.RankedConcat | src/core/evolution.py:114-128 | appending the next knob's at most one action keeps the list in rank order |
| Evolution.NextPolicy | src/core/evolution.py:130-153 | tokens in [min, max], refusal threshold and perturbation in [0,1], temperature in [min, max]; each field is current + delta when that stays in range, and the bound it crosses otherwise |
| Evolution.Abs | src/core/evolution.py:127 | `abs(x)`: non-negative and equal to `x` or `-x` |
| Evolution.LengthDelta | src/core/evolution.py:97-100 | with non-negative weights and distances: never tightens without low resonance or dense rejection, never relaxes without lost length or excess refusals |
| Evolution.RefusalDelta | src/core/evolution.py:103-106 | with non-negative weights and distances: raises only for low/high resonance, dense rejection or few refusals; lowers only for many refusals or lost length |
| Evolution.TemperatureDelta | src/core/evolution.py:111-112 | with a non-negative weight: up only for semantic collapse, down only for low resonance or dense rejection |
| Evolution.ScaledLengthDelta | src/core/evolution.py:101 | a non-negative length scale keeps the sign of the length pull |
| Evolution.ComputeShifts | src/core/evolution.py:97-112 | rounding keeps the token pull's sign; non-negative scales keep the other pulls' signs; the perturbation shift is never negative |
| Evolution.Evolve | src/core/evolution.py:75-155 | at most four actions in knob order, and a next policy inside every range |
| Evolution.EvolvePolicy | src/core/evolution.py:75-155 | missing rules raise `ValueError`; otherwise the actions and next policy of `Evolve`; previous metrics play no part |
| Evolution.ActionsWellFormed | src/core/evolution.py:114-128 | the emitted actions are ordered, distinct and at most four |
| Evolution.OnTargetIsStill | src/core/evolution.py:89-153 | with every metric on target and positive thresholds, no action and the next policy is the clamped current one |
| Evolution.ShiftsIgnoreThresholds | src/core/evolution.py:97-112 | the shifts do not depend on the action thresholds |
| Evolution.ThresholdsOnlyReport | src/core/evolution.py:114-153 | the next policy does not depend on the action thresholds: deltas apply whether or not an action is emitted |
| Evolution.EvolvePrompt | src/core/evolution.py:158-165 | `evolve_policy`'s pair plus the rendered new policy |
| Registry.LatestOf | src/core/registry.py:12-15 | empty raises `RuntimeError`; otherwise a stored snapshot (the last) |
| Registry.RollbackOf | src/core/registry.py:20-24 | fewer than two raises `RuntimeError`; otherwise drops exactly the last and returns the new last |
| Registry.LatestAfterAppend | src/core/registry.py:15-18 | after appending `s`, the latest is `s` |
| Registry.RollbackUndoesAppend | src/core/registry.py:17-24 | a rollback after an append restores the earlier list and returns its last snapshot |
| Registry.PromptRegistry.constructor | src/core/registry.py:9-10 | the registry starts with the given snapshots |
| Registry.PromptRegistry.Latest | src/core/registry.py:12-15 | returns `LatestOf` of the snapshots |
| Registry.PromptRegistry.Append | src/core/registry.py:17-18 | the list grows by exactly the snapshot, which becomes the latest |
| Registry.PromptRegistry.Rollback | src/core/registry.py:20-24 | on error the list is unchanged; otherwise the last snapshot is removed and the new last returned |
| Archive.InteractionsOf | src/storage/archive.py:448-455 | the interactions of the rows, in row order |
| Archive.UnassignedRows | src/storage/archive.py:152-161 | exactly the rows without an iteration, keeping the table's order, so chronological rows stay chronological |
| Archive.RowsOfIteration | src/storage/archive.py:98-110 | an interaction is returned exactly when some row assigned to the iteration holds it |
| Archive.RowsInWindow | src/storage/archive.py:112-129 | an interaction is returned exactly when some row logged within the closed time window holds it |
| Archive.IdsOf | src/scheduler/scheduler.py:163 | the ids of the rows, position by position |
| Archive.AssignRows | src/storage/archive.py:163-173 | every listed row gets the iteration, no other row changes |
| Archive.AssignAllUnassigned | src/storage/archive.py:152-173 | assigning all unassigned ids leaves none unassigned |
| Archive.NoUnassigned | src/storage/archive.py:152-161 | rows that all belong to an iteration list no unassigned row |
| Archive.MaxOf | src/storage/archive.py:372-379 | the largest version number |
| Archive.ResonanceArchive.constructor | src/storage/archive.py:22-35 | an archive with no prompts, status, iterations or snapshots, holding the given interaction rows |
| Archive.ResonanceArchive.SetStatus | src/storage/archive.py:395-405 | writes exactly one status key |
| Archive.ResonanceArchive.LatestPromptVersion | src/storage/archive.py:372-379 | none iff no prompt; otherwise the maximum stored version |
| Archive.ResonanceArchive.SavePrompt | src/storage/archive.py:349-365 | adds exactly the new version, actions defaulting to [] |
| Archive.ResonanceArchive.SaveMetricsSnapshot | src/storage/archive.py:312-330 | appends exactly one snapshot |
| Archive.ResonanceArchive.GetIteration | src/storage/archive.py:224-227 | a record exists exactly for ids 1..count |
| Archive.ResonanceArchive.CreateIteration | src/storage/archive.py:179-195 | appends a pending iteration and returns its id, the new count |
| Archive.ResonanceArchive.CompleteIteration | src/storage/archive.py:197-213 | updates an existing iteration's end, total, state and metrics; an unknown id changes nothing |
| Archive.ResonanceArchive.AssignInteractions | src/storage/archive.py:163-173 | rows become `AssignRows` of the old rows |
| Safety.TrailingRun | src/safety/safety.py:238-250 | the trailing run: at most the length, all the target, preceded by a mismatch |
| Safety.TrailingRunExamples | src/safety/safety.py:238-250 | [STABLE,C,C,C,C] counts 4; [C,C,STABLE,C,C] counts 2 |
| Safety.CountConsecutiveState | src/safety/safety.py:238-250 | the reversed loop computes exactly `TrailingRun` |
| Safety.TrailingRunUnique | src/safety/safety.py:238-250 | any count with the run's defining properties is the trailing run |
| Safety.ParsedStates | src/safety/safety.py:228-236 | at most one state per visited iteration |
| Safety.RecentStates | src/safety/safety.py:223-236 | at most `n` states |
| Safety.ParsedStatesSound | src/safety/safety.py:228-236 | every collected state is the parsed state of a visited iteration |
| Safety.ParsedStatesComplete | src/safety/safety.py:228-236 | every parseable visited state is collected; unparseable ones are skipped |
| Safety.RollbackTarget | src/safety/safety.py:97-113 | succeeds iff versions exist and (given target or at least two); result is an existing version below the maximum; `None` picks the second largest; error kinds as in the source |
| Safety.SecondLargest | src/safety/safety.py:107 | `sorted(versions)[-2]`: below the maximum and at least every other version |
| Safety.SafetyController.constructor | src/safety/safety.py:46-57 | the controller keeps the archive and thresholds it is given |
| Safety.SafetyController.Freeze | src/safety/safety.py:63-75 | writes frozen = "true" and the stamp; frozen afterwards; killed unchanged |
| Safety.SafetyController.Unfreeze | src/safety/safety.py:77-80 | writes frozen = "false"; not frozen afterwards; killed unchanged |
| Safety.SafetyController.IsFrozen | src/storage/archive.py:413-415 | frozen iff the stored value is "true" |
| Safety.SafetyController.Kill | src/safety/safety.py:142-159 | writes killed = "true" and the stamp; killed afterwards |
| Safety.SafetyController.IsKilled | src/storage/archive.py:417-419 | killed iff the stored value is "true" |
| Safety.SafetyController.Rollback | src/safety/safety.py:90-136 | errors write nothing; success saves version max+1 copying the target's text and policy with actions ["rollback_to_v<target>"], records rollback_from and rollback_to, and returns max+1; existing versions untouched; killed flag unchanged |
| Safety.SafetyController.GetRecentStates | src/safety/safety.py:223-236 | the loop computes exactly `RecentStates` |
| Safety.RunReachesIff | src/safety/safety.py:238-250 | the trailing run reaches n exactly when the last n states are all the target |
| Safety.KillCondition | src/safety/safety.py:169-221 | kill exactly on an extreme metric, a DEAD state, or the last N recent states all COLLAPSING, or all MUTE |
| Safety.SafetyController.ShouldKill | src/safety/safety.py:169-221 | true iff rr <= min, rd >= max, sci >= max, state DEAD, or a trailing COLLAPSING or MUTE run over the last five states reaches its limit |
| Trainer.PreviousMetrics | src/trainer/trainer.py:114-116 | none exactly for an empty previous batch, otherwise metrics over it |
| Trainer.IterationMetricsAndState | src/trainer/trainer.py:102-118 | metrics of the batch; state is `evaluate_state` against the previous metrics; never DEAD; empty previous gives drift 1.0 and index 0 |
| Trainer.PreviousBatch | src/trainer/trainer.py:167-175 | no previous iteration gives no batch; otherwise exactly the interactions of rows assigned to the latest iteration |
| Trainer.CycleOf | src/trainer/trainer.py:134-239 | empty window raises `ValueError` before any write; otherwise a snapshot for the id; frozen gives no actions and no prompt; no prompt raises `RuntimeError`; a prompt is saved exactly when the latest prompt's policy parses, and otherwise its parse error is the result; the snapshot's metrics and the result's state are those computed from the window's rows and the previous iteration's batch |
| Trainer.EvolutionStep | src/trainer/trainer.py:200-231 | no prompt raises `RuntimeError`; with a prompt it succeeds exactly when the latest policy parses, else fails with that parse error; a prompt is saved exactly on success; the result carries id, state and metrics |
| Trainer.SavedPromptIsNextVersion | src/trainer/trainer.py:205-231 | the saved version is latest+1, with the next policy's dictionary and the action values, and those are returned |
| Trainer.FrozenNeverEvolves | src/trainer/trainer.py:195-199 | a frozen cycle saves no prompt |
| Trainer.BrokenPolicyIsKeyError | src/trainer/trainer.py:205 | a latest policy lacking a key raises `KeyError` and saves nothing |
| Trainer.ZenAiTrainer.constructor | src/trainer/trainer.py:45-52 | the trainer keeps its archive, state thresholds, evolution rules and renderer |
| Trainer.ZenAiTrainer.ComputeIterationMetrics | src/trainer/trainer.py:102-118 | returns `IterationMetricsAndState` |
| Trainer.ZenAiTrainer.EvolvePolicy | src/trainer/trainer.py:120-132 | returns `Evolve` and the rendered policy |
| Trainer.ZenAiTrainer.EvolveLatestPrompt | src/trainer/trainer.py:200-231 | the prompts change exactly as `EvolutionStep` says and the result is its result; the other tables are unchanged |
| Trainer.ZenAiTrainer.RunIterationCycle | src/trainer/trainer.py:134-239 | the archive's snapshots and prompts change exactly as `CycleOf` says, nothing else changes |
| Scheduler.CurrentPromptVersion | src/scheduler/scheduler.py:172 | 0 without prompts, otherwise the latest version |
| Scheduler.RowsWithIds | src/storage/archive.py:163-173 | a row is selected exactly when it is in the table and its id is listed |
| Scheduler.AssignedRowsOfIteration | src/scheduler/scheduler.py:179-182 | after assignment the iteration owns exactly the listed rows |
| Scheduler.ListedAreUnassigned | src/scheduler/scheduler.py:149-163 | ids listed exactly for unassigned rows select the unassigned rows |
| Scheduler.UnassignedIdExact | src/scheduler/scheduler.py:149-168 | with distinct ids, a row's id is among the unassigned ids exactly when the row is unassigned |
| Scheduler.UnassignedIdsPickUnassigned | src/scheduler/scheduler.py:149-168 | with unique ids, the captured ids select exactly the unassigned rows |
| Scheduler.BatchIsItsOwnPrevious | src/scheduler/scheduler.py:170-190 | the trainer's previous batch is the captured batch, so drift is 1.0 and collapse index 0 |
| Scheduler.NewIterationScheduler | src/scheduler/scheduler.py:60-77 | a missing configuration raises `ValueError` with the source's message, and only then; otherwise a fresh, stopped scheduler holding what it was given |
| Scheduler.IterationScheduler.constructor | src/scheduler/scheduler.py:60-77 | a stopped scheduler over the given trainer, archive, settings and safety thresholds |
| Scheduler.IterationScheduler.ShouldTriggerIteration | src/scheduler/scheduler.py:103-119 | true iff the unassigned count reaches `min_interactions` |
| Scheduler.IterationScheduler.Stop | src/scheduler/scheduler.py:98-101 | stopping a scheduler that is not running raises |
| Scheduler.IterationScheduler.RunIterationCycle | src/scheduler/scheduler.py:121-230 | killed: stop, no iteration; no unassigned rows: nothing changes; otherwise create, assign, run the trainer, complete (or mark "dead" with `{}` and the batch size), kill and stop when `should_kill` holds; errors are not re-raised |
| Scheduler.IterationScheduler.ProcessBatch | src/scheduler/scheduler.py:146-226 | the batch's effect on every archive table |
| Scheduler.IterationScheduler.RunTrainerAndFinish | src/scheduler/scheduler.py:185-226 | the trainer's cycle over the batch's span, then the completion and kill check |
| Scheduler.IterationScheduler.FinishIteration | src/scheduler/scheduler.py:192-226 | completion with the result's state, metrics dict and total, or "dead"; kill check afterwards |
| Scheduler.IterationScheduler.CheckIterationTrigger | src/scheduler/scheduler.py:232-236 | below the trigger nothing changes; at or above it the outcome is exactly a cycle's (`CycleOutcome`) |
| Scheduler.IterationScheduler.Start | src/scheduler/scheduler.py:79-96 | below the trigger nothing changes and it succeeds; at or above it the archive changes as one cycle says (`CycleOutcome`); running afterwards on success, stopped on error |
| Config.Missing | src/config/loader.py:34 | the absent names in list order; empty iff all present |
| Config.MissingExactlyAbsent | src/config/loader.py:34 | a name is reported iff it is listed and absent |
| Config.CheckRequiredParams | src/config/loader.py:27-39 | succeeds iff all names present; otherwise `TypeError` with the section and the missing names |
| Config.Values | src/config/loader.py:99-201 | the value under each listed name |
| Config.PathsFromValues | src/config/loader.py:96-103 | the path settings built field by field from the values in parameter order |
| Config.SchedulerFromValues | src/config/loader.py:106-113 | the same for the scheduler settings |
| Config.InitialPolicyFromValues | src/config/loader.py:116-124 | the same for the initial policy |
| Config.StateThresholdsFromValues | src/config/loader.py:127-147 | the same for the eleven state thresholds |
| Config.EvolutionRulesFromValues | src/config/loader.py:150-185 | the same for the twenty-three evolution rules |
| Config.SafetyThresholdsFromValues | src/config/loader.py:188-201 | the same for the five safety thresholds |
| Config.LoadSection | src/config/loader.py:96-201 | a section loads iff complete, with each field equal to its key's value; otherwise the check's error |
| Config.FirstBroken | src/config/loader.py:86-93 | the first incomplete section in loading order |
| Config.NoneBrokenIff | src/config/loader.py:42-93 | no incomplete section exactly when every section holds all its parameters |
| Config.LoadZenAiConfig | src/config/loader.py:42-93 | for the engine's schema: missing file `FileNotFoundError`, empty `ValueError`, missing sections `KeyError`; success exactly when every section holds all its parameters, each record then holding its section's values |
| Config.LoadConfig | src/config/loader.py:42-93 | missing file `FileNotFoundError`; empty `ValueError`; missing sections `KeyError` naming all of them before any parameter check; then the first incomplete section's `TypeError`; success iff nothing is missing, every field from its key |
| Config.LoadSections | src/config/loader.py:86-93 | sections loaded in order, first failure wins |
| Config.LoadFirstSections | src/config/loader.py:86-88 | paths, scheduler and initial policy load iff none is broken; the first broken one's error otherwise |
| Config.LoadLaterSections | src/config/loader.py:89-93 | the same for state thresholds, evolution rules and safety |
| Config.MissingAgree | src/config/loader.py:34 | the missing list depends only on which names are present |
| Config.SectionAgree | src/config/loader.py:96-201 | a section's result depends only on its required keys |
| Config.ExtraKeysIgnored | src/config/loader.py:42-201 | documents agreeing on the required sections and keys load the same |
| Config.SectionsAgree | src/config/loader.py:86-93 | documents whose sections load alike load alike as a whole |
| Config.FirstSectionsAgree | src/config/loader.py:86-88 | the same for the first three sections |
| Config.LaterSectionsAgree | src/config/loader.py:89-93 | the same for the last three sections |
| Config.ConfigSchemaShape | src/config/loader.py:75-194 | six sections of 3, 3, 4, 11, 23 and 5 parameters |
| Config.PathsMissingTwo | src/config/loader.py:96-103 | a paths section with only data_dir reports database, reports_dir in order |
| JsonData.StrOf | src/utils/data_io.py:43-48 | `str()` of a string is itself; floats, lists and dicts are not modelled |
| JsonData.IntOf | src/utils/reporting.py:74 | `int()` of a number truncates, of a bool gives 1/0, fails on null and containers |
| JsonData.HasKey | src/utils/data_io.py:36 | `key in payload` for a dict; a type error for non-containers |
| JsonData.MissingKeys | src/utils/data_io.py:35-36 | for a dict, exactly the listed keys it lacks |
| DataIo.Field | src/utils/data_io.py:43-51 | indexing succeeds iff the payload is a dict holding the key |
| DataIo.ParseInteraction | src/utils/data_io.py:30-51 | every missing field in one `ValueError` with line and path; success needs all four, and a dict with all four whose text fields are strings does succeed; refusal is truthiness; feedback stripped |
| DataIo.ParseLine | src/utils/data_io.py:17-26 | blank lines give nothing; undecodable ones the line's `ValueError`; others parse |
| DataIo.ReadLines | src/utils/data_io.py:14-27 | at most one item per line |
| DataIo.NonBlankLines | src/utils/data_io.py:16-19 | the numbers of the non-blank lines: at most one per line, each a valid line number |
| DataIo.NonBlankLinesExact | src/utils/data_io.py:16-19 | the kept line numbers ascend and are exactly the non-blank lines |
| DataIo.OnePerNonBlankLine | src/utils/data_io.py:16-26 | a successful read holds one item per non-blank line, in file order |
| DataIo.OnePerLineExtends | src/utils/data_io.py:16-26 | reading one more line keeps the correspondence |
| DataIo.AppendKept | src/utils/data_io.py:26 | a kept last line appends its item after the earlier lines' items |
| DataIo.KeptLines | src/utils/data_io.py:16-26 | the lines kept before a new line keep their items |
| DataIo.BlankLinesSkipped | src/utils/data_io.py:17-19 | blank lines only read as nothing |
| DataIo.FirstErrorStands | src/utils/data_io.py:20-26 | lines after the first failing one are never read |
| DataIo.InteractionStep | src/utils/data_io.py:16-26 | the step keeps exactly the non-blank lines |
| DataIo.InvalidJsonReported | src/utils/data_io.py:16-25 | an undecodable line after good ones raises with its 1-based physical number |
| DataIo.FailingLineStands | src/utils/data_io.py:16-26 | the first failing line's error is the result |
| DataIo.LoadInteractions | src/utils/data_io.py:10-27 | missing file `FileNotFoundError`; the loop computes exactly `ReadLines` |
| Reporting.BuildReport | src/utils/reporting.py:26-40 | id copied, state and actions by value (parsing back in order), the metrics dict exactly the iteration metrics' `to_dict()`, prompt version |
| Reporting.ReportToPayload | src/utils/reporting.py:82-89 | the payload holds every key the parser requires |
| Reporting.MetricsOf | src/utils/reporting.py:75 | a dict of numbers read back entry by entry |
| Reporting.ActionsOf | src/utils/reporting.py:77 | a list of strings read back item by item |
| Reporting.PromptVersionOf | src/utils/reporting.py:78 | null reads as none, an integer as that version |
| Reporting.ParseReport | src/utils/reporting.py:60-79 | missing keys raise one `ValueError` naming them all; success only with every key |
| Reporting.PayloadRoundTrip | src/utils/reporting.py:60-89 | parsing a report's payload gives back the report |
| Reporting.MissingKeysNamed | src/utils/reporting.py:68-71 | a key is named iff required and absent |
| Reporting.SummarizeReport | src/utils/reporting.py:92-103 | state, action count, prompt version; each metric or 0 when absent |
| Reporting.SummaryOfBuiltReport | src/utils/reporting.py:92-103 | the summary of a built report gives back the trainer result's measurements |
| Reporting.SuffixInjective | src/utils/reporting.py:122 | distinct keys give distinct `<key>_delta` names |
| Reporting.Deltas | src/utils/reporting.py:106-123 | no more entries than keys; a repeated key keeps the last write |
| Reporting.DeltasStep | src/utils/reporting.py:118-122 | one more loop step adds that key's delta |
| Reporting.CompareKeysDistinct | src/utils/reporting.py:108-115 | the six compared names are pairwise different |
| Reporting.DeltasExact | src/utils/reporting.py:118-122 | one `<key>_delta` per key, each later minus earlier, absent read as 0 |
| Reporting.DeltasCount | src/utils/reporting.py:118-122 | distinct keys give as many deltas as keys |
| Reporting.SelfDeltasZero | src/utils/reporting.py:118-122 | comparing metrics with themselves gives only zeros |
| Reporting.CompareReports | src/utils/reporting.py:106-123 | the loop computes exactly `Deltas` over the six keys |
| Reporting.CompareReportsExact | src/utils/reporting.py:106-123 | exactly six deltas, each later minus earlier; a self-compare is all zero |
| Cli.SplitIndex | src/utils/cli.py:17 | `max(1, int(n * ratio))`: the floor of n * ratio when that is at least 2, and 1 exactly when n * ratio is below 2 |
| Cli.ScaledAtLeast | src/utils/cli.py:17 | a ratio of at least one does not shrink the count |
| Cli.SplitInteractions | src/utils/cli.py:16-18 | the two parts concatenate to the input; first part has min(n, split) items, non-empty for non-empty input; ratio >= 1 leaves current empty |
| Monitoring.StateIssues | src/monitoring/monitoring.py:112-125 | COLLAPSING, MUTE and DRIFTING raise exactly their issue; other strings none |
| Monitoring.IssueIf | src/monitoring/monitoring.py:128-148 | an issue exactly when past its threshold |
| Monitoring.ThresholdIssuesExact | src/monitoring/monitoring.py:128-148 | each metric issue iff its strict test (rr<0.15, rd>0.7, rf>0.5, sci>0.6); at most four |
| Monitoring.MetricIssues | src/monitoring/monitoring.py:127-148 | empty metrics raise nothing |
| Monitoring.StatusFor | src/monitoring/monitoring.py:163-168 | healthy for 0 issues, degraded for 1-2, critical for 3 or more |
| Monitoring.HealthValue | src/monitoring/monitoring.py:287-289 | the gauge lies in 0..4 |
| Monitoring.HealthValueExact | src/monitoring/monitoring.py:287-289 | non-zero exactly for the four statuses |
| Monitoring.CountSince | src/storage/archive.py:425-437 | exactly the number of rows whose timestamp is at or after `start` (so at most the number of rows) |
| Monitoring.CountSinceAppend | src/storage/archive.py:425-437 | rows logged inside the window each count once |
| Monitoring.HistoryStart | src/monitoring/monitoring.py:184 | the first visited id is at least 1 |
| Monitoring.SystemMonitor.constructor | src/monitoring/monitoring.py:47-48 | the monitor reads the given archive |
| Monitoring.Raise | src/monitoring/monitoring.py:117-160 | issue and recommendation appended together |
| Monitoring.RaiseIf | src/monitoring/monitoring.py:128-148 | one metric test: the issue and its recommendation appended exactly when past the threshold |
| Monitoring.CheckMetrics | src/monitoring/monitoring.py:127-148 | appends exactly `MetricIssues`, keeping the pairing |
| Monitoring.AssessIteration | src/monitoring/monitoring.py:108-174 | state, metric, volume and frozen issues in order; lists paired; status from the count |
| Monitoring.SystemMonitor.CheckHealth | src/monitoring/monitoring.py:78-174 | killed is dead; no iterations is healthy with no issues; otherwise `AssessIteration` of the latest, last 24 h count and frozen flag; gauge in 1..4 |
| Monitoring.SystemMonitor.GetIterationHistory | src/monitoring/monitoring.py:176-198 | ids max(1, count-n+1)..count ascending, each with its record; at most n entries |
| Monitoring.HistoryEndsAtLatest | src/monitoring/monitoring.py:184-196 | ids ascend by one and end at the latest iteration |
| Orator.RefusesWith | src/orator/orator.py:262-284 | refusal iff fewer than 10 words or a phrase in the lower-cased text |
| Orator.DetectRefusal | src/orator/orator.py:250-284 | the same with the ten phrases; the threshold plays no part |
| Orator.LongPlainReplyIsAnswer | src/orator/orator.py:284 | ten or more words and no phrase: not a refusal |
| Orator.FailureText | src/orator/orator.py:101-110 | the failure text starts "[System Error: " |
| Orator.FailureTextIsRefusal | src/orator/orator.py:101-110 | the failure text is itself flagged by the heuristic |
| Orator.LanguageInstruction | src/orator/orator.py:74-85 | an unknown language gets the English instruction |
| Orator.Respond | src/orator/orator.py:43-133 | no prompt `RuntimeError`; system and user messages; failure text with refusal true; a reply judged by the heuristic; defaults 0.7 and 220; stored with feedback "ignore" |
| Gatha.SampleIndex | src/trainer/gatha_generator.py:203-204 | every sampled position is in bounds |
| Gatha.SampleIndexBound | src/trainer/gatha_generator.py:203-204 | `i * (n // m) < n` for i < m < n |
| Gatha.SampleIndicesIncrease | src/trainer/gatha_generator.py:203-204 | positions strictly increase from 0 |
| Gatha.SampleQuestions | src/trainer/gatha_generator.py:197-204 | input unchanged when short; exactly max items at `i * step` otherwise; max 0 with questions `ZeroDivisionError`; negative max gives [] |
| Gatha.ContainsNonChinese | src/trainer/gatha_generator.py:206-215 | true iff some character is an ASCII letter, kana or Hangul syllable |
| Gatha.GathaText | src/trainer/gatha_generator.py:121-157 | the verse holds no such character; a clean reply is kept stripped; a failure gives "" |
| Gatha.ExplanationText | src/trainer/gatha_generator.py:255-262 | stripped reply, or "" on failure |
| Gatha.UserQuestions | src/trainer/gatha_generator.py:80 | the questions in order |
| Gatha.GenerateGatha | src/trainer/gatha_generator.py:36-119 | no interactions: the fixed quiet verse, count 0, no model call; otherwise count = interactions, rejection density and refusal frequency present, absent from the quiet verse; error iff max sample 0 |
| Question.ValidateQuestion | src/ken_wang/question_generator.py:292-335 | score 10 minus the deductions; one issue per deduction; one suggestion for personal; valid iff score >= 6 and <= 2 issues, which is score >= 6; score in [4,10], issues <= 3 |
| Sage.LengthConfig | src/ken_wang/sage.py:57-75 | short, medium, long settings; unknown gives medium (1500, 3000) |
| Sage.CharsPerMinute | src/ken_wang/sage.py:259-264 | 500 for zh, zh-tw, ja; 1250 otherwise |
| Sage.TruncDiv | src/ken_wang/sage.py:266-267 | `int(a / b)` toward zero: floor division for a >= 0, and for a < 0 the non-positive q with q * b >= a > (q - 1) * b |
| Sage.EstimateReadingTime | src/ken_wang/sage.py:251-270 | at least 60; max(60, floor(count*60/cpm)) for non-negative counts |
| Sage.ReadingTimeMonotone | src/ken_wang/sage.py:266-270 | never decreases as the count grows |
| Text.Words | src/core/models.py:34 | `split()`: the maximal whitespace-free runs |
| Text.NoWordsIffBlank | src/core/models.py:34 | no words exactly for blank text |
| Text.Strip | src/utils/data_io.py:17 | `strip()`: a slice surrounded by blanks, no whitespace at its ends |
| Text.StripEmptyIffBlank | src/utils/data_io.py:17-19 | the stripped line is empty iff the line is blank |
| Text.FindAny | src/orator/orator.py:278-282 | `any(p in text ...)` is true iff some phrase occurs |
| Text.IntToString | src/utils/data_io.py:24 | `str(n)`: a minus sign iff negative |

## Left out

- SQL persistence is not part of this model. The archive is a class of maps and sequences:
  - prompts by version;
  - status strings;
  - iterations numbered from 1;
  - interactions in timestamp order;
  - metrics snapshots.

  Of the two `assign_interactions_to_iteration` definitions, the later one is modelled.
- Gatha storage, `update_interaction_feedback` and the metadata, ids and timestamps that `record_interaction` writes are not modelled.
- HTTP surfaces, the language-model client and its JSON post-processing are not modelled. The model's reply is a parameter (`Result<string, string>`).
- Randomness, language detection, threads, signals and the background job scheduler are not modelled. The job scheduler is reduced to a `running` flag: `Stop` fails when it is not running.
- `datetime.utcnow()` and ISO time stamps are parameters (`now`, `stamp`). History entries return the stored record rather than formatted fields.
- File reads are parameters:
  - the YAML document of `load_config`, with its value types kept generic and every section assumed to be a mapping (a `null` or scalar section, on which the loader fails with `AttributeError` or `TypeError`, cannot be represented);
  - the lines of `load_interactions`;
  - `json.loads`, a decoding function.

  `save_report`, `load_report` and `export_metrics_json` are left out (file I/O).
- Floating point is not modelled. Ratios, deltas and the reading time are exact rationals:
  - `round()` is exact round-half-to-even on the real value;
  - float truncation quirks are not captured.
- `render_prompt` is an opaque function given to the trainer. Its `:.2f` text is not modelled.
- Console and log output (`print` and `logging` calls: the safety controller's freeze, kill and rollback messages, the scheduler's cycle logs, the trainer's progress lines, and the messages of the gatha generator, the sage and the command-line split) is not modelled; no returned value or stored state depends on it.
- `str()` of a float, list or dict is not modelled: `JsonData.StrOf` reports it as unmodelled. The same holds for `int()` of a string and for report fields of other JSON types.
- The health check's issue texts with `:.3f` numbers are an `Issue` datatype carrying the value, not the formatted string.
- `lower()` is modelled for what an ASCII phrase can match: A-Z and the Kelvin sign. Other characters are kept as they are.
- `SafetyController` without thresholds loads them from the configuration file. The model always takes them as a constructor argument.
- Archive.ResonanceArchive.SavePrompt: requires a new version number, since the database's unique version column would reject a duplicate.
- Scheduler.IterationScheduler.constructor: requires the trainer to share the scheduler's archive, as the application wires them; the `config is None` guard is in `Scheduler.NewIterationScheduler`.
- Sage.EstimateReadingTime: computes `int(c / cpm * 60)` as exact integer truncation of `c*60/cpm`; float rounding of the intermediate quotient is not modelled.
- The language-model paths of `write_article`, `generate_questions` and the moderator are not modelled. Only the length-settings lookup and the reading time of `write_article` are.
