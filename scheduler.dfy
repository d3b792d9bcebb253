/**
 * The iteration scheduler: when enough interactions are waiting, it opens an iteration, hands
 * the waiting interactions to it, lets the trainer run the cycle, records the outcome and trips
 * the kill switch when the safety conditions say so.
 */
module Scheduler {
  import opened Wrappers
  import opened Models
  import opened Metrics
  import opened Archive
  import opened State
  import opened Safety
  import opened Trainer

  /** `IterationConfig`. */
  datatype IterationConfig = IterationConfig(timeWindowHours: int, minInteractions: int, checkIntervalMinutes: int)

  /** `get_current_prompt_version`: the latest stored version, or 0 when there is none. */
  function CurrentPromptVersion(prompts: map<int, PromptRecord>): (v: int)
    ensures prompts == map[] ==> v == 0
    ensures prompts != map[] ==> v in prompts && forall k :: k in prompts ==> k <= v
  {
    if prompts == map[] then 0
    else
      assert prompts.Keys != {} by {
        if forall y :: y !in prompts.Keys { assert false; }
      }
      MaxOf(prompts.Keys)
  }

  /** The record of an iteration whose cycle succeeded. */
  function CompletedIteration(start: int, version: int, now: int, result: TrainerIterationResult): IterationRecord {
    IterationRecord(start, Some(now), result.metrics.totalResponses, result.state.Value(),
                    result.metrics.ToDict(), version)
  }

  /** The record of an iteration whose cycle raised: state "dead", no metrics, the batch size. */
  function FailedIteration(start: int, version: int, now: int, size: nat): IterationRecord {
    IterationRecord(start, Some(now), size, "dead", map[], version)
  }

  /** The rows listed by `ids`, in row order. */
  function RowsWithIds(rows: seq<StoredInteraction>, ids: seq<int>): (out: seq<StoredInteraction>)
    ensures |out| <= |rows|
    ensures forall r :: r in out <==> r in rows && r.id in ids
  {
    if rows == [] then []
    else
      var init := RowsWithIds(rows[..|rows| - 1], ids);
      var last := rows[|rows| - 1];
      if last.id in ids then init + [last] else init
  }

  /** Assigning the listed rows to a fresh iteration makes them exactly that iteration's rows. */
  lemma {:induction false} AssignedRowsOfIteration(rows: seq<StoredInteraction>, ids: seq<int>, id: int)
    requires forall i :: 0 <= i < |rows| ==> rows[i].iterationId != Some(id)
    ensures RowsOfIteration(AssignRows(rows, ids, id), id) == InteractionsOf(RowsWithIds(rows, ids))
  {
    if rows != [] {
      var init := rows[..|rows| - 1];
      assert AssignRows(rows, ids, id)[..|rows| - 1] == AssignRows(init, ids, id);
      AssignedRowsOfIteration(init, ids, id);
    }
  }

  /** When the listed ids are exactly those of the unassigned rows, the listed rows are the
      unassigned rows. */
  lemma {:induction false} ListedAreUnassigned(rows: seq<StoredInteraction>, ids: seq<int>)
    requires forall i :: 0 <= i < |rows| ==> (rows[i].id in ids <==> rows[i].iterationId.None?)
    ensures RowsWithIds(rows, ids) == UnassignedRows(rows)
  {
    if rows != [] {
      ListedAreUnassigned(rows[..|rows| - 1], ids);
    }
  }

  /** With distinct row ids, a row's id is among the unassigned rows' ids exactly when the row
      itself is unassigned. */
  lemma UnassignedIdExact(rows: seq<StoredInteraction>, i: nat)
    requires forall i, j :: 0 <= i < j < |rows| ==> rows[i].id != rows[j].id
    requires i < |rows|
    ensures rows[i].id in IdsOf(UnassignedRows(rows)) <==> rows[i].iterationId.None?
  {
    var batch := UnassignedRows(rows);
    var ids := IdsOf(batch);
    if rows[i].iterationId.None? {
      assert rows[i] in batch;
      var k :| 0 <= k < |batch| && batch[k] == rows[i];
      assert ids[k] == rows[i].id;
    }
    if rows[i].id in ids {
      var k :| 0 <= k < |ids| && ids[k] == rows[i].id;
      var j :| 0 <= j < |rows| && rows[j] == batch[k];
      assert rows[j].id == rows[i].id;
    }
  }

  /** With distinct row ids, the ids of the unassigned rows pick out exactly those rows. */
  lemma UnassignedIdsPickUnassigned(rows: seq<StoredInteraction>)
    requires forall i, j :: 0 <= i < j < |rows| ==> rows[i].id != rows[j].id
    ensures RowsWithIds(rows, IdsOf(UnassignedRows(rows))) == UnassignedRows(rows)
  {
    var ids := IdsOf(UnassignedRows(rows));
    forall i | 0 <= i < |rows| ensures rows[i].id in ids <==> rows[i].iterationId.None? {
      UnassignedIdExact(rows, i);
    }
    ListedAreUnassigned(rows, ids);
  }

  /** In the scheduler's flow the trainer's "previous iteration" is the iteration just opened, so
      its previous batch is the very batch being processed: when the time window holds just that
      batch, the drift is always 1.0 and the collapse index always 0.0. */
  lemma BatchIsItsOwnPrevious(rows: seq<StoredInteraction>, id: int, th: StateThresholds)
    requires forall i, j :: 0 <= i < j < |rows| ==> rows[i].id != rows[j].id
    requires forall i :: 0 <= i < |rows| ==> rows[i].iterationId != Some(id)
    requires id > 0
    ensures var owned := AssignRows(rows, IdsOf(UnassignedRows(rows)), id);
      PreviousBatch(owned, id) == InteractionsOf(UnassignedRows(rows))
    ensures var batch := InteractionsOf(UnassignedRows(rows));
      batch != [] ==> (
        var (metrics, _) := IterationMetricsAndState(batch, batch, th);
        metrics.responseLengthDrift == 1.0 && metrics.semanticCollapseIndex == 0.0)
  {
    AssignedRowsOfIteration(rows, IdsOf(UnassignedRows(rows)), id);
    UnassignedIdsPickUnassigned(rows);
    var batch := InteractionsOf(UnassignedRows(rows));
    if batch != [] {
      SelfComparison(batch, DefaultWindow);
    }
  }

  /** A snapshot of the archive's tables as values. */
  datatype ArchiveTables = ArchiveTables(
    records: seq<StoredInteraction>,
    iterations: seq<IterationRecord>,
    prompts: map<int, PromptRecord>,
    status: map<string, string>,
    snapshots: seq<(int, IterationMetrics)>)

  function Tables(archive: ResonanceArchive): ArchiveTables
    reads archive
  {
    ArchiveTables(archive.records, archive.iterations, archive.prompts, archive.status, archive.snapshots)
  }

  /** `IterationScheduler(...)` with the configuration possibly absent: a missing configuration
      raises `ValueError` and builds nothing; otherwise a stopped scheduler over the given parts. */
  method NewIterationScheduler(trainer: ZenAiTrainer, archive: ResonanceArchive, config: Option<IterationConfig>,
                               safetyThresholds: SafetyThresholds)
    returns (r: Result<IterationScheduler, Exception>)
    requires trainer.archive == archive
    ensures r.Err? <==> config.None?
    ensures r.Err? ==> r.error == ValueError("IterationConfig is required. All configuration must be explicitly provided.")
    ensures r.Ok? ==> fresh(r.value) && r.value.Valid() && !r.value.running
                      && r.value.trainer == trainer && r.value.archive == archive
                      && r.value.config == config.value && r.value.safetyThresholds == safetyThresholds
  {
    if config.None? {
      return Err(ValueError("IterationConfig is required. All configuration must be explicitly provided."));
    }
    var scheduler := new IterationScheduler(trainer, archive, config.value, safetyThresholds);
    return Ok(scheduler);
  }

  /** `IterationScheduler`: coordinates the trainer over one archive. `running` stands for the
      background job scheduler's state. */
  class IterationScheduler {
    const trainer: ZenAiTrainer
    const archive: ResonanceArchive
    const config: IterationConfig
    const safetyThresholds: SafetyThresholds
    var running: bool

    /** The trainer works on the scheduler's archive. */
    predicate Valid() {
      trainer.archive == archive
    }

    constructor(trainer: ZenAiTrainer, archive: ResonanceArchive, config: IterationConfig, safetyThresholds: SafetyThresholds)
      requires trainer.archive == archive
      ensures Valid() && !running
      ensures this.trainer == trainer && this.archive == archive
      ensures this.config == config && this.safetyThresholds == safetyThresholds
    {
      this.trainer := trainer;
      this.archive := archive;
      this.config := config;
      this.safetyThresholds := safetyThresholds;
      running := false;
    }

    /** `should_trigger_iteration`: enough interactions wait for an iteration. */
    method ShouldTriggerIteration() returns (trigger: bool)
      ensures trigger <==> |UnassignedRows(archive.records)| >= config.minInteractions
    {
      var unassigned := UnassignedRows(archive.records);
      trigger := |unassigned| >= config.minInteractions;
    }

    /** `stop`: shutting down a scheduler that is not running raises. */
    method Stop() returns (r: Result<(), Exception>)
      modifies this
      ensures !running
      ensures r.Err? <==> !old(running)
      ensures r.Err? ==> r.error.SchedulerNotRunningError?
    {
      if !running {
        return Err(SchedulerNotRunningError("Scheduler is not running"));
      }
      running := false;
      return Ok(());
    }

    /** `run_iteration_cycle`. A killed system only stops the scheduler (and raises if it is not
        running). Otherwise, with no waiting interactions nothing happens; with some, a new
        iteration is opened and given them, the trainer runs over their time span, and the
        iteration is completed with the trainer's state and metrics, or as "dead" with no metrics
        when the trainer raises. After a success the kill conditions are checked on the recent
        states; if they hold the system is killed and the scheduler stopped, and a failure to
        stop marks the iteration "dead" as well. */
    method RunIterationCycle(now: int, stamp: string) returns (r: Result<(), Exception>)
      requires Valid()
      modifies this, archive
      ensures old(archive.IsKilled()) ==>
        unchanged(archive) && !running && (r.Err? <==> !old(running))
      ensures !old(archive.IsKilled()) ==> r.Ok?
      ensures !old(archive.IsKilled()) && UnassignedRows(old(archive.records)) == [] ==>
        unchanged(archive) && running == old(running)
      ensures !old(archive.IsKilled()) && UnassignedRows(old(archive.records)) != [] ==>
        BatchEffect(old(archive.records), old(archive.iterations), old(archive.prompts), old(archive.status),
                    old(archive.snapshots), old(archive.IsFrozen()), old(running), now, stamp,
                    Tables(archive), running)
    ensures CycleOutcome(old(Tables(archive)), old(archive.IsKilled()), old(archive.IsFrozen()), old(running),
                         now, stamp, Tables(archive), running, r)
    {
      var killed := archive.IsKilled();
      if killed {
        r := Stop();
        return;
      }
      var batch := UnassignedRows(archive.records);
      if batch == [] {
        return Ok(());
      }
      ProcessBatch(now, stamp);
      return Ok(());
    }

    /** What one `run_iteration_cycle` leaves behind, from the tables `before`, the killed and
        frozen flags and the running flag before it: a killed system only stops the scheduler; no
        waiting interaction changes nothing; otherwise the batch is processed. */
    ghost predicate CycleOutcome(before: ArchiveTables, killed: bool, frozen: bool, wasRunning: bool,
                                 now: int, stamp: string, after: ArchiveTables, isRunning: bool,
                                 r: Result<(), Exception>)
    {
      (killed ==> after == before && !isRunning && (r.Err? <==> !wasRunning))
      && (!killed ==> r.Ok?)
      && (!killed && UnassignedRows(before.records) == [] ==> after == before && isRunning == wasRunning)
      && (!killed && UnassignedRows(before.records) != [] ==>
            BatchEffect(before.records, before.iterations, before.prompts, before.status, before.snapshots,
                        frozen, wasRunning, now, stamp, after, isRunning))
    }

    /** What processing a non-empty batch leaves behind, given the archive's tables and the
        scheduler's running flag before it. */
    ghost predicate BatchEffect(records: seq<StoredInteraction>, iterations: seq<IterationRecord>,
                                prompts: map<int, PromptRecord>, status: map<string, string>,
                                snapshots: seq<(int, IterationMetrics)>, frozen: bool, wasRunning: bool,
                                now: int, stamp: string, after: ArchiveTables, isRunning: bool)
      requires UnassignedRows(records) != []
    {
      var batch := UnassignedRows(records);
      var id := |iterations| + 1;
      var start := batch[0].timestamp;
      var version := CurrentPromptVersion(prompts);
      var owned := AssignRows(records, IdsOf(batch), id);
      var e := CycleOf(owned, id, prompts, frozen, id, start, batch[|batch| - 1].timestamp,
                       trainer.thresholds, trainer.rules, trainer.render);
      after.records == owned
      && after.snapshots == snapshots + (if e.snapshot.Some? then [e.snapshot.value] else [])
      && after.prompts == (if e.saved.Some? then prompts[e.saved.value.0 := e.saved.value.1] else prompts)
      && FinishEffect(iterations, status, wasRunning, start, version, now, stamp, |batch|, e.result,
                      after.iterations, after.status, isRunning)
    }

    /** What completing an iteration leaves behind: the failed record after an error; after a
        success the completed record, and a kill when the kill conditions hold. */
    ghost predicate FinishEffect(iterations: seq<IterationRecord>, status: map<string, string>, wasRunning: bool,
                                 start: int, version: int, now: int, stamp: string, size: nat,
                                 result: Result<TrainerIterationResult, Exception>,
                                 iterations': seq<IterationRecord>, status': map<string, string>, running': bool)
    {
      (result.Err? ==>
         iterations' == iterations + [FailedIteration(start, version, now, size)]
         && status' == status && running' == wasRunning)
      && (result.Ok? ==>
         var completed := CompletedIteration(start, version, now, result.value);
         var kill := KillCondition(safetyThresholds, result.value.state, result.value.metrics,
                                   RecentStates(iterations + [completed], 5));
         (kill ==> status' == status["killed" := "true"]["killed_at" := stamp]
                   && !running'
                   && iterations' == iterations
                        + [if wasRunning then completed else FailedIteration(start, version, now, size)])
         && (!kill ==> status' == status && running' == wasRunning
                       && iterations' == iterations + [completed]))
    }

    /** The body of `run_iteration_cycle` once a non-empty batch is waiting. */
    method ProcessBatch(now: int, stamp: string)
      requires Valid() && UnassignedRows(archive.records) != []
      modifies this, archive
      ensures BatchEffect(old(archive.records), old(archive.iterations), old(archive.prompts), old(archive.status),
                          old(archive.snapshots), old(archive.IsFrozen()), old(running), now, stamp,
                    Tables(archive), running)
    {
      var batch := UnassignedRows(archive.records);
      var ids := IdsOf(batch);
      var start := batch[0].timestamp;
      var end := batch[|batch| - 1].timestamp;
      var version := CurrentPromptVersion(archive.prompts);
      ghost var before := Tables(archive);
      ghost var frozen := archive.IsFrozen();
      var id := archive.CreateIteration(start, version);
      archive.AssignInteractions(ids, id);
      RunTrainerAndFinish(before, frozen, old(running), id, start, end, version, |batch|, now, stamp);
    }

    /** The trainer's cycle over the batch's time span, then the completion of the iteration. */
    method RunTrainerAndFinish(ghost before: ArchiveTables, ghost frozen: bool, ghost wasRunning: bool,
                               id: int, start: int, end: int, version: int, size: nat, now: int, stamp: string)
      requires Valid()
      requires UnassignedRows(before.records) != []
      requires var batch := UnassignedRows(before.records);
        size == |batch| && id == |before.iterations| + 1 && start == batch[0].timestamp && end == batch[|batch| - 1].timestamp
        && version == CurrentPromptVersion(before.prompts)
        && archive.iterations == before.iterations + [PendingIteration(start, version)]
        && archive.records == AssignRows(before.records, IdsOf(batch), id)
        && archive.prompts == before.prompts && archive.status == before.status
        && archive.snapshots == before.snapshots
        && frozen == archive.IsFrozen() && wasRunning == running
      modifies this, archive
      ensures BatchEffect(before.records, before.iterations, before.prompts, before.status, before.snapshots,
                          frozen, wasRunning, now, stamp, Tables(archive), running)
    {
      var result := trainer.RunIterationCycle(id, start, end);
      FinishIteration(before.iterations, id, start, version, now, stamp, size, result);
    }

    /** The rest of `run_iteration_cycle`: complete the open iteration (as "dead" after an error),
        then check the kill conditions. */
    method FinishIteration(ghost prior: seq<IterationRecord>, id: int, start: int, version: int,
                           now: int, stamp: string, size: nat, result: Result<TrainerIterationResult, Exception>)
      requires id == |prior| + 1 && archive.iterations == prior + [PendingIteration(start, version)]
      modifies this, archive
      ensures FinishEffect(prior, old(archive.status), old(running), start, version, now, stamp, size, result,
                           archive.iterations, archive.status, running)
      ensures archive.records == old(archive.records) && archive.snapshots == old(archive.snapshots)
      ensures archive.prompts == old(archive.prompts)
    {
      if result.Err? {
        archive.CompleteIteration(id, now, size, "dead", map[]);
        assert archive.iterations == prior + [FailedIteration(start, version, now, size)];
        return;
      }
      var outcome := result.value;
      archive.CompleteIteration(id, now, outcome.metrics.totalResponses, outcome.state.Value(), outcome.metrics.ToDict());
      ghost var completed := CompletedIteration(start, version, now, outcome);
      assert archive.iterations == prior + [completed];
      var safety := new SafetyController(archive, safetyThresholds);
      var kill := safety.ShouldKill(outcome.state, outcome.metrics);
      if kill {
        safety.Kill(stamp);
        var stopped := Stop();
        if stopped.Err? {
          archive.CompleteIteration(id, now, size, "dead", map[]);
          assert archive.iterations == prior + [FailedIteration(start, version, now, size)];
        }
      }
    }

    /** `_check_iteration_trigger`: runs a cycle when enough interactions wait. */
    method CheckIterationTrigger(now: int, stamp: string) returns (r: Result<(), Exception>)
      requires Valid()
      modifies this, archive
      ensures |UnassignedRows(old(archive.records))| < config.minInteractions ==>
        unchanged(archive) && running == old(running) && r.Ok?
      ensures |UnassignedRows(old(archive.records))| >= config.minInteractions ==>
        CycleOutcome(old(Tables(archive)), old(archive.IsKilled()), old(archive.IsFrozen()), old(running),
                     now, stamp, Tables(archive), running, r)
    {
      var trigger := ShouldTriggerIteration();
      if trigger {
        r := RunIterationCycle(now, stamp);
      } else {
        r := Ok(());
      }
    }

    /** `start`: a cycle runs first when enough interactions already wait (before the
        background scheduler starts), then the scheduler runs. */
    method Start(now: int, stamp: string) returns (r: Result<(), Exception>)
      requires Valid()
      modifies this, archive
      ensures r.Ok? ==> running
      ensures r.Err? ==> !running
      ensures |UnassignedRows(old(archive.records))| < config.minInteractions ==> unchanged(archive) && r.Ok?
      ensures |UnassignedRows(old(archive.records))| >= config.minInteractions ==>
        exists cycleRunning :: CycleOutcome(old(Tables(archive)), old(archive.IsKilled()), old(archive.IsFrozen()),
                                            old(running), now, stamp, Tables(archive), cycleRunning, r)
    {
      r := CheckIterationTrigger(now, stamp);
      ghost var cycleRunning := running;
      if r.Err? {
        return;
      }
      running := true;
      if |UnassignedRows(old(archive.records))| >= config.minInteractions {
        assert CycleOutcome(old(Tables(archive)), old(archive.IsKilled()), old(archive.IsFrozen()),
                            old(running), now, stamp, Tables(archive), cycleRunning, r);
      }
    }
  }
}
