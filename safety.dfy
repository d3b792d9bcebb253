/**
 * The safety interlocks: the freeze flag that pauses evolution, rollback to an older prompt
 * version (saved as a new version), the kill flag, and the automatic kill trip-wire.
 */
module Safety {
  import opened Wrappers
  import opened Text
  import opened Models
  import opened Archive

  /** The five kill thresholds (the two run lengths are integers). */
  datatype SafetyThresholds = SafetyThresholds(
    killConsecutiveCollapsing: int,
    killConsecutiveMute: int,
    killMinRr: real,
    killMaxRd: real,
    killMaxSci: real)

  /** Length of the run of `target` at the end of `states`. */
  function TrailingRun(states: seq<SystemState>, target: SystemState): (n: nat)
    ensures n <= |states|
    ensures forall i :: |states| - n <= i < |states| ==> states[i] == target
    ensures n < |states| ==> states[|states| - 1 - n] != target
  {
    if states == [] || states[|states| - 1] != target then 0
    else 1 + TrailingRun(states[..|states| - 1], target)
  }

  /** Two worked cases: a run of four at the end, and a run of two after an interruption. */
  lemma TrailingRunExamples()
    ensures TrailingRun([Stable, Collapsing, Collapsing, Collapsing, Collapsing], Collapsing) == 4
    ensures TrailingRun([Collapsing, Collapsing, Stable, Collapsing, Collapsing], Collapsing) == 2
  {
    assert TrailingRun([Stable], Collapsing) == 0;
    assert TrailingRun([Stable, Collapsing], Collapsing) == 1 by {
      assert [Stable, Collapsing][..1] == [Stable];
    }
    assert TrailingRun([Stable, Collapsing, Collapsing], Collapsing) == 2 by {
      assert [Stable, Collapsing, Collapsing][..2] == [Stable, Collapsing];
    }
    assert TrailingRun([Stable, Collapsing, Collapsing, Collapsing], Collapsing) == 3 by {
      assert [Stable, Collapsing, Collapsing, Collapsing][..3] == [Stable, Collapsing, Collapsing];
    }
    assert [Stable, Collapsing, Collapsing, Collapsing, Collapsing][..4] == [Stable, Collapsing, Collapsing, Collapsing];
    assert TrailingRun([Collapsing, Collapsing, Stable], Collapsing) == 0;
    assert TrailingRun([Collapsing, Collapsing, Stable, Collapsing], Collapsing) == 1 by {
      assert [Collapsing, Collapsing, Stable, Collapsing][..3] == [Collapsing, Collapsing, Stable];
    }
    assert [Collapsing, Collapsing, Stable, Collapsing, Collapsing][..4] == [Collapsing, Collapsing, Stable, Collapsing];
  }

  /** `_count_consecutive_state`: walks the states from the end and stops at the first mismatch. */
  method CountConsecutiveState(states: seq<SystemState>, target: SystemState) returns (count: nat)
    ensures count == TrailingRun(states, target)
  {
    count := 0;
    var i := |states|;
    while i > 0
      invariant 0 <= i <= |states|
      invariant count == |states| - i
      invariant forall k :: i <= k < |states| ==> states[k] == target
      decreases i
    {
      if states[i - 1] == target {
        count := count + 1;
        i := i - 1;
      } else {
        break;
      }
    }
    TrailingRunUnique(states, target, count);
  }

  /** A suffix of `target`s that cannot be extended is the trailing run. */
  lemma {:induction false} TrailingRunUnique(states: seq<SystemState>, target: SystemState, n: nat)
    requires n <= |states|
    requires forall k :: |states| - n <= k < |states| ==> states[k] == target
    requires n < |states| ==> states[|states| - 1 - n] != target
    ensures TrailingRun(states, target) == n
    decreases n
  {
    if n > 0 {
      var init := states[..|states| - 1];
      assert forall k :: |init| - (n - 1) <= k < |init| ==> init[k] == states[k];
      TrailingRunUnique(init, target, n - 1);
    }
  }

  /** The trailing run reaches `n` exactly when the last `n` states are all `target`. */
  lemma RunReachesIff(states: seq<SystemState>, target: SystemState, n: int)
    ensures TrailingRun(states, target) >= n <==> EndsWithRun(states, target, n)
  {
    var t := TrailingRun(states, target);
    if t < n <= |states| {
      // The state just before the run breaks it, and lies among the last `n`.
      assert states[|states| - 1 - t] != target;
    }
  }

  /** The parseable states of iterations `lo + 1 .. hi` (1-based ids), in id order. */
  function ParsedStates(iterations: seq<IterationRecord>, lo: nat, hi: nat): (states: seq<SystemState>)
    requires lo <= hi <= |iterations|
    ensures |states| <= hi - lo
    decreases hi
  {
    if hi == lo then []
    else
      var init := ParsedStates(iterations, lo, hi - 1);
      match ParseSystemState(iterations[hi - 1].state)
      case Some(st) => init + [st]
      case None => init
  }

  /** First id of the window of the last `n` iterations: `max(1, count - n + 1)`. */
  function RecentFrom(count: nat, n: int): int {
    if count - n + 1 > 1 then count - n + 1 else 1
  }

  /** `_get_recent_states`: the parseable states of iterations `max(1, count - n + 1) .. count`. */
  function RecentStates(iterations: seq<IterationRecord>, n: int): (states: seq<SystemState>)
    ensures n >= 0 ==> |states| <= n
  {
    var first := RecentFrom(|iterations|, n);
    if first > |iterations| then [] else ParsedStates(iterations, first - 1, |iterations|)
  }

  /** Every state reported comes from a parseable iteration in the window. */
  lemma {:induction false} ParsedStatesSound(iterations: seq<IterationRecord>, lo: nat, hi: nat, st: SystemState)
    requires lo <= hi <= |iterations|
    requires st in ParsedStates(iterations, lo, hi)
    ensures exists k :: lo <= k < hi && ParseSystemState(iterations[k].state) == Some(st)
    decreases hi
  {
    var init := ParsedStates(iterations, lo, hi - 1);
    if st in init {
      ParsedStatesSound(iterations, lo, hi - 1, st);
    } else {
      assert ParseSystemState(iterations[hi - 1].state) == Some(st);
    }
  }

  /** Every parseable iteration in the window has its state reported. */
  lemma {:induction false} ParsedStatesComplete(iterations: seq<IterationRecord>, lo: nat, hi: nat, k: nat)
    requires lo <= k < hi <= |iterations|
    requires ParseSystemState(iterations[k].state).Some?
    ensures ParseSystemState(iterations[k].state).value in ParsedStates(iterations, lo, hi)
    decreases hi
  {
    if k < hi - 1 {
      ParsedStatesComplete(iterations, lo, hi - 1, k);
    }
  }

  /** The automatic kill condition: an extreme metric, a DEAD state, or too long a trailing run
      of COLLAPSING or MUTE among the recent states. */
  /** The last `n` states are all `target` (trivially so when `n <= 0`). */
  predicate EndsWithRun(states: seq<SystemState>, target: SystemState, n: int) {
    n <= |states| && forall i :: |states| - n <= i < |states| ==> states[i] == target
  }

  predicate KillCondition(th: SafetyThresholds, state: SystemState, m: IterationMetrics, recent: seq<SystemState>): (kill: bool)
    ensures kill <==>
      m.resonanceRatio <= th.killMinRr || m.rejectionDensity >= th.killMaxRd || m.semanticCollapseIndex >= th.killMaxSci
      || state == Dead
      || EndsWithRun(recent, Collapsing, th.killConsecutiveCollapsing)
      || EndsWithRun(recent, Mute, th.killConsecutiveMute)
  {
    RunReachesIff(recent, Collapsing, th.killConsecutiveCollapsing);
    RunReachesIff(recent, Mute, th.killConsecutiveMute);
    m.resonanceRatio <= th.killMinRr
    || m.rejectionDensity >= th.killMaxRd
    || m.semanticCollapseIndex >= th.killMaxSci
    || state == Dead
    || TrailingRun(recent, Collapsing) >= th.killConsecutiveCollapsing
    || TrailingRun(recent, Mute) >= th.killConsecutiveMute
  }

  /** The version `rollback` restores, or the error it raises: the given version, or else the
      second largest; it must exist and be older than the newest. */
  function RollbackTarget(versions: set<int>, target: Option<int>): (r: Result<int, Exception>)
    ensures r.Ok? <==> versions != {} && (target.None? ==> |versions| >= 2)
                       && (target.Some? ==> target.value in versions && target.value < MaxOf(versions))
    ensures r.Ok? ==> r.value in versions && r.value < MaxOf(versions)
    ensures r.Ok? && target.Some? ==> r.value == target.value
    ensures r.Ok? && target.None? ==> forall v :: v in versions && v != MaxOf(versions) ==> v <= r.value
    ensures versions == {} ==> r.Err? && r.error.RuntimeError?
    ensures versions != {} && target.None? && |versions| < 2 ==> r.Err? && r.error.RuntimeError?
    ensures versions != {} && target.Some? && r.Err? ==> r.error.ValueError?
  {
    if versions == {} then Err(RuntimeError("No prompt versions available for rollback"))
    else
      var current := MaxOf(versions);
      if target.None? && |versions| < 2 then Err(RuntimeError("No previous version to rollback to"))
      else
        var t := if target.Some? then target.value else SecondLargest(versions);
        if t !in versions then Err(ValueError("Target version " + IntToString(t) + " does not exist"))
        else if t >= current then
          Err(ValueError("Cannot rollback to version " + IntToString(t) + " (current: " + IntToString(current) + ")"))
        else Ok(t)
  }

  /** `sorted(versions)[-2]`. */
  function SecondLargest(versions: set<int>): (v: int)
    requires |versions| >= 2
    ensures v in versions && v < MaxOf(versions)
    ensures forall u :: u in versions && u != MaxOf(versions) ==> u <= v
  {
    var rest := versions - {MaxOf(versions)};
    assert |rest| == |versions| - 1;
    assert forall u :: u in versions && u != MaxOf(versions) ==> u in rest;
    MaxOf(rest)
  }

  /** `SafetyController`: the interlocks over one archive. */
  class SafetyController {
    const archive: ResonanceArchive
    const thresholds: SafetyThresholds

    constructor(archive: ResonanceArchive, thresholds: SafetyThresholds)
      ensures this.archive == archive && this.thresholds == thresholds
    {
      this.archive := archive;
      this.thresholds := thresholds;
    }

    /** `freeze`: "frozen" := "true" and the time it happened. */
    method Freeze(stamp: string)
      modifies archive
      ensures archive.status == old(archive.status)["frozen" := "true"]["frozen_at" := stamp]
      ensures archive.prompts == old(archive.prompts) && archive.iterations == old(archive.iterations)
      ensures archive.records == old(archive.records) && archive.snapshots == old(archive.snapshots)
      ensures archive.IsFrozen()
      ensures archive.IsKilled() == old(archive.IsKilled())
    {
      archive.SetStatus("frozen", "true");
      archive.SetStatus("frozen_at", stamp);
    }

    /** `unfreeze`: "frozen" := "false". */
    method Unfreeze()
      modifies archive
      ensures archive.status == old(archive.status)["frozen" := "false"]
      ensures archive.prompts == old(archive.prompts) && archive.iterations == old(archive.iterations)
      ensures archive.records == old(archive.records) && archive.snapshots == old(archive.snapshots)
      ensures !archive.IsFrozen()
      ensures archive.IsKilled() == old(archive.IsKilled())
    {
      archive.SetStatus("frozen", "false");
    }

    /** `is_frozen`. */
    method IsFrozen() returns (frozen: bool)
      ensures frozen <==> "frozen" in archive.status && archive.status["frozen"] == "true"
    {
      frozen := archive.IsFrozen();
    }

    /** `kill`: "killed" := "true" and the time it happened. */
    method Kill(stamp: string)
      modifies archive
      ensures archive.status == old(archive.status)["killed" := "true"]["killed_at" := stamp]
      ensures archive.prompts == old(archive.prompts) && archive.iterations == old(archive.iterations)
      ensures archive.records == old(archive.records) && archive.snapshots == old(archive.snapshots)
      ensures archive.IsKilled()
    {
      archive.SetStatus("killed", "true");
      archive.SetStatus("killed_at", stamp);
    }

    /** `is_killed`. */
    method IsKilled() returns (killed: bool)
      ensures killed <==> "killed" in archive.status && archive.status["killed"] == "true"
    {
      killed := archive.IsKilled();
    }

    /** `rollback`: on an error nothing is written; otherwise the target's text and policy are
        saved as version `max + 1` with the single action "rollback_to_v<target>", the rollback
        is recorded in the status table, and the new version is returned. */
    method Rollback(target: Option<int>, stamp: string) returns (r: Result<int, Exception>)
      modifies archive
      ensures var chosen := RollbackTarget(old(archive.prompts).Keys, target);
        (chosen.Err? ==> (r == Err(chosen.error)
           && archive.prompts == old(archive.prompts) && archive.status == old(archive.status)))
        && (chosen.Ok? ==> (
             var current := MaxOf(old(archive.prompts).Keys);
             var t := chosen.value;
             r == Ok(current + 1)
             && archive.prompts == old(archive.prompts)[current + 1 := PromptRecord(
                  old(archive.prompts)[t].promptText, old(archive.prompts)[t].policy,
                  ["rollback_to_v" + IntToString(t)])]
             && archive.status == old(archive.status)["last_rollback" := stamp]
                  ["rollback_from" := IntToString(current)]["rollback_to" := IntToString(t)]))
      ensures archive.iterations == old(archive.iterations)
      ensures archive.records == old(archive.records) && archive.snapshots == old(archive.snapshots)
      ensures archive.IsKilled() == old(archive.IsKilled())
    {
      var versions := archive.prompts.Keys;
      var chosen := RollbackTarget(versions, target);
      if chosen.Err? {
        return Err(chosen.error);
      }
      var current := MaxOf(versions);
      var t := chosen.value;
      var targetPrompt := archive.prompts[t];
      var newVersion := current + 1;
      archive.SavePrompt(newVersion, targetPrompt.promptText, targetPrompt.policy,
                         Some(["rollback_to_v" + IntToString(t)]));
      archive.SetStatus("last_rollback", stamp);
      archive.SetStatus("rollback_from", IntToString(current));
      archive.SetStatus("rollback_to", IntToString(t));
      return Ok(newVersion);
    }

    /** `_get_recent_states`: reads iterations `max(1, count - n + 1) .. count` and keeps the
        states that parse. */
    method GetRecentStates(n: int) returns (states: seq<SystemState>)
      ensures states == RecentStates(archive.iterations, n)
    {
      states := [];
      var count := archive.IterationCount();
      var lo := RecentFrom(count, n);
      var i := lo;
      while i <= count
        invariant lo <= i && (lo <= count + 1 ==> i <= count + 1)
        invariant lo <= count + 1 ==> states == ParsedStates(archive.iterations, lo - 1, i - 1)
        invariant lo > count ==> states == []
      {
        var iteration := archive.GetIteration(i);
        if iteration.Some? {
          var parsed := ParseSystemState(iteration.value.state);
          if parsed.Some? {
            states := states + [parsed.value];
          }
        }
        i := i + 1;
      }
    }

    /** `should_kill`: true exactly when the kill condition holds for the current state and
        metrics and the states of the last five iterations. */
    method ShouldKill(currentState: SystemState, currentMetrics: IterationMetrics) returns (kill: bool)
      ensures kill <==> KillCondition(thresholds, currentState, currentMetrics, RecentStates(archive.iterations, 5))
    {
      if currentMetrics.resonanceRatio <= thresholds.killMinRr {
        return true;
      }
      if currentMetrics.rejectionDensity >= thresholds.killMaxRd {
        return true;
      }
      if currentMetrics.semanticCollapseIndex >= thresholds.killMaxSci {
        return true;
      }
      if currentState == Dead {
        return true;
      }
      var recent := GetRecentStates(5);
      var collapsing := CountConsecutiveState(recent, Collapsing);
      if collapsing >= thresholds.killConsecutiveCollapsing {
        return true;
      }
      var mute := CountConsecutiveState(recent, Mute);
      if mute >= thresholds.killConsecutiveMute {
        return true;
      }
      return false;
    }
  }
}
