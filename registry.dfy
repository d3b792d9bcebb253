/**
 * The in-memory prompt registry: an append-only history of snapshots whose last element is
 * the live one, with a one-step rollback that discards the newest snapshot.
 */
module Registry {
  import opened Wrappers
  import opened Models

  /** The snapshot `latest` returns for a history, or the `RuntimeError` it raises. */
  function LatestOf(snapshots: seq<PromptSnapshot>): (r: Result<PromptSnapshot, Exception>)
    ensures r.Err? <==> snapshots == []
    ensures r.Err? ==> r.error.RuntimeError?
    ensures r.Ok? ==> r.value in snapshots
  {
    if snapshots == [] then Err(RuntimeError("Prompt registry is empty."))
    else Ok(snapshots[|snapshots| - 1])
  }

  /** What `rollback` leaves and returns for a history: the history without its last snapshot
      and the new last one, or the `RuntimeError` it raises when there is no earlier snapshot. */
  function RollbackOf(snapshots: seq<PromptSnapshot>): (r: Result<(seq<PromptSnapshot>, PromptSnapshot), Exception>)
    ensures r.Err? <==> |snapshots| < 2
    ensures r.Err? ==> r.error.RuntimeError?
    ensures r.Ok? ==> r.value.0 + [snapshots[|snapshots| - 1]] == snapshots
    ensures r.Ok? ==> LatestOf(r.value.0) == Ok(r.value.1)
  {
    if |snapshots| < 2 then Err(RuntimeError("No previous snapshot to rollback to."))
    else
      var rest := snapshots[..|snapshots| - 1];
      Ok((rest, rest[|rest| - 1]))
  }

  /** The newest appended snapshot is the live one. */
  lemma LatestAfterAppend(snapshots: seq<PromptSnapshot>, s: PromptSnapshot)
    ensures LatestOf(snapshots + [s]) == Ok(s)
  {
  }

  /** Rolling back undoes an append onto a non-empty history and returns the snapshot that was
      live before it. */
  lemma RollbackUndoesAppend(snapshots: seq<PromptSnapshot>, s: PromptSnapshot)
    requires snapshots != []
    ensures RollbackOf(snapshots + [s]) == Ok((snapshots, snapshots[|snapshots| - 1]))
  {
    assert (snapshots + [s])[..|snapshots|] == snapshots;
  }

  /** `PromptRegistry`: the list of snapshots, updated in place. */
  class PromptRegistry {
    var snapshots: seq<PromptSnapshot>

    constructor(snapshots: seq<PromptSnapshot>)
      ensures this.snapshots == snapshots
    {
      this.snapshots := snapshots;
    }

    /** `latest`: the last snapshot, or `RuntimeError` when there is none. */
    method Latest() returns (r: Result<PromptSnapshot, Exception>)
      ensures r == LatestOf(snapshots)
    {
      if |snapshots| == 0 {
        return Err(RuntimeError("Prompt registry is empty."));
      }
      return Ok(snapshots[|snapshots| - 1]);
    }

    /** `append`: adds a snapshot at the end, leaving the earlier ones as they were. */
    method Append(snapshot: PromptSnapshot)
      modifies this
      ensures snapshots == old(snapshots) + [snapshot]
      ensures LatestOf(snapshots) == Ok(snapshot)
    {
      snapshots := snapshots + [snapshot];
    }

    /** `rollback`: with fewer than two snapshots raises and changes nothing; otherwise pops the
        last snapshot and returns the new last one. */
    method Rollback() returns (r: Result<PromptSnapshot, Exception>)
      modifies this
      ensures RollbackOf(old(snapshots)).Err? ==> r.Err? && r.error.RuntimeError? && snapshots == old(snapshots)
      ensures RollbackOf(old(snapshots)).Ok? ==>
                r == Ok(RollbackOf(old(snapshots)).value.1) && snapshots == RollbackOf(old(snapshots)).value.0
    {
      if |snapshots| < 2 {
        return Err(RuntimeError("No previous snapshot to rollback to."));
      }
      snapshots := snapshots[..|snapshots| - 1];
      r := Latest();
    }
  }
}
