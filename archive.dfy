/**
 * The resonance archive as the engine sees it: prompt versions, status flags, iteration
 * records, logged interactions and metrics snapshots. The tables are fields of a class; the
 * interaction table is a sequence kept in timestamp order, and iteration `k` (numbered from 1)
 * is element `k - 1` of the iteration sequence.
 */
module Archive {
  import opened Wrappers
  import opened Models

  /** One stored prompt version. */
  datatype PromptRecord = PromptRecord(promptText: string, policy: map<string, Num>, actions: seq<string>)

  /** One iteration session; `state` is a free string ("pending" until completed). */
  datatype IterationRecord = IterationRecord(
    startTime: int, endTime: Option<int>, totalInteractions: int, state: string,
    metrics: map<string, Num>, promptVersion: int)

  /** One logged interaction row with its id, owning iteration and timestamp. */
  datatype StoredInteraction = StoredInteraction(id: int, iterationId: Option<int>, timestamp: int, interaction: Interaction)

  /** A freshly created iteration: no end, no interactions, state "pending", no metrics. */
  function PendingIteration(startTime: int, promptVersion: int): IterationRecord {
    IterationRecord(startTime, None, 0, "pending", map[], promptVersion)
  }

  /** The interactions of some rows, in row order. */
  function InteractionsOf(rows: seq<StoredInteraction>): (xs: seq<Interaction>)
    ensures |xs| == |rows|
    ensures forall i :: 0 <= i < |rows| ==> xs[i] == rows[i].interaction
  {
    if rows == [] then [] else InteractionsOf(rows[..|rows| - 1]) + [rows[|rows| - 1].interaction]
  }

  /** Rows listed in non-decreasing timestamp order, as the archive returns them. */
  predicate Chronological(rows: seq<StoredInteraction>) {
    forall i, j :: 0 <= i < j < |rows| ==> rows[i].timestamp <= rows[j].timestamp
  }

  /** The rows no iteration owns yet, in timestamp order. */
  function UnassignedRows(rows: seq<StoredInteraction>): (u: seq<StoredInteraction>)
    ensures |u| <= |rows|
    ensures forall i :: 0 <= i < |u| ==> u[i].iterationId.None? && u[i] in rows
    ensures forall r :: r in rows && r.iterationId.None? ==> r in u
    ensures Chronological(rows) ==> Chronological(u)
  {
    if rows == [] then []
    else
      var init := UnassignedRows(rows[..|rows| - 1]);
      var last := rows[|rows| - 1];
      if last.iterationId.None? then init + [last] else init
  }

  /** `load_interactions_by_iteration`: the interactions owned by iteration `id`. */
  function RowsOfIteration(rows: seq<StoredInteraction>, id: int): (xs: seq<Interaction>)
    ensures |xs| <= |rows|
    ensures forall x :: x in xs <==>
              exists i :: 0 <= i < |rows| && rows[i].iterationId == Some(id) && rows[i].interaction == x
  {
    if rows == [] then []
    else
      var init := RowsOfIteration(rows[..|rows| - 1], id);
      var last := rows[|rows| - 1];
      if last.iterationId == Some(id) then init + [last.interaction] else init
  }

  /** `load_interactions_by_time_window`: the interactions stamped within `[start, end]`. */
  function RowsInWindow(rows: seq<StoredInteraction>, start: int, end: int): (xs: seq<Interaction>)
    ensures |xs| <= |rows|
    ensures forall x :: x in xs <==>
              exists i :: 0 <= i < |rows| && start <= rows[i].timestamp <= end && rows[i].interaction == x
  {
    if rows == [] then []
    else
      var init := RowsInWindow(rows[..|rows| - 1], start, end);
      var last := rows[|rows| - 1];
      if start <= last.timestamp <= end then init + [last.interaction] else init
  }

  /** The ids of some rows, in order. */
  function IdsOf(rows: seq<StoredInteraction>): (ids: seq<int>)
    ensures |ids| == |rows| && forall i :: 0 <= i < |rows| ==> ids[i] == rows[i].id
  {
    seq(|rows|, i requires 0 <= i < |rows| => rows[i].id)
  }

  /** `assign_interactions_to_iteration`: every row whose id is listed now belongs to the iteration;
      the other rows, and the order, are unchanged. */
  function AssignRows(rows: seq<StoredInteraction>, ids: seq<int>, iterationId: int): (out: seq<StoredInteraction>)
    ensures |out| == |rows|
    ensures forall i :: 0 <= i < |rows| ==>
      out[i] == if rows[i].id in ids then rows[i].(iterationId := Some(iterationId)) else rows[i]
  {
    seq(|rows|, i requires 0 <= i < |rows| =>
      if rows[i].id in ids then rows[i].(iterationId := Some(iterationId)) else rows[i])
  }

  /** Assigning all unassigned rows to an iteration leaves none unassigned. */
  lemma {:induction false} AssignAllUnassigned(rows: seq<StoredInteraction>, iterationId: int)
    ensures UnassignedRows(AssignRows(rows, IdsOf(UnassignedRows(rows)), iterationId)) == []
  {
    var out := AssignRows(rows, IdsOf(UnassignedRows(rows)), iterationId);
    forall i | 0 <= i < |out| ensures out[i].iterationId.Some? {
      if rows[i].iterationId.None? {
        assert rows[i] in UnassignedRows(rows);
        var k :| 0 <= k < |UnassignedRows(rows)| && UnassignedRows(rows)[k] == rows[i];
        assert IdsOf(UnassignedRows(rows))[k] == rows[i].id;
      }
    }
    NoUnassigned(out);
  }

  lemma {:induction false} NoUnassigned(rows: seq<StoredInteraction>)
    requires forall i :: 0 <= i < |rows| ==> rows[i].iterationId.Some?
    ensures UnassignedRows(rows) == []
  {
    if rows != [] {
      NoUnassigned(rows[..|rows| - 1]);
    }
  }

  /** The largest element of a non-empty set of versions. */
  function MaxOf(s: set<int>): (m: int)
    requires s != {}
    ensures m in s && forall v :: v in s ==> v <= m
  {
    var top := SomeMax(s);
    var m :| m in s && forall v :: v in s ==> v <= m;
    m
  }

  /** A largest element found by removing an arbitrary one; it shows that a largest element exists. */
  ghost function SomeMax(s: set<int>): (m: int)
    requires s != {}
    ensures m in s && forall v :: v in s ==> v <= m
    decreases |s|
  {
    assert exists y :: y in s by {
      if forall y :: y !in s { assert false; }
    }
    var x :| x in s;
    var rest := s - {x};
    assert forall v :: v in s ==> v == x || v in rest;
    if rest == {} then
      x
    else
      var r := SomeMax(rest);
      if x >= r then x else r
  }

  /** The archive's tables, updated in place. */
  class ResonanceArchive {
    var prompts: map<int, PromptRecord>
    var status: map<string, string>
    var iterations: seq<IterationRecord>
    var records: seq<StoredInteraction>
    var snapshots: seq<(int, IterationMetrics)>

    constructor(records: seq<StoredInteraction>)
      ensures prompts == map[] && status == map[] && iterations == [] && snapshots == []
      ensures this.records == records
    {
      prompts := map[];
      status := map[];
      iterations := [];
      this.records := records;
      snapshots := [];
    }

    /** `get_status`. */
    function GetStatus(key: string): Option<string>
      reads this
    {
      if key in status then Some(status[key]) else None
    }

    /** `is_frozen`: the "frozen" flag holds exactly the text "true". */
    predicate IsFrozen()
      reads this
    {
      GetStatus("frozen") == Some("true")
    }

    /** `is_killed`: the "killed" flag holds exactly the text "true". */
    predicate IsKilled()
      reads this
    {
      GetStatus("killed") == Some("true")
    }

    /** `set_status`: inserts or overwrites one flag. */
    method SetStatus(key: string, value: string)
      modifies this
      ensures status == old(status)[key := value]
      ensures prompts == old(prompts) && iterations == old(iterations)
      ensures records == old(records) && snapshots == old(snapshots)
    {
      status := status[key := value];
    }

    /** `get_latest_prompt`'s version: the largest stored version, if any. */
    function LatestPromptVersion(): (v: Option<int>)
      reads this
      ensures v.None? <==> prompts == map[]
      ensures v.Some? ==> v.value in prompts && forall k :: k in prompts ==> k <= v.value
    {
      if prompts == map[] then None
      else
        assert prompts.Keys != {} by {
          if forall y :: y !in prompts.Keys { assert false; }
        }
        Some(MaxOf(prompts.Keys))
    }

    /** `save_prompt`: stores a new version (`actions or []`). The version column is unique, so
        the version must be new. */
    method SavePrompt(version: int, promptText: string, policy: map<string, Num>, actions: Option<seq<string>>)
      requires version !in prompts
      modifies this
      ensures prompts == old(prompts)[version := PromptRecord(promptText, policy, if actions.Some? then actions.value else [])]
      ensures status == old(status) && iterations == old(iterations)
      ensures records == old(records) && snapshots == old(snapshots)
    {
      var stored := if actions.Some? then actions.value else [];
      prompts := prompts[version := PromptRecord(promptText, policy, stored)];
    }

    /** `save_metrics_snapshot`. */
    method SaveMetricsSnapshot(iterationId: int, metrics: IterationMetrics)
      modifies this
      ensures snapshots == old(snapshots) + [(iterationId, metrics)]
      ensures prompts == old(prompts) && status == old(status)
      ensures iterations == old(iterations) && records == old(records)
    {
      snapshots := snapshots + [(iterationId, metrics)];
    }

    /** `get_iteration_count`. */
    function IterationCount(): nat
      reads this
    {
      |iterations|
    }

    /** `get_iteration`. */
    function GetIteration(id: int): (r: Option<IterationRecord>)
      reads this
      ensures r.Some? <==> 1 <= id <= |iterations|
    {
      if 1 <= id <= |iterations| then Some(iterations[id - 1]) else None
    }

    /** `create_iteration`: a pending record with the next id. */
    method CreateIteration(startTime: int, promptVersion: int) returns (id: int)
      modifies this
      ensures iterations == old(iterations) + [PendingIteration(startTime, promptVersion)]
      ensures id == |iterations|
      ensures prompts == old(prompts) && status == old(status)
      ensures records == old(records) && snapshots == old(snapshots)
    {
      iterations := iterations + [PendingIteration(startTime, promptVersion)];
      id := |iterations|;
    }

    /** `complete_iteration`: fills in the end time, total, state and metrics of an existing
        iteration; an unknown id changes nothing. */
    method CompleteIteration(id: int, endTime: int, totalInteractions: int, state: string, metrics: map<string, Num>)
      modifies this
      ensures 1 <= id <= |old(iterations)| ==>
        iterations == old(iterations)[id - 1 := old(iterations)[id - 1].(
          endTime := Some(endTime), totalInteractions := totalInteractions, state := state, metrics := metrics)]
      ensures !(1 <= id <= |old(iterations)|) ==> iterations == old(iterations)
      ensures prompts == old(prompts) && status == old(status)
      ensures records == old(records) && snapshots == old(snapshots)
    {
      if 1 <= id <= |iterations| {
        var it := iterations[id - 1];
        iterations := iterations[id - 1 := it.(endTime := Some(endTime), totalInteractions := totalInteractions,
                                               state := state, metrics := metrics)];
      }
    }

    /** `assign_interactions_to_iteration` (the live, second definition). */
    method AssignInteractions(interactionIds: seq<int>, iterationId: int)
      modifies this
      ensures records == AssignRows(old(records), interactionIds, iterationId)
      ensures prompts == old(prompts) && status == old(status)
      ensures iterations == old(iterations) && snapshots == old(snapshots)
    {
      records := AssignRows(records, interactionIds, iterationId);
    }
  }
}
