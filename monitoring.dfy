/**
 * Health monitoring over the archive: the health check with its issues and recommendations,
 * the recent iteration history and the numeric health gauge.
 */
module Monitoring {
  import opened Wrappers
  import opened Models
  import opened Archive

  /** One problem the health check reports. The rendered text of the metric issues (which
      prints the value with three decimals) is represented by the kind and the value. */
  datatype Issue =
    | SystemKilled
    | StateCollapsing
    | StateMute
    | StateDrifting
    | LowResonance(resonanceRatio: real)
    | HighRejection(rejectionDensity: real)
    | HighRefusal(refusalFrequency: real)
    | HighCollapse(semanticCollapseIndex: real)
    | LowVolume(recentInteractions: int)
    | EvolutionFrozen
  {
    /** The recommendation the check pairs with the issue. */
    function Recommendation(): string {
      match this
      case SystemKilled => "Review termination logs"
      case StateCollapsing => "Consider rollback or freeze"
      case StateMute => "Review prompt policy - may be too restrictive"
      case StateDrifting => "Monitor next iteration closely"
      case LowResonance(_) => "Investigate user feedback patterns"
      case HighRejection(_) => "Review recent responses for quality issues"
      case HighRefusal(_) => "Consider lowering refusal threshold"
      case HighCollapse(_) => "Increase perturbation or temperature"
      case LowVolume(_) => "Increase user engagement or lower iteration threshold"
      case EvolutionFrozen => "Unfreeze to resume evolution if intentional pause is over"
    }
  }

  /** `HealthStatus`. */
  datatype HealthStatus = HealthStatus(status: string, issues: seq<Issue>, recommendations: seq<string>)

  /** The issue the latest iteration's state raises: collapsing, mute and drifting raise one,
      stable, dead and any text that is no state raise none. */
  function StateIssues(state: string): (r: seq<Issue>)
    ensures |r| <= 1
    ensures r == [StateCollapsing] <==> ParseSystemState(state) == Some(Collapsing)
    ensures r == [StateMute] <==> ParseSystemState(state) == Some(Mute)
    ensures r == [StateDrifting] <==> ParseSystemState(state) == Some(Drifting)
    ensures r == [] <==> ParseSystemState(state) !in {Some(Collapsing), Some(Mute), Some(Drifting)}
  {
    match ParseSystemState(state)
    case Some(Collapsing) => [StateCollapsing]
    case Some(Mute) => [StateMute]
    case Some(Drifting) => [StateDrifting]
    case _ => []
  }

  /** The issue a metric raises when `past` its threshold. */
  function IssueIf(past: bool, issue: Issue): (r: seq<Issue>)
    ensures r == (if past then [issue] else [])
  {
    if past then [issue] else []
  }

  /** Each issue the metrics check may raise, given the metric values it reads: the strict
      tests of each metric against its threshold, in order. */
  function ThresholdIssues(rr: real, rd: real, rf: real, sci: real): (r: seq<Issue>) {
    IssueIf(rr < 0.15, LowResonance(rr)) + IssueIf(rd > 0.7, HighRejection(rd))
    + IssueIf(rf > 0.5, HighRefusal(rf)) + IssueIf(sci > 0.6, HighCollapse(sci))
  }

  /** Each metric raises its issue exactly when past its threshold, and nothing else is raised. */
  lemma ThresholdIssuesExact(rr: real, rd: real, rf: real, sci: real)
    ensures var r := ThresholdIssues(rr, rd, rf, sci);
            && |r| <= 4
            && (LowResonance(rr) in r <==> rr < 0.15)
            && (HighRejection(rd) in r <==> rd > 0.7)
            && (HighRefusal(rf) in r <==> rf > 0.5)
            && (HighCollapse(sci) in r <==> sci > 0.6)
            && forall i :: 0 <= i < |r| ==> r[i].LowResonance? || r[i].HighRejection? || r[i].HighRefusal? || r[i].HighCollapse?
  {
    var a := IssueIf(rr < 0.15, LowResonance(rr));
    var b := IssueIf(rd > 0.7, HighRejection(rd));
    var c := IssueIf(rf > 0.5, HighRefusal(rf));
    var d := IssueIf(sci > 0.6, HighCollapse(sci));
    var r := ThresholdIssues(rr, rd, rf, sci);
    assert r == a + b + c + d;
    assert forall x :: x in r <==> x in a || x in b || x in c || x in d;
  }

  /** The issues of a non-empty metrics dictionary, absent metrics reading as zero; an empty
      dictionary is falsy and raises none. */
  function MetricIssues(metrics: map<string, Num>): (r: seq<Issue>)
    ensures metrics == map[] ==> r == []
  {
    if metrics == map[] then []
    else ThresholdIssues(MetricOr(metrics, "resonance_ratio").AsReal(),
                         MetricOr(metrics, "rejection_density").AsReal(),
                         MetricOr(metrics, "refusal_frequency").AsReal(),
                         MetricOr(metrics, "semantic_collapse_index").AsReal())
  }

  /** The overall status for a number of issues. */
  function StatusFor(issueCount: nat): (s: string)
    ensures HealthValue(s) == if issueCount == 0 then 1 else if issueCount <= 2 then 2 else 3
  {
    if issueCount == 0 then "healthy" else if issueCount <= 2 then "degraded" else "critical"
  }

  /** The gauge `get_prometheus_metrics` exports for a status: unknown statuses read as 0. */
  function HealthValue(status: string): (v: int)
    ensures 0 <= v <= 4
  {
    match status
    case "healthy" => 1
    case "degraded" => 2
    case "critical" => 3
    case "dead" => 4
    case _ => 0
  }

  /** The four statuses the health check produces map to four distinct gauge values, and no other
      status text reaches any of them. */
  lemma HealthValueExact(status: string)
    ensures HealthValue(status) != 0 <==> status in {"healthy", "degraded", "critical", "dead"}
  {
  }

  /** Seconds in the 24 hours the volume check looks back. */
  const Day: int := 86400

  /** `get_interaction_count(start_time=start)`: the rows logged at or after `start`. */
  function CountSince(rows: seq<StoredInteraction>, start: int): (n: nat)
    ensures n <= |rows|
    ensures n == |set i | 0 <= i < |rows| && rows[i].timestamp >= start|
    decreases |rows|
  {
    if rows == [] then 0
    else
      var init := rows[..|rows| - 1];
      var last := |rows| - 1;
      var before := set i | 0 <= i < |init| && init[i].timestamp >= start;
      var now := set i | 0 <= i < |rows| && rows[i].timestamp >= start;
      if rows[last].timestamp >= start then
        assert now == before + {last} && last !in before;
        CountSince(init, start) + 1
      else
        assert now == before;
        CountSince(init, start)
  }

  /** Rows appended after the window opens each count once more. */
  lemma {:induction false} CountSinceAppend(rows: seq<StoredInteraction>, more: seq<StoredInteraction>, start: int)
    requires forall i :: 0 <= i < |more| ==> more[i].timestamp >= start
    ensures CountSince(rows + more, start) == CountSince(rows, start) + |more|
    decreases |more|
  {
    if more != [] {
      var init := more[..|more| - 1];
      assert (rows + more)[..|rows + more| - 1] == rows + init;
      assert (rows + more)[|rows + more| - 1] == more[|more| - 1];
      CountSinceAppend(rows, init, start);
      assert CountSince(rows + more, start) == CountSince(rows + init, start) + 1;
    } else {
      assert rows + more == rows;
    }
  }

  /** One entry of `get_iteration_history`: the iteration's id and its stored record (the
      timestamps are rendered as ISO text in the source). */
  datatype HistoryEntry = HistoryEntry(id: int, record: IterationRecord)

  /** First id the history visits: the last `n` ids, never below 1. */
  function HistoryStart(count: nat, n: int): (start: int)
    ensures start >= 1
  {
    if 1 >= count - n + 1 then 1 else count - n + 1
  }

  /** `SystemMonitor`: reads the archive it was given. */
  class SystemMonitor {
    const archive: ResonanceArchive

    constructor(archive: ResonanceArchive)
      ensures this.archive == archive
    {
      this.archive := archive;
    }

    /** `check_health` at time `now`: a killed system is dead; no iteration yet is healthy;
        otherwise the latest iteration's state, its metrics, the last day's volume and the frozen
        flag each add issues, one recommendation per issue, and the count decides the status. */
    method CheckHealth(now: int) returns (h: HealthStatus)
      ensures archive.IsKilled() ==>
                h == HealthStatus("dead", [SystemKilled], ["Review termination logs", "Restart with new instance"])
      ensures !archive.IsKilled() && archive.iterations == [] ==>
                h == HealthStatus("healthy", [], ["No iterations yet - system initializing"])
      ensures !archive.IsKilled() && archive.iterations != [] ==>
                var latest := archive.iterations[|archive.iterations| - 1];
                var recent := CountSince(archive.records, now - Day);
                && h.issues == StateIssues(latest.state) + MetricIssues(latest.metrics)
                               + (if recent < 100 then [LowVolume(recent)] else [])
                               + (if archive.IsFrozen() then [EvolutionFrozen] else [])
                && Paired(h.issues, h.recommendations)
                && h.status == StatusFor(|h.issues|)
      ensures 1 <= HealthValue(h.status) <= 4
    {
      if archive.IsKilled() {
        return HealthStatus("dead", [SystemKilled], ["Review termination logs", "Restart with new instance"]);
      }
      if archive.iterations == [] {
        return HealthStatus("healthy", [], ["No iterations yet - system initializing"]);
      }
      var latest := archive.iterations[|archive.iterations| - 1];
      h := AssessIteration(latest, CountSince(archive.records, now - Day), archive.IsFrozen());
    }

    /** `get_iteration_history(n)`: the iterations with ids from `max(1, count - n + 1)` up to
        the count, in ascending order. */
    method GetIterationHistory(n: int) returns (history: seq<HistoryEntry>)
      ensures var count := |archive.iterations|;
              var start := HistoryStart(count, n);
              && |history| == (if start <= count then count - start + 1 else 0)
              && forall j :: 0 <= j < |history| ==>
                   history[j] == HistoryEntry(start + j, archive.iterations[start + j - 1])
      ensures n >= 0 ==> |history| <= n
      ensures |history| <= |archive.iterations|
    {
      var count := archive.IterationCount();
      var start := HistoryStart(count, n);
      history := [];
      var i := start;
      while i < count + 1
        invariant start <= i <= if start <= count + 1 then count + 1 else start
        invariant |history| == i - start
        invariant forall j :: 0 <= j < |history| ==>
                    history[j] == HistoryEntry(start + j, archive.iterations[start + j - 1])
      {
        var iteration := archive.GetIteration(i);
        if iteration.Some? {
          history := history + [HistoryEntry(i, iteration.value)];
        }
        i := i + 1;
      }
    }
  }

  /** Every issue is matched, position by position, by its recommendation. */
  predicate Paired(issues: seq<Issue>, recommendations: seq<string>) {
    |recommendations| == |issues| && forall i :: 0 <= i < |issues| ==> recommendations[i] == issues[i].Recommendation()
  }

  /** `issues.append(issue)` with `recommendations.append(...)` of its recommendation. */
  method Raise(issues: seq<Issue>, recommendations: seq<string>, issue: Issue)
    returns (issues': seq<Issue>, recommendations': seq<string>)
    requires Paired(issues, recommendations)
    ensures issues' == issues + [issue] && Paired(issues', recommendations')
  {
    issues' := issues + [issue];
    recommendations' := recommendations + [issue.Recommendation()];
  }

  /** `if past: Raise(issue)`. */
  method RaiseIf(issues: seq<Issue>, recommendations: seq<string>, past: bool, issue: Issue)
    returns (issues': seq<Issue>, recommendations': seq<string>)
    requires Paired(issues, recommendations)
    ensures issues' == issues + IssueIf(past, issue) && Paired(issues', recommendations')
  {
    issues', recommendations' := issues, recommendations;
    if past {
      issues', recommendations' := Raise(issues, recommendations, issue);
    }
  }

  /** The metrics check: a non-empty dictionary raises an issue for each metric past its
      threshold, in the order resonance, rejection, refusal, collapse. */
  method CheckMetrics(issues: seq<Issue>, recommendations: seq<string>, metrics: map<string, Num>)
    returns (issues': seq<Issue>, recommendations': seq<string>)
    requires Paired(issues, recommendations)
    ensures issues' == issues + MetricIssues(metrics) && Paired(issues', recommendations')
  {
    issues', recommendations' := issues, recommendations;
    if metrics != map[] {
      var rr := MetricOr(metrics, "resonance_ratio").AsReal();
      var rd := MetricOr(metrics, "rejection_density").AsReal();
      var rf := MetricOr(metrics, "refusal_frequency").AsReal();
      var sci := MetricOr(metrics, "semantic_collapse_index").AsReal();
      issues', recommendations' := RaiseIf(issues', recommendations', rr < 0.15, LowResonance(rr));
      issues', recommendations' := RaiseIf(issues', recommendations', rd > 0.7, HighRejection(rd));
      issues', recommendations' := RaiseIf(issues', recommendations', rf > 0.5, HighRefusal(rf));
      issues', recommendations' := RaiseIf(issues', recommendations', sci > 0.6, HighCollapse(sci));
      ghost var a, b, c, d := IssueIf(rr < 0.15, LowResonance(rr)), IssueIf(rd > 0.7, HighRejection(rd)),
                              IssueIf(rf > 0.5, HighRefusal(rf)), IssueIf(sci > 0.6, HighCollapse(sci));
      assert MetricIssues(metrics) == ThresholdIssues(rr, rd, rf, sci) == a + b + c + d;
      assert issues + a + b + c + d == issues + (a + b + c + d);
    }
  }

  /** The health of a live system whose latest iteration is `latest`: its state, its metrics,
      the last day's volume and the frozen flag each add issues, one recommendation per issue,
      and the number of issues decides the status. */
  method AssessIteration(latest: IterationRecord, recent: int, frozen: bool) returns (h: HealthStatus)
    ensures h.issues == StateIssues(latest.state) + MetricIssues(latest.metrics)
                        + (if recent < 100 then [LowVolume(recent)] else [])
                        + (if frozen then [EvolutionFrozen] else [])
    ensures Paired(h.issues, h.recommendations)
    ensures h.status == StatusFor(|h.issues|)
  {
    var issues: seq<Issue> := [];
    var recommendations: seq<string> := [];
    match ParseSystemState(latest.state) {
      case Some(Collapsing) =>
        issues, recommendations := Raise(issues, recommendations, StateCollapsing);
      case Some(Mute) =>
        issues, recommendations := Raise(issues, recommendations, StateMute);
      case Some(Drifting) =>
        issues, recommendations := Raise(issues, recommendations, StateDrifting);
      case _ =>
    }
    assert issues == StateIssues(latest.state);
    issues, recommendations := CheckMetrics(issues, recommendations, latest.metrics);
    ghost var found := issues;
    ghost var volume := if recent < 100 then [LowVolume(recent)] else [];
    if recent < 100 {
      issues, recommendations := Raise(issues, recommendations, LowVolume(recent));
    }
    assert issues == found + volume;
    if frozen {
      issues, recommendations := Raise(issues, recommendations, EvolutionFrozen);
    }
    h := HealthStatus(StatusFor(|issues|), issues, recommendations);
  }

  /** The history's ids ascend by one and end at the latest iteration. */
  lemma HistoryEndsAtLatest(history: seq<HistoryEntry>, iterations: seq<IterationRecord>, n: int)
    requires var count := |iterations|;
             var start := HistoryStart(count, n);
             && |history| == (if start <= count then count - start + 1 else 0)
             && forall j :: 0 <= j < |history| ==> history[j].id == start + j
    ensures forall j :: 0 <= j < |history| - 1 ==> history[j + 1].id == history[j].id + 1
    ensures history != [] ==> history[|history| - 1].id == |iterations|
    ensures n >= 1 && iterations != [] ==> history != []
  {
  }
}
