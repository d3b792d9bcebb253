/**
 * Classification of an iteration's metrics into an operating state: an ordered, first-match
 * list of tests (mute, collapsing, a resonance drop, stable, otherwise drifting).
 */
module State {
  import opened Wrappers
  import opened Models

  /** The eleven classification thresholds. */
  datatype StateThresholds = StateThresholds(
    stableMinRr: real,
    stableMaxRd: real,
    stableMinRld: real,
    stableMaxRf: real,
    stableMaxSci: real,
    driftingRrDrop: real,
    collapsingRr: real,
    collapsingRd: real,
    collapsingSci: real,
    muteMinAvgLength: real,
    muteMinRr: real)

  /** No responses, too short on average, or too little resonance. */
  predicate MuteSignal(m: IterationMetrics, th: StateThresholds) {
    m.totalResponses == 0
    || m.averageResponseLength <= th.muteMinAvgLength
    || m.resonanceRatio <= th.muteMinRr
  }

  /** Low resonance together with dense rejection, or a high collapse index. */
  predicate CollapseSignal(m: IterationMetrics, th: StateThresholds) {
    (m.resonanceRatio <= th.collapsingRr && m.rejectionDensity >= th.collapsingRd)
    || m.semanticCollapseIndex >= th.collapsingSci
  }

  /** Resonance fell by at least the drop threshold since the previous metrics (a metrics
      object is always truthy, so only its absence disables the test). */
  predicate DropSignal(m: IterationMetrics, previous: Option<IterationMetrics>, th: StateThresholds) {
    previous.Some? && previous.value.resonanceRatio - m.resonanceRatio >= th.driftingRrDrop
  }

  /** All five stability bounds hold at once. */
  predicate StableSignal(m: IterationMetrics, th: StateThresholds) {
    m.resonanceRatio >= th.stableMinRr
    && m.rejectionDensity <= th.stableMaxRd
    && m.responseLengthDrift >= th.stableMinRld
    && m.refusalFrequency <= th.stableMaxRf
    && m.semanticCollapseIndex <= th.stableMaxSci
  }

  /** `evaluate_state`: missing thresholds raise `ValueError`; otherwise the first matching
      test decides, and DEAD is never produced. */
  function EvaluateState(m: IterationMetrics, previous: Option<IterationMetrics>, thresholds: Option<StateThresholds>): (r: Result<SystemState, Exception>)
    ensures r.Err? <==> thresholds.None?
    ensures r.Err? ==> r.error.ValueError?
    ensures r != Ok(Dead)
    ensures thresholds.Some? ==>
      var th := thresholds.value;
      (r == Ok(Mute) <==> MuteSignal(m, th))
      && (r == Ok(Collapsing) <==> !MuteSignal(m, th) && CollapseSignal(m, th))
      && (r == Ok(Stable) <==> !MuteSignal(m, th) && !CollapseSignal(m, th) && !DropSignal(m, previous, th) && StableSignal(m, th))
      && (r == Ok(Drifting) <==> !MuteSignal(m, th) && !CollapseSignal(m, th) && (DropSignal(m, previous, th) || !StableSignal(m, th)))
  {
    if thresholds.None? then
      Err(ValueError("StateThresholds is required. All configuration must be explicitly provided."))
    else
      var th := thresholds.value;
      if m.totalResponses == 0 then Ok(Mute)
      else if m.averageResponseLength <= th.muteMinAvgLength || m.resonanceRatio <= th.muteMinRr then Ok(Mute)
      else if (m.resonanceRatio <= th.collapsingRr && m.rejectionDensity >= th.collapsingRd)
              || m.semanticCollapseIndex >= th.collapsingSci then Ok(Collapsing)
      else if previous.Some? && previous.value.resonanceRatio - m.resonanceRatio >= th.driftingRrDrop then Ok(Drifting)
      else if m.resonanceRatio >= th.stableMinRr && m.rejectionDensity <= th.stableMaxRd
              && m.responseLengthDrift >= th.stableMinRld && m.refusalFrequency <= th.stableMaxRf
              && m.semanticCollapseIndex <= th.stableMaxSci then Ok(Stable)
      else Ok(Drifting)
  }

  /** With thresholds, an empty iteration is MUTE whatever its other fields say. */
  lemma EmptyIterationIsMute(m: IterationMetrics, previous: Option<IterationMetrics>, th: StateThresholds)
    requires m.totalResponses == 0
    ensures EvaluateState(m, previous, Some(th)) == Ok(Mute)
  {
  }

  /** Supplying previous metrics can only turn a verdict into DRIFTING, never into anything else. */
  lemma PreviousOnlyAddsDrifting(m: IterationMetrics, p: IterationMetrics, th: StateThresholds)
    ensures EvaluateState(m, Some(p), Some(th)) == EvaluateState(m, None, Some(th))
      || EvaluateState(m, Some(p), Some(th)) == Ok(Drifting)
  {
  }
}
