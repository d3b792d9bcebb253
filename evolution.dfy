/**
 * One evolution step of the generation policy: seven one-sided distances from the targets,
 * weighted shifts of the four policy knobs, the actions whose shift passes a threshold, and the
 * next policy with every knob clamped to its range.
 */
module Evolution {
  import opened Wrappers
  import opened Models

  /** The twenty-three evolution parameters (three of them integers). */
  datatype EvolutionRules = EvolutionRules(
    targetRr: real,
    targetRrHigh: real,
    targetRd: real,
    targetRld: real,
    targetRf: real,
    targetRfLow: real,
    targetSci: real,
    lengthRelaxWeight: real,
    lengthTightenWeight: real,
    refusalRaiseWeight: real,
    refusalLowerWeight: real,
    perturbationWeight: real,
    temperatureWeight: real,
    lengthScale: real,
    refusalScale: real,
    perturbationScale: real,
    temperatureScale: real,
    actionThresholdTokens: int,
    actionThresholdRatio: real,
    minOutputTokens: int,
    maxOutputTokens: int,
    minTemperature: real,
    maxTemperature: real)

  /** `max(0.0, x)`. */
  function Excess(x: real): (e: real)
    ensures e >= 0.0
    ensures e == 0.0 <==> x <= 0.0
    ensures e > 0.0 ==> e == x
  {
    if x > 0.0 then x else 0.0
  }

  /** How far each metric lies outside its target, on the side that matters. */
  datatype Distances = Distances(
    rrLow: real, rrHigh: real, rdHigh: real, rldDrop: real, rfHigh: real, rfLow: real, sciHigh: real)
  {
    predicate NonNegative() {
      rrLow >= 0.0 && rrHigh >= 0.0 && rdHigh >= 0.0 && rldDrop >= 0.0
      && rfHigh >= 0.0 && rfLow >= 0.0 && sciHigh >= 0.0
    }

    predicate AllZero() {
      rrLow == 0.0 && rrHigh == 0.0 && rdHigh == 0.0 && rldDrop == 0.0
      && rfHigh == 0.0 && rfLow == 0.0 && sciHigh == 0.0
    }
  }

  /** The seven distance terms: each is non-negative and is zero exactly when its metric is on
      the right side of its target. */
  function ComputeDistances(m: IterationMetrics, rules: EvolutionRules): (d: Distances)
    ensures d.NonNegative()
    ensures d.rrLow == 0.0 <==> m.resonanceRatio >= rules.targetRr
    ensures d.rrHigh == 0.0 <==> m.resonanceRatio <= rules.targetRrHigh
    ensures d.rdHigh == 0.0 <==> m.rejectionDensity <= rules.targetRd
    ensures d.rldDrop == 0.0 <==> m.responseLengthDrift >= rules.targetRld
    ensures d.rfHigh == 0.0 <==> m.refusalFrequency <= rules.targetRf
    ensures d.rfLow == 0.0 <==> m.refusalFrequency >= rules.targetRfLow
    ensures d.sciHigh == 0.0 <==> m.semanticCollapseIndex <= rules.targetSci
  {
    Distances(
      Excess(rules.targetRr - m.resonanceRatio),
      Excess(m.resonanceRatio - rules.targetRrHigh),
      Excess(m.rejectionDensity - rules.targetRd),
      Excess(rules.targetRld - m.responseLengthDrift),
      Excess(m.refusalFrequency - rules.targetRf),
      Excess(rules.targetRfLow - m.refusalFrequency),
      Excess(m.semanticCollapseIndex - rules.targetSci))
  }

  /** Python's `round()` on a real: the nearest integer, ties to the even one. */
  function RoundHalfEven(x: real): (n: int)
    ensures -0.5 <= x - n as real <= 0.5
    ensures (x - n as real == 0.5 || n as real - x == 0.5) ==> n % 2 == 0
  {
    var f := x.Floor;
    var frac := x - f as real;
    if frac < 0.5 then f
    else if frac > 0.5 then f + 1
    else if f % 2 == 0 then f
    else f + 1
  }

  /** Rounding an integer gives it back. */
  lemma RoundInteger(k: int)
    ensures RoundHalfEven(k as real) == k
  {
  }

  /** The amounts by which the four knobs move. */
  datatype Shifts = Shifts(tokenDelta: int, refusalShift: real, perturbationShift: real, temperatureShift: real)

  /** Weighted pull on the token budget: relax for lost length or excess refusals, tighten for
      low resonance or dense rejection. With non-negative weights it never tightens unless
      resonance is low or rejection dense, and never relaxes unless length dropped or refusals
      are frequent. */
  function LengthDelta(d: Distances, rules: EvolutionRules): (r: real)
    ensures d.NonNegative() && rules.lengthRelaxWeight >= 0.0 && rules.lengthTightenWeight >= 0.0 ==>
              (d.rrLow == 0.0 && d.rdHigh == 0.0 ==> r >= 0.0) && (d.rldDrop == 0.0 && d.rfHigh == 0.0 ==> r <= 0.0)
  {
    rules.lengthRelaxWeight * (d.rldDrop + d.rfHigh) - rules.lengthTightenWeight * (d.rrLow + d.rdHigh)
  }

  /** Weighted pull on the refusal threshold: raised for low or high resonance, dense rejection
      or too few refusals, lowered for too many refusals or lost length. */
  function RefusalDelta(d: Distances, rules: EvolutionRules): (r: real)
    ensures d.NonNegative() && rules.refusalRaiseWeight >= 0.0 && rules.refusalLowerWeight >= 0.0 ==>
              (d.rfHigh == 0.0 && d.rldDrop == 0.0 ==> r >= 0.0)
              && (d.rrLow == 0.0 && d.rdHigh == 0.0 && d.rrHigh == 0.0 && d.rfLow == 0.0 ==> r <= 0.0)
  {
    rules.refusalRaiseWeight * (d.rrLow + d.rdHigh + d.rrHigh + d.rfLow)
    - rules.refusalLowerWeight * (d.rfHigh + d.rldDrop)
  }

  /** Weighted pull on the temperature: up for semantic collapse, down for low resonance or
      dense rejection. */
  function TemperatureDelta(d: Distances, rules: EvolutionRules): (r: real)
    ensures d.NonNegative() && rules.temperatureWeight >= 0.0 ==>
              (d.rrLow == 0.0 && d.rdHigh == 0.0 ==> r >= 0.0) && (d.sciHigh == 0.0 ==> r <= 0.0)
  {
    rules.temperatureWeight * (d.sciHigh - d.rrLow - d.rdHigh)
  }

  /** The token pull in tokens, before rounding: a non-negative scale keeps the sign of the pull. */
  function ScaledLengthDelta(d: Distances, rules: EvolutionRules): (r: real)
    ensures rules.lengthScale >= 0.0 ==>
              (LengthDelta(d, rules) >= 0.0 ==> r >= 0.0) && (LengthDelta(d, rules) <= 0.0 ==> r <= 0.0)
  {
    LengthDelta(d, rules) * rules.lengthScale
  }

  /** The four shifts: each weighted pull times its scale, the token one rounded to an integer.
      Rounding keeps the sign of the token pull, a non-negative scale keeps the sign of the other
      pulls, and the perturbation shift never goes down. */
  function ComputeShifts(d: Distances, rules: EvolutionRules): (s: Shifts)
    ensures ScaledLengthDelta(d, rules) >= 0.0 ==> s.tokenDelta >= 0
    ensures ScaledLengthDelta(d, rules) <= 0.0 ==> s.tokenDelta <= 0
    ensures rules.refusalScale >= 0.0 ==>
              (RefusalDelta(d, rules) >= 0.0 ==> s.refusalShift >= 0.0)
              && (RefusalDelta(d, rules) <= 0.0 ==> s.refusalShift <= 0.0)
    ensures d.sciHigh >= 0.0 && rules.perturbationWeight >= 0.0 && rules.perturbationScale >= 0.0 ==>
              s.perturbationShift >= 0.0
    ensures rules.temperatureScale >= 0.0 ==>
              (TemperatureDelta(d, rules) >= 0.0 ==> s.temperatureShift >= 0.0)
              && (TemperatureDelta(d, rules) <= 0.0 ==> s.temperatureShift <= 0.0)
  {
    Shifts(
      RoundHalfEven(ScaledLengthDelta(d, rules)),
      RefusalDelta(d, rules) * rules.refusalScale,
      d.sciHigh * rules.perturbationWeight * rules.perturbationScale,
      TemperatureDelta(d, rules) * rules.temperatureScale)
  }

  /** With every distance at zero nothing moves. */
  lemma NoDistanceNoShift(d: Distances, rules: EvolutionRules)
    requires d.AllZero()
    ensures ComputeShifts(d, rules) == Shifts(0, 0.0, 0.0, 0.0)
  {
    assert rules.lengthRelaxWeight * (d.rldDrop + d.rfHigh) == 0.0;
    assert rules.lengthTightenWeight * (d.rrLow + d.rdHigh) == 0.0;
    assert ScaledLengthDelta(d, rules) == 0.0;
    RoundInteger(0);
    assert rules.refusalRaiseWeight * (d.rrLow + d.rdHigh + d.rrHigh + d.rfLow) == 0.0;
    assert rules.refusalLowerWeight * (d.rfHigh + d.rldDrop) == 0.0;
    assert 0.0 * rules.refusalScale == 0.0;
    assert d.sciHigh * rules.perturbationWeight == 0.0;
    assert 0.0 * rules.perturbationScale == 0.0;
    assert rules.temperatureWeight * (d.sciHigh - d.rrLow - d.rdHigh) == 0.0;
    assert 0.0 * rules.temperatureScale == 0.0;
  }

  /** `_clamp`: `max(lo, min(hi, v))`; when the bounds are inverted the lower one wins. The token
      budget is clamped through `real` as well: the result is always one of the three integers. */
  function Clamp(v: real, lo: real, hi: real): (c: real)
    ensures lo <= hi ==> lo <= c <= hi
    ensures lo <= v <= hi ==> c == v
    ensures lo > hi ==> c == lo
    ensures v < lo ==> c == lo
    ensures lo <= hi < v ==> c == hi
  {
    if hi < v then (if lo > hi then lo else hi) else (if lo > v then lo else v)
  }

  /** `abs(x)`. */
  function Abs(x: real): (a: real)
    ensures a >= 0.0 && (a == x || a == -x)
  {
    if x < 0.0 then -x else x
  }

  /** Position of an action in the fixed reporting order: length, refusal, perturbation,
      temperature. */
  function Rank(a: EvolutionAction): nat {
    match a
    case TightenLength => 0
    case RelaxLength => 0
    case RaiseRefusalThreshold => 1
    case LowerRefusalThreshold => 1
    case MildPerturbation => 2
    case TuneTemperature => 3
  }

  /** The length action: tighten past the negative token threshold, else relax past the
      positive one. */
  function LengthActions(s: Shifts, rules: EvolutionRules): (a: seq<EvolutionAction>)
    ensures |a| <= 1 && forall k :: 0 <= k < |a| ==> Rank(a[k]) == 0
    ensures TightenLength in a <==> s.tokenDelta <= -rules.actionThresholdTokens
    ensures RelaxLength in a <==>
              !(s.tokenDelta <= -rules.actionThresholdTokens) && s.tokenDelta >= rules.actionThresholdTokens
  {
    if s.tokenDelta <= -rules.actionThresholdTokens then [TightenLength]
    else if s.tokenDelta >= rules.actionThresholdTokens then [RelaxLength]
    else []
  }

  /** The refusal action: raise past the positive ratio threshold, else lower past the negative one. */
  function RefusalActions(s: Shifts, rules: EvolutionRules): (a: seq<EvolutionAction>)
    ensures |a| <= 1 && forall k :: 0 <= k < |a| ==> Rank(a[k]) == 1
    ensures RaiseRefusalThreshold in a <==> s.refusalShift >= rules.actionThresholdRatio
    ensures LowerRefusalThreshold in a <==>
              !(s.refusalShift >= rules.actionThresholdRatio) && s.refusalShift <= -rules.actionThresholdRatio
  {
    if s.refusalShift >= rules.actionThresholdRatio then [RaiseRefusalThreshold]
    else if s.refusalShift <= -rules.actionThresholdRatio then [LowerRefusalThreshold]
    else []
  }

  /** The perturbation action: the perturbation shift reaches the ratio threshold. */
  function PerturbationActions(s: Shifts, rules: EvolutionRules): (a: seq<EvolutionAction>)
    ensures |a| <= 1 && forall k :: 0 <= k < |a| ==> Rank(a[k]) == 2
    ensures MildPerturbation in a <==> s.perturbationShift >= rules.actionThresholdRatio
  {
    if s.perturbationShift >= rules.actionThresholdRatio then [MildPerturbation] else []
  }

  /** The temperature action: the temperature shift reaches the ratio threshold in either direction. */
  function TemperatureActions(s: Shifts, rules: EvolutionRules): (a: seq<EvolutionAction>)
    ensures |a| <= 1 && forall k :: 0 <= k < |a| ==> Rank(a[k]) == 3
    ensures TuneTemperature in a <==> Abs(s.temperatureShift) >= rules.actionThresholdRatio
  {
    if Abs(s.temperatureShift) >= rules.actionThresholdRatio then [TuneTemperature] else []
  }

  /** The actions reported for the given shifts, one knob after the other. */
  function PlannedActions(s: Shifts, rules: EvolutionRules): (actions: seq<EvolutionAction>)
    ensures |actions| <= 4
    ensures forall i, j :: 0 <= i < j < |actions| ==> Rank(actions[i]) < Rank(actions[j])
  {
    var a, b, c, d := LengthActions(s, rules), RefusalActions(s, rules),
                      PerturbationActions(s, rules), TemperatureActions(s, rules);
    RankedConcat(a, 0, b, 1);
    RankedConcat(a + b, 1, c, 2);
    RankedConcat(a + b + c, 2, d, 3);
    a + b + c + d
  }

  /** Strictly increasing ranks, all below `hi`. */
  predicate RankedBelow(a: seq<EvolutionAction>, hi: nat) {
    (forall i, j :: 0 <= i < j < |a| ==> Rank(a[i]) < Rank(a[j]))
    && forall i :: 0 <= i < |a| ==> Rank(a[i]) <= hi
  }

  lemma RankedConcat(a: seq<EvolutionAction>, ra: nat, b: seq<EvolutionAction>, rb: nat)
    requires RankedBelow(a, ra) && ra < rb
    requires |b| <= 1 && forall k :: 0 <= k < |b| ==> Rank(b[k]) == rb
    ensures RankedBelow(a + b, rb)
  {
  }

  /** Each action is reported exactly when its shift passes its threshold. */
  lemma PlannedActionsExact(s: Shifts, rules: EvolutionRules)
    ensures var actions := PlannedActions(s, rules);
      (TightenLength in actions <==> s.tokenDelta <= -rules.actionThresholdTokens)
      && (RelaxLength in actions <==>
            !(s.tokenDelta <= -rules.actionThresholdTokens) && s.tokenDelta >= rules.actionThresholdTokens)
      && (RaiseRefusalThreshold in actions <==> s.refusalShift >= rules.actionThresholdRatio)
      && (LowerRefusalThreshold in actions <==>
            !(s.refusalShift >= rules.actionThresholdRatio) && s.refusalShift <= -rules.actionThresholdRatio)
      && (MildPerturbation in actions <==> s.perturbationShift >= rules.actionThresholdRatio)
      && (TuneTemperature in actions <==> Abs(s.temperatureShift) >= rules.actionThresholdRatio)
  {
    var a, b, c, d := LengthActions(s, rules), RefusalActions(s, rules),
                      PerturbationActions(s, rules), TemperatureActions(s, rules);
    assert PlannedActions(s, rules) == a + b + c + d;
    assert forall x :: x in a + b + c + d <==> x in a || x in b || x in c || x in d;
  }

  /** Strictly increasing ranks rule out a repeated action and a pair from the same knob. */
  lemma RankedActionsDistinct(actions: seq<EvolutionAction>)
    requires forall i, j :: 0 <= i < j < |actions| ==> Rank(actions[i]) < Rank(actions[j])
    ensures forall i, j :: 0 <= i < j < |actions| ==> actions[i] != actions[j]
    ensures !(TightenLength in actions && RelaxLength in actions)
    ensures !(RaiseRefusalThreshold in actions && LowerRefusalThreshold in actions)
  {
  }

  /** The next policy: every delta is applied, whether or not its action is reported, and each
      knob is clamped to its range. */
  function NextPolicy(policy: PromptPolicy, s: Shifts, rules: EvolutionRules): (p: PromptPolicy)
    ensures rules.minOutputTokens <= rules.maxOutputTokens ==>
              rules.minOutputTokens <= p.maxOutputTokens <= rules.maxOutputTokens
    ensures 0.0 <= p.refusalThreshold <= 1.0 && 0.0 <= p.perturbationLevel <= 1.0
    ensures rules.minTemperature <= rules.maxTemperature ==>
              rules.minTemperature <= p.temperature <= rules.maxTemperature
    ensures rules.minOutputTokens <= policy.maxOutputTokens + s.tokenDelta <= rules.maxOutputTokens ==>
              p.maxOutputTokens == policy.maxOutputTokens + s.tokenDelta
    ensures 0.0 <= policy.refusalThreshold + s.refusalShift <= 1.0 ==>
              p.refusalThreshold == policy.refusalThreshold + s.refusalShift
    ensures 0.0 <= policy.perturbationLevel + s.perturbationShift <= 1.0 ==>
              p.perturbationLevel == policy.perturbationLevel + s.perturbationShift
    ensures rules.minTemperature <= policy.temperature + s.temperatureShift <= rules.maxTemperature ==>
              p.temperature == policy.temperature + s.temperatureShift
    ensures policy.maxOutputTokens + s.tokenDelta < rules.minOutputTokens ==> p.maxOutputTokens == rules.minOutputTokens
    ensures rules.minOutputTokens <= rules.maxOutputTokens < policy.maxOutputTokens + s.tokenDelta ==>
              p.maxOutputTokens == rules.maxOutputTokens
    ensures policy.refusalThreshold + s.refusalShift < 0.0 ==> p.refusalThreshold == 0.0
    ensures policy.refusalThreshold + s.refusalShift > 1.0 ==> p.refusalThreshold == 1.0
    ensures policy.perturbationLevel + s.perturbationShift < 0.0 ==> p.perturbationLevel == 0.0
    ensures policy.perturbationLevel + s.perturbationShift > 1.0 ==> p.perturbationLevel == 1.0
    ensures policy.temperature + s.temperatureShift < rules.minTemperature ==> p.temperature == rules.minTemperature
    ensures rules.minTemperature <= rules.maxTemperature < policy.temperature + s.temperatureShift ==>
              p.temperature == rules.maxTemperature
  {
    PromptPolicy(
      Clamp((policy.maxOutputTokens + s.tokenDelta) as real, rules.minOutputTokens as real,
            rules.maxOutputTokens as real).Floor,
      Clamp(policy.refusalThreshold + s.refusalShift, 0.0, 1.0),
      Clamp(policy.perturbationLevel + s.perturbationShift, 0.0, 1.0),
      Clamp(policy.temperature + s.temperatureShift, rules.minTemperature, rules.maxTemperature))
  }

  /** The value of `evolve_policy` for given rules: the reported actions and the next policy. */
  function Evolve(m: IterationMetrics, policy: PromptPolicy, rules: EvolutionRules): (r: (seq<EvolutionAction>, PromptPolicy))
    ensures |r.0| <= 4 && forall i, j :: 0 <= i < j < |r.0| ==> Rank(r.0[i]) < Rank(r.0[j])
    ensures rules.minOutputTokens <= rules.maxOutputTokens ==>
              rules.minOutputTokens <= r.1.maxOutputTokens <= rules.maxOutputTokens
    ensures 0.0 <= r.1.refusalThreshold <= 1.0 && 0.0 <= r.1.perturbationLevel <= 1.0
    ensures rules.minTemperature <= rules.maxTemperature ==>
              rules.minTemperature <= r.1.temperature <= rules.maxTemperature
  {
    var s := ComputeShifts(ComputeDistances(m, rules), rules);
    (PlannedActions(s, rules), NextPolicy(policy, s, rules))
  }

  /** `evolve_policy`: raises `ValueError` without rules; otherwise collects the actions one
      knob at a time and builds the clamped next policy. The previous metrics are discarded. */
  method EvolvePolicy(m: IterationMetrics, previous: Option<IterationMetrics>, policy: PromptPolicy, rules: Option<EvolutionRules>)
    returns (r: Result<(seq<EvolutionAction>, PromptPolicy), Exception>)
    ensures r.Err? <==> rules.None?
    ensures r.Err? ==> r.error.ValueError?
    ensures r.Ok? ==> r.value == Evolve(m, policy, rules.value)
  {
    if rules.None? {
      return Err(ValueError("EvolutionRules is required. All configuration must be explicitly provided."));
    }
    var rs := rules.value;
    var actions: seq<EvolutionAction> := [];
    var d := ComputeDistances(m, rs);
    var s := ComputeShifts(d, rs);

    if s.tokenDelta <= -rs.actionThresholdTokens {
      actions := actions + [TightenLength];
    } else if s.tokenDelta >= rs.actionThresholdTokens {
      actions := actions + [RelaxLength];
    }
    assert actions == LengthActions(s, rs);
    if s.refusalShift >= rs.actionThresholdRatio {
      actions := actions + [RaiseRefusalThreshold];
    } else if s.refusalShift <= -rs.actionThresholdRatio {
      actions := actions + [LowerRefusalThreshold];
    }
    assert actions == LengthActions(s, rs) + RefusalActions(s, rs);
    if s.perturbationShift >= rs.actionThresholdRatio {
      actions := actions + [MildPerturbation];
    }
    assert actions == LengthActions(s, rs) + RefusalActions(s, rs) + PerturbationActions(s, rs);
    if Abs(s.temperatureShift) >= rs.actionThresholdRatio {
      actions := actions + [TuneTemperature];
    }
    assert actions == PlannedActions(s, rs);
    var next := NextPolicy(policy, s, rs);
    return Ok((actions, next));
  }

  /** The reported actions never repeat, and never pair the two directions of one knob. */
  lemma ActionsWellFormed(m: IterationMetrics, policy: PromptPolicy, rules: EvolutionRules)
    ensures var actions := Evolve(m, policy, rules).0;
      (forall i, j :: 0 <= i < j < |actions| ==> actions[i] != actions[j])
      && !(TightenLength in actions && RelaxLength in actions)
      && !(RaiseRefusalThreshold in actions && LowerRefusalThreshold in actions)
  {
    RankedActionsDistinct(Evolve(m, policy, rules).0);
  }

  /** When every metric is on target nothing moves: with positive thresholds no action is
      reported and the next policy is the current one, clamped. */
  lemma OnTargetIsStill(m: IterationMetrics, policy: PromptPolicy, rules: EvolutionRules)
    requires ComputeDistances(m, rules).AllZero()
    requires rules.actionThresholdTokens > 0 && rules.actionThresholdRatio > 0.0
    ensures Evolve(m, policy, rules).0 == []
    ensures Evolve(m, policy, rules).1 == NextPolicy(policy, Shifts(0, 0.0, 0.0, 0.0), rules)
  {
    NoDistanceNoShift(ComputeDistances(m, rules), rules);
  }

  /** Two rule sets that differ at most in their action thresholds. */
  predicate SameButThresholds(r1: EvolutionRules, r2: EvolutionRules) {
    r2 == r1.(actionThresholdTokens := r2.actionThresholdTokens, actionThresholdRatio := r2.actionThresholdRatio)
  }

  /** The shifts do not read the action thresholds. */
  lemma ShiftsIgnoreThresholds(d: Distances, r1: EvolutionRules, r2: EvolutionRules)
    requires SameButThresholds(r1, r2)
    ensures ComputeShifts(d, r1) == ComputeShifts(d, r2)
  {
    assert LengthDelta(d, r1) == LengthDelta(d, r2);
    assert ScaledLengthDelta(d, r1) == ScaledLengthDelta(d, r2);
    assert RefusalDelta(d, r1) == RefusalDelta(d, r2);
    assert TemperatureDelta(d, r1) == TemperatureDelta(d, r2);
  }

  /** The action thresholds decide only what is reported, never the next policy. */
  lemma ThresholdsOnlyReport(m: IterationMetrics, policy: PromptPolicy, r1: EvolutionRules, r2: EvolutionRules)
    requires SameButThresholds(r1, r2)
    ensures Evolve(m, policy, r1).1 == Evolve(m, policy, r2).1
  {
    var d := ComputeDistances(m, r1);
    assert ComputeDistances(m, r2) == d;
    ShiftsIgnoreThresholds(d, r1, r2);
  }

  /** `evolve_prompt`: `evolve_policy`'s pair plus the prompt rendered from the new policy
      (`render` stands for `render_prompt`). */
  method EvolvePrompt(m: IterationMetrics, previous: Option<IterationMetrics>, policy: PromptPolicy,
                      rules: Option<EvolutionRules>, render: PromptPolicy -> string)
    returns (r: Result<(seq<EvolutionAction>, PromptPolicy, string), Exception>)
    ensures r.Err? <==> rules.None?
    ensures r.Ok? ==> (r.value.0, r.value.1) == Evolve(m, policy, rules.value) && r.value.2 == render(r.value.1)
  {
    var evolved := EvolvePolicy(m, previous, policy, rules);
    if evolved.Err? {
      return Err(evolved.error);
    }
    var (actions, next) := evolved.value;
    return Ok((actions, next, render(next)));
  }
}
