/**
 * core/adaptive_policy.py, core/cognitive_budget.py and core/policy.py: signals to policy to budget and
 * approval decision. Worse signals never loosen anything, for any thresholds.
 */
module AdaptivePolicies {
  import opened Wrappers
  import opened Reals

  datatype HealthBand = Healthy | Warning | Degraded | Critical

  datatype Signals = Signals(
    retryDensity: real, replayConfidence: real, driftSeverity: real, contextPressure: real, toolFailureRate: real,
    healthBand: HealthBand, degradedModeActive: bool, sessionAgeSeconds: int, latencyPressure: real,
    stabilityPressure: real, governancePressure: real)

  datatype Settings = Settings(
    retryDensityHigh: real, contextPressureHigh: real, replayConfidenceLow: real, driftSeverityHigh: real,
    latencyPressureHigh: real, sessionAgeLongSeconds: int, approvalBiasMax: real, contextBudgetMin: real,
    contextBudgetRelaxedMax: real)

  const DEFAULT_SETTINGS := Settings(0.6, 0.85, 0.5, 0.5, 0.7, 3600, 2.0, 0.25, 1.0)

  datatype AdaptivePolicy = AdaptivePolicy(
    maxRetryDepth: int, contextBudgetRatio: real, delegationEnabled: bool, deterministicMode: bool,
    toolParallelismLimit: int, approvalEscalationBias: real)

  // ---- What the stages amount to ------------------------------------------

  predicate ReplayBad(s: Settings, g: Signals) {
    g.replayConfidence < s.replayConfidenceLow || g.driftSeverity >= s.driftSeverityHigh
  }

  predicate Unhealthy(g: Signals) { g.healthBand in {Degraded, Critical} || g.degradedModeActive }

  /** The product of the applicable discounts, before any clamping. */
  function PlainRatio(s: Settings, g: Signals): real {
    var pressed := if g.contextPressure >= s.contextPressureHigh then 0.5 else 1.0;
    var healthy := if Unhealthy(g) then Min(pressed, 0.5) else pressed;
    var quick := if g.latencyPressure >= s.latencyPressureHigh then healthy * 0.75 else healthy;
    if g.sessionAgeSeconds >= s.sessionAgeLongSeconds then quick * 0.8 else quick
  }

  /** The derived policy field by field: one clamp at the end replaces the clamp of each stage. */
  function Derived(s: Settings, g: Signals): AdaptivePolicy {
    AdaptivePolicy(
      if Unhealthy(g) || g.stabilityPressure >= 0.5 then 0 else if g.retryDensity >= s.retryDensityHigh then 1 else 3,
      Max(s.contextBudgetMin, Min(s.contextBudgetRelaxedMax, PlainRatio(s, g))),
      !(ReplayBad(s, g) || Unhealthy(g) || g.stabilityPressure >= 0.5 || g.governancePressure >= 0.5),
      ReplayBad(s, g) || Unhealthy(g) || g.stabilityPressure >= 0.5 || g.toolFailureRate > 0.5,
      if g.latencyPressure >= s.latencyPressureHigh || g.toolFailureRate > 0.5 then 1 else 3,
      Max(0.0, Min(s.approvalBiasMax,
                   (if ReplayBad(s, g) then 1.0 else 0.0) + (if g.governancePressure >= 0.5 then 0.5 else 0.0))))
  }

  /** `AdaptivePolicyEngine.derive`, stage by stage. */
  method Derive(s: Settings, g: Signals) returns (policy: AdaptivePolicy)
    ensures policy == Derived(s, g)
  {
    var maxRetryDepth, ratio, delegation, deterministic, parallelism, bias := 3, 1.0, true, false, 3, 0.0;
    if g.retryDensity >= s.retryDensityHigh {
      maxRetryDepth := if maxRetryDepth - 2 >= 0 then maxRetryDepth - 2 else 0;
    }
    if g.replayConfidence < s.replayConfidenceLow || g.driftSeverity >= s.driftSeverityHigh {
      deterministic, delegation := true, false;
      bias := Min(s.approvalBiasMax, bias + 1.0);
    }
    if g.contextPressure >= s.contextPressureHigh {
      ratio := Max(s.contextBudgetMin, ratio * 0.5);
    }
    if g.healthBand in {Degraded, Critical} || g.degradedModeActive {
      delegation, maxRetryDepth, deterministic := false, 0, true;
      ratio := Min(ratio, 0.5);
    }
    if g.latencyPressure >= s.latencyPressureHigh {
      ratio := Max(s.contextBudgetMin, ratio * 0.75);
      parallelism := 1;
    }
    if g.sessionAgeSeconds >= s.sessionAgeLongSeconds {
      ratio := Max(s.contextBudgetMin, ratio * 0.8);
    }
    if g.stabilityPressure >= 0.5 {
      deterministic, delegation, maxRetryDepth := true, false, 0;
    }
    if g.governancePressure >= 0.5 {
      bias := Min(s.approvalBiasMax, bias + 0.5);
      delegation := false;
    }
    if g.toolFailureRate > 0.5 {
      deterministic, parallelism := true, 1;
    }
    ratio := Max(s.contextBudgetMin, Min(s.contextBudgetRelaxedMax, ratio));
    bias := Max(0.0, Min(s.approvalBiasMax, bias));
    policy := AdaptivePolicy(maxRetryDepth, ratio, delegation, deterministic, parallelism, bias);
  }

  // ---- Antitone -----------------------------------------------------------

  function Severity(b: HealthBand): nat {
    match b case Healthy => 0 case Warning => 1 case Degraded => 2 case Critical => 3
  }

  /** Every signal of `h` is at least as bad as in `g`. */
  predicate AtLeastAsBad(g: Signals, h: Signals) {
    && g.retryDensity <= h.retryDensity && g.replayConfidence >= h.replayConfidence
    && g.driftSeverity <= h.driftSeverity && g.contextPressure <= h.contextPressure
    && g.toolFailureRate <= h.toolFailureRate && Severity(g.healthBand) <= Severity(h.healthBand)
    && (g.degradedModeActive ==> h.degradedModeActive) && g.sessionAgeSeconds <= h.sessionAgeSeconds
    && g.latencyPressure <= h.latencyPressure && g.stabilityPressure <= h.stabilityPressure
    && g.governancePressure <= h.governancePressure
  }

  predicate AtLeastAsTight(p: AdaptivePolicy, q: AdaptivePolicy) {
    && q.maxRetryDepth <= p.maxRetryDepth && q.contextBudgetRatio <= p.contextBudgetRatio
    && (q.delegationEnabled ==> p.delegationEnabled) && (p.deterministicMode ==> q.deterministicMode)
    && q.toolParallelismLimit <= p.toolParallelismLimit && q.approvalEscalationBias >= p.approvalEscalationBias
  }

  /** For any thresholds and limits, worse signals give a policy at least as tight in all six fields. */
  lemma DeriveAntitone(s: Settings, g: Signals, h: Signals)
    requires AtLeastAsBad(g, h)
    ensures AtLeastAsTight(Derived(s, g), Derived(s, h))
  {
    PlainRatioAntitone(s, g, h);
  }

  lemma PlainRatioAntitone(s: Settings, g: Signals, h: Signals)
    requires AtLeastAsBad(g, h)
    ensures PlainRatio(s, h) <= PlainRatio(s, g)
  {
  }

  lemma DefaultRanges(g: Signals)
    ensures var p := Derived(DEFAULT_SETTINGS, g);
            && 0.3 <= p.contextBudgetRatio <= 1.0
            && p.approvalEscalationBias in {0.0, 0.5, 1.0, 1.5}
            && 2400 <= ToBudget(p, BASE_MEMORY_BUDGET).memoryBudget <= 8000
  {
    var r := Derived(DEFAULT_SETTINGS, g).contextBudgetRatio;
    assert 2400.0 <= 8000.0 * r <= 8000.0;
  }

  /**
   * Under the default settings, field by field and signal by signal: the three discounts of the context budget
   * multiply, and two kinds of trouble add to the approval bias.
   */
  lemma DefaultPolicy(g: Signals)
    ensures var p := Derived(DEFAULT_SETTINGS, g);
            var replayBad := g.replayConfidence < 0.5 || g.driftSeverity >= 0.5;
            var unhealthy := g.healthBand == Degraded || g.healthBand == Critical || g.degradedModeActive;
            && (p.maxRetryDepth == 0 <==> unhealthy || g.stabilityPressure >= 0.5)
            && (p.maxRetryDepth == 3 <==> !unhealthy && g.stabilityPressure < 0.5 && g.retryDensity < 0.6)
            && p.maxRetryDepth in {0, 1, 3}
            && p.contextBudgetRatio == (if g.contextPressure >= 0.85 || unhealthy then 0.5 else 1.0)
                                       * (if g.latencyPressure >= 0.7 then 0.75 else 1.0)
                                       * (if g.sessionAgeSeconds >= 3600 then 0.8 else 1.0)
            && (p.delegationEnabled <==>
                  !replayBad && !unhealthy && g.stabilityPressure < 0.5 && g.governancePressure < 0.5)
            && (p.deterministicMode <==>
                  replayBad || unhealthy || g.stabilityPressure >= 0.5 || g.toolFailureRate > 0.5)
            && p.toolParallelismLimit == (if g.latencyPressure >= 0.7 || g.toolFailureRate > 0.5 then 1 else 3)
            && p.approvalEscalationBias == (if replayBad then 1.0 else 0.0)
                                           + (if g.governancePressure >= 0.5 then 0.5 else 0.0)
  {
  }

  /** Under any settings, a limit that binds replaces the field it limits and nothing else. */
  lemma LimitsBind(s: Settings, g: Signals)
    requires 0.0 <= s.approvalBiasMax && s.contextBudgetMin <= s.contextBudgetRelaxedMax
    ensures var p := Derived(s, g);
            var free := Derived(s.(approvalBiasMax := 2.0, contextBudgetMin := 0.0, contextBudgetRelaxedMax := 1.0), g);
            && p.approvalEscalationBias == Min(s.approvalBiasMax, free.approvalEscalationBias)
            && s.contextBudgetMin <= p.contextBudgetRatio <= s.contextBudgetRelaxedMax
            && (s.contextBudgetMin <= free.contextBudgetRatio <= s.contextBudgetRelaxedMax ==>
                  p.contextBudgetRatio == free.contextBudgetRatio)
            && p == free.(approvalEscalationBias := p.approvalEscalationBias,
                          contextBudgetRatio := p.contextBudgetRatio)
  {
  }

  /** What the loop of a run gets to spend under the default settings. */
  lemma DefaultBudget(g: Signals)
    ensures var p, b := Derived(DEFAULT_SETTINGS, g), ToBudget(Derived(DEFAULT_SETTINGS, g), 8000);
            && b.memoryBudget == (8000.0 * p.contextBudgetRatio).Floor && b.memoryBudget >= 2400
            && b.maxRetries == p.maxRetryDepth && b.forceDeterministic == p.deterministicMode
            && b.toolBudget == (if g.latencyPressure >= 0.7 || g.toolFailureRate > 0.5 then 1 else 3)
  {
    DefaultRanges(g);
  }

  // ---- Cognitive budget ---------------------------------------------------

  const BASE_MEMORY_BUDGET := 8000

  datatype CognitiveBudget = CognitiveBudget(memoryBudget: int, maxRetries: int, forceDeterministic: bool,
      toolBudget: int)

  function Scaled(baseMemory: nat, ratio: real): real { baseMemory as real * ratio }

  function ToBudget(p: AdaptivePolicy, baseMemory: nat): CognitiveBudget {
    var memory := Truncate(Scaled(baseMemory, p.contextBudgetRatio));
    CognitiveBudget(if memory > 1000 then memory else 1000, p.maxRetryDepth, p.deterministicMode,
                    if p.toolParallelismLimit < 5 then p.toolParallelismLimit else 5)
  }

  /** A tighter policy never gets a larger budget. */
  lemma BudgetAntitone(p: AdaptivePolicy, q: AdaptivePolicy, baseMemory: nat)
    requires AtLeastAsTight(p, q)
    ensures var a, b := ToBudget(p, baseMemory), ToBudget(q, baseMemory);
            && b.memoryBudget <= a.memoryBudget && b.maxRetries <= a.maxRetries && b.toolBudget <= a.toolBudget
            && (a.forceDeterministic ==> b.forceDeterministic)
  {
    hide Scaled, Truncate;
    ScaledMonotone(baseMemory, q.contextBudgetRatio, p.contextBudgetRatio);
    TruncateMonotone(Scaled(baseMemory, q.contextBudgetRatio), Scaled(baseMemory, p.contextBudgetRatio));
  }

  lemma ScaledMonotone(baseMemory: nat, x: real, y: real)
    requires x <= y
    ensures Scaled(baseMemory, x) <= Scaled(baseMemory, y)
  {
    Widen(baseMemory as real, x, y);
  }

  lemma Widen(k: real, x: real, y: real)
    requires k >= 0.0 && x <= y
    ensures k * x <= k * y
  {
    assert k * (y - x) >= 0.0;
    assert k * y == k * x + k * (y - x);
  }

  // ---- Approval decisions -------------------------------------------------

  datatype CrisisType = Infrastructure | Financial | Security | Customer | Compliance

  datatype PolicyDecision = Allow | Deny | Escalate

  function ApprovalLevelDelta(c: CrisisType): int {
    match c case Infrastructure => -1 case Compliance => 1 case _ => 0
  }

  function MaxBypassLevel(c: CrisisType): int { if c == Compliance then 1 else 2 }

  datatype Incident = Incident(critical: bool, resolved: bool)

  predicate OpenCritical(incidents: seq<Incident>) { exists i | i in incidents :: i.critical && !i.resolved }

  /** What `detect_crisis` can find; an open critical incident outranks a short runway. */
  function DetectCrisis(incidents: seq<Incident>, runwayMonths: real): (crisis: Option<CrisisType>)
    ensures crisis.Some? ==> crisis.value in {Infrastructure, Financial}
  {
    if OpenCritical(incidents) then Some(Infrastructure) else if runwayMonths < 3.0 then Some(Financial) else None
  }

  class PolicyEngine {
    var activeCrisis: Option<CrisisType>

    constructor ()
      ensures activeCrisis == None
    {
      activeCrisis := None;
    }

    /** The only writer of the active crisis. */
    method ActivateCrisisIfNeeded(incidents: seq<Incident>, runwayMonths: real) returns (crisis: Option<CrisisType>)
      modifies this
      ensures activeCrisis == crisis == DetectCrisis(incidents, runwayMonths)
    {
      crisis := None;
      for k := 0 to |incidents|
        invariant crisis == None && forall j | 0 <= j < k :: !(incidents[j].critical && !incidents[j].resolved)
      {
        if incidents[k].critical && !incidents[k].resolved {
          crisis := Some(Infrastructure);
          activeCrisis := crisis;
          assert incidents[k] in incidents;
          return;
        }
      }
      if runwayMonths < 3.0 {
        crisis := Some(Financial);
      }
      activeCrisis := crisis;
    }
  }

  function EffectiveApprovalLevel(crisis: Option<CrisisType>, baseLevel: int, bias: real): int {
    var extra := Truncate(Max(0.0, bias));
    match crisis
    case None => baseLevel + extra
    case Some(c) =>
      var adjusted := baseLevel + ApprovalLevelDelta(c) + extra;
      var capped := if adjusted < MaxBypassLevel(c) then adjusted else MaxBypassLevel(c);
      if capped > 0 then capped else 0
  }

  function Evaluate(crisis: Option<CrisisType>, level: int, sessionBias: real, extraBias: real): PolicyDecision {
    var effective := EffectiveApprovalLevel(crisis, level, sessionBias + Max(0.0, extraBias));
    if effective <= 1 then Allow else if effective >= 2 then Escalate else Deny
  }

  /** More bias never turns ESCALATE into ALLOW while the crisis stays the same, and never denies. */
  lemma EvaluateMonotone(crisis: Option<CrisisType>, level: int, bias: real, bias': real, extra: real, extra': real)
    requires bias <= bias' && extra <= extra'
    ensures Evaluate(crisis, level, bias, extra) == Escalate ==> Evaluate(crisis, level, bias', extra') == Escalate
    ensures Evaluate(crisis, level, bias, extra) != Deny
  {
    TruncateMonotone(Max(0.0, bias + Max(0.0, extra)), Max(0.0, bias' + Max(0.0, extra')));
  }

  /** The chain from signals to decision: worse signals never make an escalated action pass. */
  lemma WorseSignalsNeverAllow(s: Settings, g: Signals, h: Signals, crisis: Option<CrisisType>, level: int, extra: real)
    requires AtLeastAsBad(g, h)
    requires Evaluate(crisis, level, Derived(s, g).approvalEscalationBias, extra) == Escalate
    ensures Evaluate(crisis, level, Derived(s, h).approvalEscalationBias, extra) == Escalate
  {
    DeriveAntitone(s, g, h);
    EvaluateMonotone(crisis, level, Derived(s, g).approvalEscalationBias, Derived(s, h).approvalEscalationBias,
        extra, extra);
  }

  /** Which actions pass, also in crises nothing detects: the bias counts in whole units. */
  lemma AllowedExactly(crisis: Option<CrisisType>, level: int, bias: real, extra: real)
    requires bias >= 0.0
    ensures Evaluate(crisis, level, bias, extra) == Allow <==>
              crisis == Some(Compliance)
              || level + (if extra > 0.0 then bias + extra else bias).Floor
                 + (if crisis == Some(Infrastructure) then -1 else 0) <= 1
  {
  }

  /**
   * Which actions pass in a crisis that `activate_crisis_if_needed` can set: only an open critical incident
   * counts, for one level; the compliance case of `AllowedExactly` never comes up.
   */
  lemma AllowedWhenDetected(incidents: seq<Incident>, runwayMonths: real, level: int, bias: real)
    requires bias >= 0.0
    ensures var crisis := DetectCrisis(incidents, runwayMonths);
            && crisis != Some(Compliance)
            && (Evaluate(crisis, level, bias, 0.0) == Allow <==>
                  level + bias.Floor <= if OpenCritical(incidents) then 2 else 1)
  {
    AllowedExactly(DetectCrisis(incidents, runwayMonths), level, bias, 0.0);
  }
}
