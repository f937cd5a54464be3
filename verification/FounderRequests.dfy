/**
 * core/orchestrator.py: what a founder request or a deterministic tool request records, and when it completes, as
 * functions of an arbitrary Oracle that stands for everything the outside answers.
 */
module FounderRequests {
  import opened Wrappers
  import opened Text
  import opened Json
  import opened Canonical
  import opened RuntimeStates
  import opened Persistence
  import F = FrozenReplay
  import opened RunLogs
  import A = AdaptivePolicies
  import R = ToolReliability
  import W = ContextWindows

  datatype Oracle = Oracle(
    message: string, worldJson: string, ceoDegraded: bool, settings: A.Settings, signals: A.Signals,
    ceoDelegations: seq<string>, ceoRetried: bool, ctoDegraded: bool, ctoRetried: bool,
    ceoDecision: string, ctoDecision: string, ctoEffect: string,
    profiles: map<string, R.Profile>, rounding: R.Rounding, thresholds: R.Thresholds,
    results: string -> R.ToolResult, toolData: string -> Py)

  // ---- What the oracle makes a founder request do -------------------------

  const MAX_TOKENS := 8000
  const TOOL_PLAN: seq<string> := ["get_repo_health", "list_github_prs", "analyze_incidents"]

  function Policy(o: Oracle): A.AdaptivePolicy { A.Derived(o.settings, o.signals) }

  predicate Delegates(o: Oracle) { Policy(o).delegationEnabled && "cto" in o.ceoDelegations }

  predicate OverBudget(o: Oracle) {
    !W.WithinBudget(MAX_TOKENS, W.BasicUse(MAX_TOKENS, o.message, o.worldJson),
                    A.ToBudget(Policy(o), A.BASE_MEMORY_BUDGET).memoryBudget)
  }

  function Plan(policy: A.AdaptivePolicy): seq<string> {
    if policy.toolParallelismLimit > 1 then TOOL_PLAN else TOOL_PLAN[..1]
  }

  predicate Skips(profiles: map<string, R.Profile>, tool: string) {
    && tool in profiles && profiles[tool].band == R.Degraded && profiles[tool].confidence < 0.5
    && tool != "get_repo_health"
  }

  predicate LastSkipped(o: Oracle) {
    var plan := Plan(Policy(o));
    Skips(o.profiles, plan[|plan| - 1])
  }

  predicate Completes(o: Oracle) {
    o.ceoDegraded || !Delegates(o) || (!o.ctoDegraded && !OverBudget(o) && !LastSkipped(o))
  }

  function Answer(o: Oracle, tool: string): ToolRecord { ToolDict(tool, "", None, o.toolData(tool)) }

  /** The state the tool loop is in after working through `plan`. */
  function LoopState(o: Oracle, plan: seq<string>): RuntimeState {
    if plan == [] then Reasoning else if Skips(o.profiles, plan[|plan| - 1]) then WaitingTool else Observing
  }

  /** The transitions of the tool loop: a skipped tool leaves the machine waiting. */
  function ToolLog(o: Oracle, plan: seq<string>): seq<Edge> {
    if plan == [] then []
    else
      var front, tool := plan[..|plan| - 1], plan[|plan| - 1];
      var s := LoopState(o, front);
      ToolLog(o, front)
      + (if s == Observing then [Edge(Observing, Reasoning)] else [])
      + [Edge(if s == Observing then Reasoning else s, WaitingTool)]
      + (if Skips(o.profiles, tool) then [] else [Edge(WaitingTool, Observing)])
  }

  function Ran(o: Oracle, plan: seq<string>): seq<ToolRecord> {
    if plan == [] then []
    else
      var front, tool := plan[..|plan| - 1], plan[|plan| - 1];
      Ran(o, front) + if Skips(o.profiles, tool) then [] else [Answer(o, tool)]
  }

  lemma NoTools(o: Oracle)
    ensures LoopState(o, []) == Reasoning && ToolLog(o, []) == [] && Ran(o, []) == []
  {
  }

  lemma NextTool(o: Oracle, done: seq<string>, tool: string)
    ensures LoopState(o, done) in {Reasoning, WaitingTool, Observing}
    ensures LoopState(o, done + [tool]) == if Skips(o.profiles, tool) then WaitingTool else Observing
    ensures Ran(o, done + [tool]) == if Skips(o.profiles, tool) then Ran(o, done) else Ran(o, done) + [Answer(o, tool)]
    ensures var s, again := LoopState(o, done), ToolLog(o, done);
            ToolLog(o, done + [tool]) ==
              again + (if s == Observing then [Edge(Observing, Reasoning)] else [])
              + [Edge(if s == Observing then Reasoning else s, WaitingTool)]
              + (if Skips(o.profiles, tool) then [] else [Edge(WaitingTool, Observing)])
  {
    assert (done + [tool])[..|done|] == done;
  }

  /** Every tool occurs once in the plan, so recording one result decides no later round. */
  lemma UpdateKeepsRest(profiles: map<string, R.Profile>, plan: seq<string>, i: nat, updated: R.Profile)
    requires plan <= TOOL_PLAN && i < |plan|
    ensures forall k | i < k < |plan| :: Skips(profiles[plan[i] := updated], plan[k]) == Skips(profiles, plan[k])
  {
    assert forall k | 0 <= k < |plan| :: plan[k] == TOOL_PLAN[k];
    assert forall k | i < k < |plan| :: plan[k] != plan[i];
  }

  lemma FirstToolRuns(o: Oracle, plan: seq<string>)
    requires plan != [] && plan <= TOOL_PLAN
    ensures Ran(o, plan) != [] && Ran(o, plan)[0] == Answer(o, "get_repo_health")
  {
    if |plan| > 1 {
      FirstToolRuns(o, plan[..|plan| - 1]);
    } else {
      assert plan[..0] == [];
    }
  }

  function FounderLog(o: Oracle): seq<Edge> {
    if o.ceoDegraded then [Edge(Perceiving, Escalated)]
    else [Edge(Perceiving, Reasoning)]
         + if !Delegates(o) || o.ctoDegraded || OverBudget(o) then [] else ToolLog(o, Plan(Policy(o)))
  }

  function CeoSnapshot(o: Oracle): Snapshot {
    Snapshot(Some("reasoning"), [Answer(o, "read_kpi_dashboard")], if Delegates(o) then o.ceoDelegations else [])
  }

  /** One snapshot per executed tool, each with all the results so far. */
  function Cumulative(results: seq<ToolRecord>): (r: seq<Snapshot>)
    ensures |r| == |results|
    ensures forall k | 0 <= k < |r| :: r[k] == Snapshot(Some("observing"), results[..k + 1], [])
  {
    if results == [] then []
    else Cumulative(results[..|results| - 1]) + [Snapshot(Some("observing"), results, [])]
  }

  lemma PutCumulative(snaps: seq<Snapshot>, results: seq<ToolRecord>)
    requires results != []
    requires if |results| == 1 then |snaps| == 1 else snaps == Cumulative(results[..|results| - 1])
    ensures PutSnapshot(snaps, |results| - 1, Snapshot(Some("observing"), results, [])) == Cumulative(results)
  {
  }

  /** The CTO's snapshots start at step 0 again and so replace the CEO's. */
  function CtoSnapshots(o: Oracle): seq<Snapshot> {
    var plan := Plan(Policy(o));
    Cumulative(Ran(o, plan)) + [Snapshot(Some(Name(LoopState(o, plan))), Ran(o, plan), [])]
  }

  function FounderSnapshots(o: Oracle): seq<Snapshot> {
    if o.ceoDegraded then []
    else if !Delegates(o) || o.ctoDegraded || OverBudget(o) then [CeoSnapshot(o)]
    else CtoSnapshots(o)
  }

  predicate Works(o: Oracle) { !o.ceoDegraded && Delegates(o) && !o.ctoDegraded && !OverBudget(o) }

  function MessageIntent(o: Oracle): Py { PyDict([PyItem("message", Txt(o.message))]) }

  /** The event types every founder request records before it may delegate, and those of the delegated work. */
  const CEO_TYPES: set<string> :=
    {"founder.intent", "adaptive.policy", "runtime.transition", "context.priority", "decision.recorded"}
  const CTO_TYPES: set<string> := {"replay.snapshot", "tool.reliability"}

  /** Everything a founder request records before it closes. */
  function FounderProgress(o: Oracle): Progress {
    Progress(FounderLog(o), FounderSnapshots(o), Some(MessageIntent(o)),
             if o.ceoDegraded then [] else if Works(o) then [o.ceoDecision, o.ctoDecision] else [o.ceoDecision],
             if Works(o) then [o.ctoEffect] else [],
             if o.ceoDegraded then {"founder.intent", "runtime.transition"}
             else if Works(o) then CEO_TYPES + CTO_TYPES else CEO_TYPES, 0, 0)
  }

  function DeterministicProgress(tool: string): Progress {
    Progress(DETERMINISTIC_LOG, [], Some(DeterministicIntent(tool)), [], [],
             {"runtime.transition", "founder.intent"}, 0, 0)
  }

  /** What the delegated work adds. */
  function AfterWork(o: Oracle, g: Progress): Progress {
    g.(log := g.log + ToolLog(o, Plan(Policy(o))), snaps := CtoSnapshots(o), decisions := g.decisions + [o.ctoDecision],
       effects := g.effects + [o.ctoEffect], types := g.types + CTO_TYPES)
  }

  lemma PutLast(results: seq<ToolRecord>, data: Snapshot)
    ensures PutSnapshot(Cumulative(results), |results|, data) == Cumulative(results) + [data]
  {
  }

  lemma EscalatedProgress(o: Oracle, n: nat)
    requires o.ceoDegraded
    ensures var asked := Noted(Start(), "founder.intent").(intent := Some(MessageIntent(o)));
            Like(Moved(asked, Edge(Perceiving, Escalated), n), FounderProgress(o))
  {
    hide Delegates, OverBudget;
  }

  lemma WorkedProgress(o: Oracle, g: Progress)
    requires !o.ceoDegraded && Like(g, FounderProgress(o))
    ensures g.log != [] && g.intent.Some? && g.snaps == FounderSnapshots(o) && "adaptive.policy" in g.types
  {
    hide Delegates, OverBudget, ToolLog, FounderSnapshots;
    assert "adaptive.policy" in CEO_TYPES;
  }

  lemma LoopEnds(o: Oracle)
    ensures LoopState(o, Plan(Policy(o))) == if LastSkipped(o) then WaitingTool else Observing
  {
    hide Skips, A.Derived;
  }

  lemma StepsApart(g: Progress, used: nat, step: nat)
    ensures Like(g.(used := used, step := step), g)
  {
  }

  lemma WalkStarts()
    ensures Walk([], Perceiving)
  {
  }

  /** The replay finds a CTO tool for every delegation the run of `c` recorded. */
  predicate Served(c: Ctx, g: Progress)
    requires g.intent.Some?
  {
    F.DelegationsServed(LeftBundle(c, g))
  }

  lemma NoStepsServed(c: Ctx, g: Progress)
    requires g.intent.Some? && forall x | x in g.snaps :: "cto" !in x.delegations
    ensures Served(c, g)
  {
    hide F.ToolSequence, Rows, F.FounderIntent;
  }

  /** A delegating CEO snapshot without the CTO's tools is what the replay refuses. */
  lemma LoneDelegationUnserved(c: Ctx, g: Progress, o: Oracle)
    requires g.intent.Some? && g.snaps == [CeoSnapshot(o)]
    ensures Served(c, g) <==> !Delegates(o)
  {
    hide Rows, F.FounderIntent, A.Derived;
    var b := LeftBundle(c, g);
    assert b.steps == [F.StepOf(CeoSnapshot(o))];
    assert b.steps[1..] == [];
    var results := CeoSnapshot(o).toolResults;
    assert results[1..] == [];
    assert F.NamesIn(results) == ["read_kpi_dashboard"];
    assert F.StepNames(b.steps) == ["read_kpi_dashboard"];
    assert b.steps[0] in b.steps;
  }

  /** What a request has recorded when the CEO has answered. */
  function CeoProgress(o: Oracle): Progress {
    Progress([Edge(Perceiving, Reasoning)], [CeoSnapshot(o)], Some(MessageIntent(o)), [o.ceoDecision], [], CEO_TYPES,
        0, 0)
  }

  lemma FounderShape(o: Oracle)
    requires !o.ceoDegraded
    ensures Like(FounderProgress(o), if Works(o) then AfterWork(o, CeoProgress(o)) else CeoProgress(o))
  {
    hide Delegates, OverBudget, ToolLog, CtoSnapshots, CeoSnapshot;
  }

  lemma AfterWorkLike(o: Oracle, g: Progress, h: Progress)
    requires Like(g, h)
    ensures Like(AfterWork(o, g), AfterWork(o, h))
  {
    hide ToolLog, CtoSnapshots;
  }

  lemma ServedExactly(c: Ctx, g: Progress, o: Oracle)
    requires g.intent.Some? && g.snaps == FounderSnapshots(o) && !o.ceoDegraded && !(Delegates(o) && o.ctoDegraded)
    ensures Served(c, g) <==> !(Delegates(o) && OverBudget(o))
  {
    hide Served, CeoSnapshot, OverBudget, Delegates, Ran, LoopState;
    if Delegates(o) && !OverBudget(o) {
      NoStepsServed(c, g);
    } else {
      LoneDelegationUnserved(c, g, o);
    }
  }

  const DETERMINISTIC_LOG := [Edge(Perceiving, Reasoning), Edge(Reasoning, WaitingTool), Edge(WaitingTool, Observing)]

  function DeterministicIntent(tool: string): Py {
    PyDict([PyItem("message", Txt("deterministic:" + tool)), PyItem("tool", Txt(tool))])
  }

  lemma IntentNamesTool(c: Ctx, g: Progress, tool: string)
    requires g.intent == Some(DeterministicIntent(tool)) && tool != "" && g.snaps == []
    ensures F.ToolSequence(LeftBundle(c, g)) == [tool]
  {
    hide Rows;
  }

  // ---- Inputs behind each outcome -----------------------------------------

  const CALM_SIGNALS := A.Signals(0.0, 1.0, 0.0, 0.0, 0.0, A.Healthy, false, 0, 0.0, 0.0, 0.0)

  /** A short request whose CEO delegates to a healthy CTO. */
  function CalmOracle(rounding: R.Rounding): Oracle {
    Oracle("Review the repository", "{}", false, A.DEFAULT_SETTINGS, CALM_SIGNALS, ["cto"], false, false, false,
           "ceo-decision", "cto-decision", "cto-effect", map[], rounding, R.DEFAULT_THRESHOLDS,
           (tool: string) => R.ToolResult(true, false, 0), (tool: string) => PyDict([]))
  }

  /** The same request, 16000 characters long, while the context is under pressure. */
  function LongOracle(rounding: R.Rounding): Oracle {
    CalmOracle(rounding).(message := seq(16000, _ => 'a'), signals := CALM_SIGNALS.(contextPressure := 0.85))
  }

  /** The same request after one timed-out call of the plan's last tool. */
  function SkippingOracle(rounding: R.Rounding): Oracle {
    CalmOracle(rounding).(profiles := map["analyze_incidents" := R.TimedOutProfile(rounding)])
  }

  /** Under default settings and context pressure every delegated message of 16000 characters is over budget. */
  lemma LongMessagesFail(o: Oracle)
    requires !o.ceoDegraded && Delegates(o) && !o.ctoDegraded && o.settings == A.DEFAULT_SETTINGS
    requires o.signals.contextPressure >= 0.85 && |o.message| >= 16000
    ensures OverBudget(o) && !Completes(o)
  {
    hide Delegates;
    var use := W.EstimateTokens("Active Task: " + o.message);
    assert use > 4000;
    PressedBudget(o.signals);
  }

  lemma PressedBudget(g: A.Signals)
    requires g.contextPressure >= 0.85
    ensures A.ToBudget(A.Derived(A.DEFAULT_SETTINGS, g), A.BASE_MEMORY_BUDGET).memoryBudget <= 4000
  {
    var ratio := A.Derived(A.DEFAULT_SETTINGS, g).contextBudgetRatio;
    assert ratio <= 0.5;
    assert 8000.0 * ratio <= 4000.0;
  }

  /** Delegated work that completes, and each of the three failures alone, have an input. */
  lemma EachOutcomeHappens()
    ensures R.HALF_UP.Valid()
    ensures var o := CalmOracle(R.HALF_UP); Delegates(o) && !OverBudget(o) && !LastSkipped(o) && Completes(o)
    ensures var o := CalmOracle(R.HALF_UP).(ctoDegraded := true);
            Delegates(o) && !OverBudget(o) && !LastSkipped(o) && !Completes(o)
    ensures var o := LongOracle(R.HALF_UP); Delegates(o) && OverBudget(o) && !LastSkipped(o) && !Completes(o)
    ensures var o := SkippingOracle(R.HALF_UP); Delegates(o) && !OverBudget(o) && LastSkipped(o) && !Completes(o)
  {
    R.HalfUpIsValid();
    CalmPolicies();
    R.OneTimeoutDegrades(R.HALF_UP);
    hide A.Derived, R.UpdateFromResult;
    LongMessagesFail(LongOracle(R.HALF_UP));
  }

  lemma CalmPolicies()
    ensures var p := A.Derived(A.DEFAULT_SETTINGS, CALM_SIGNALS);
            p.delegationEnabled && p.toolParallelismLimit > 1
            && A.ToBudget(p, A.BASE_MEMORY_BUDGET).memoryBudget == 8000
    ensures var p := A.Derived(A.DEFAULT_SETTINGS, CALM_SIGNALS.(contextPressure := 0.85));
            p.delegationEnabled && p.toolParallelismLimit > 1
  {
  }
}
