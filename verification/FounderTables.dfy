/**
 * core/orchestrator.py: every kind of request spelled out, row by row and tool by tool, by conditions on the
 * signals, the profiles and the message alone.
 */
module FounderTables {
  import opened Wrappers
  import opened Text
  import opened Json
  import opened Canonical
  import opened Seqs
  import opened RuntimeStates
  import opened Persistence
  import F = FrozenReplay
  import opened RunLogs
  import opened FounderRequests
  import A = AdaptivePolicies
  import R = ToolReliability
  import W = ContextWindows

  // ---- The conditions -----------------------------------------------------

  /** The CEO asks for the CTO and no signal forbids delegation. */
  predicate MayDelegate(o: Oracle) {
    && "cto" in o.ceoDelegations
    && o.signals.replayConfidence >= o.settings.replayConfidenceLow
    && o.signals.driftSeverity < o.settings.driftSeverityHigh
    && o.signals.healthBand in {A.Healthy, A.Warning} && !o.signals.degradedModeActive
    && o.signals.stabilityPressure < 0.5 && o.signals.governancePressure < 0.5
  }

  function Tokens(length: nat): nat { if length / 4 > 1 then length / 4 else 1 }

  /** The 13 characters of "Active Task: " with the message, and the world state, against the policy's budget. */
  predicate TooLong(o: Oracle) {
    var use := Tokens(13 + |o.message|) + Tokens(|o.worldJson|);
    var memory := (8000.0 * A.Derived(o.settings, o.signals).contextBudgetRatio).Floor;
    (if use > 8000 then 8000 else use) > (if memory > 1000 then memory else 1000)
  }

  /** Only one tool is run. */
  predicate OneTool(o: Oracle) {
    o.signals.latencyPressure >= o.settings.latencyPressureHigh || o.signals.toolFailureRate > 0.5
  }

  /** A stored profile that makes the loop pass over its tool. */
  predicate Unreliable(o: Oracle, tool: string) {
    tool in o.profiles && o.profiles[tool].band == R.Degraded && o.profiles[tool].confidence < 0.5
  }

  lemma ConditionsMean(o: Oracle)
    ensures Delegates(o) <==> MayDelegate(o)
    ensures OverBudget(o) <==> TooLong(o)
    ensures Plan(Policy(o))
         == if OneTool(o) then ["get_repo_health"] else ["get_repo_health", "list_github_prs", "analyze_incidents"]
    ensures forall tool :: Skips(o.profiles, tool) <==> Unreliable(o, tool) && tool != "get_repo_health"
  {
    match o.signals.healthBand
    case Healthy =>
    case Warning =>
    case Degraded =>
    case Critical =>
  }

  // ---- What a request leaves ----------------------------------------------

  function NamedRows(c: Ctx, steps: seq<(string, string)>): seq<TransitionRow> {
    seq(|steps|, i requires 0 <= i < |steps| => TransitionRow(c.cid, c.sid, steps[i].0, steps[i].1))
  }

  /** The transitions by name, the tools that the snapshots name, and the records and event types. */
  datatype Story = Story(steps: seq<(string, string)>, tools: seq<string>, decisions: seq<string>,
                         effects: seq<string>, types: set<string>)

  const INTENT_TYPES: set<string> := {"founder.intent", "runtime.transition"}
  const ANALYSIS_TYPES: set<string> :=
    {"founder.intent", "runtime.transition", "adaptive.policy", "context.priority", "decision.recorded"}
  const WORK_TYPES: set<string> :=
    {"founder.intent", "runtime.transition", "adaptive.policy", "context.priority", "decision.recorded",
     "replay.snapshot", "tool.reliability"}

  function HintStory(tool: string): Story {
    Story([("perceiving", "reasoning"), ("reasoning", "waiting_tool"), ("waiting_tool", "observing")], [], [], [],
          INTENT_TYPES)
  }

  const ESCALATED_STORY := Story([("perceiving", "escalated")], [], [], [], INTENT_TYPES)

  function AnalysisStory(o: Oracle): Story {
    Story([("perceiving", "reasoning")], ["read_kpi_dashboard"], [o.ceoDecision], [], ANALYSIS_TYPES)
  }

  function WorkStory(o: Oracle, steps: seq<(string, string)>, tools: seq<string>): Story {
    Story(steps, tools, [o.ceoDecision, o.ctoDecision], [o.ctoEffect], WORK_TYPES)
  }

  const ONE_TOOL: seq<(string, string)> :=
    [("perceiving", "reasoning"), ("reasoning", "waiting_tool"), ("waiting_tool", "observing")]

  function OneToolStory(o: Oracle): Story { WorkStory(o, ONE_TOOL, ["get_repo_health", "get_repo_health"]) }

  /** Every snapshot repeats the results so far, and the last two are the same. */
  function ThreeToolStory(o: Oracle): Story {
    if !Unreliable(o, "list_github_prs") && !Unreliable(o, "analyze_incidents") then
      WorkStory(o, ONE_TOOL + [("observing", "reasoning"), ("reasoning", "waiting_tool"),
                               ("waiting_tool", "observing"),
                               ("observing", "reasoning"), ("reasoning", "waiting_tool"),
                               ("waiting_tool", "observing")],
                ["get_repo_health",
                 "get_repo_health", "list_github_prs",
                 "get_repo_health", "list_github_prs", "analyze_incidents",
                 "get_repo_health", "list_github_prs", "analyze_incidents"])
    else if !Unreliable(o, "analyze_incidents") then
      WorkStory(o, ONE_TOOL + [("observing", "reasoning"), ("reasoning", "waiting_tool"),
                               ("waiting_tool", "waiting_tool"), ("waiting_tool", "observing")],
                ["get_repo_health", "get_repo_health", "analyze_incidents", "get_repo_health", "analyze_incidents"])
    else if !Unreliable(o, "list_github_prs") then
      WorkStory(o, ONE_TOOL + [("observing", "reasoning"), ("reasoning", "waiting_tool"), ("waiting_tool", "observing"),
                               ("observing", "reasoning"), ("reasoning", "waiting_tool")],
                ["get_repo_health", "get_repo_health", "list_github_prs", "get_repo_health", "list_github_prs"])
    else
      WorkStory(o, ONE_TOOL + [("observing", "reasoning"), ("reasoning", "waiting_tool"),
                               ("waiting_tool", "waiting_tool")],
                ["get_repo_health", "get_repo_health"])
  }

  function ToolsOf(snaps: seq<Snapshot>): seq<string> { F.StepNames(Map((x: Snapshot) => F.StepOf(x), snaps)) }

  /** The tables show this story; `extra` are the event types of the close. */
  predicate Shows(t: Tables, c: Ctx, story: Story, extra: set<string>) {
    && TransitionsOf(t, c.sid) == NamedRows(c, story.steps)
    && ToolsOf(SnapshotsOf(t, c.sid)) == story.tools
    && DecidedIn(t, c.cid) == story.decisions
    && EffectsIn(t, c.cid) == story.effects
    && TypesOf(t.outbox, c.cid) == story.types + extra
  }

  /** The session closed with a baseline that validates, and replays to `tools`. */
  predicate Closed(t: Tables, c: Ctx, story: Story, tools: seq<string>) {
    && Shows(t, c, story, {"session.completed"}) && F.Validates(t, c.sid, c.cid)
    && F.ReplayOf(t, c.sid, c.cid).value == F.Outcome("completed", tools, story.decisions, story.effects, [])
  }

  predicate Unclosed(t: Tables, c: Ctx, story: Story) { Shows(t, c, story, {}) && c.sid !in t.baselines }

  // ---- The progress of a run tells the story ------------------------------

  predicate Tells(c: Ctx, g: Progress, story: Story) {
    && Rows(c, g.log) == NamedRows(c, story.steps) && ToolsOf(g.snaps) == story.tools
    && g.decisions == story.decisions && g.effects == story.effects && g.types == story.types
  }

  lemma ToldAndClosed(t: Tables, c: Ctx, g: Progress, story: Story)
    requires Tells(c, g, story) && g.intent.Some? && EndedWell(t, c, g)
    ensures var intent := F.FounderIntent(g.intent.value);
            Closed(t, c, story, if story.tools == [] && intent != "" then [intent] else story.tools)
  {
    hide F.Validates, F.ReplayOf, F.Fingerprint, Rows, NamedRows, F.StepNames, F.FounderIntent, TypesOf;
  }

  lemma ToldAndRecorded(t: Tables, c: Ctx, g: Progress, story: Story)
    requires Tells(c, g, story) && Recorded(t, c, TrailOf(g)) && c.sid !in t.baselines
    ensures Unclosed(t, c, story)
  {
    hide Rows, NamedRows, F.StepNames, TypesOf;
  }

  function NamedEdge(e: Edge): (string, string) { (Name(e.source), Name(e.target)) }

  lemma RowsByName(c: Ctx, log: seq<Edge>, steps: seq<(string, string)>)
    requires |log| == |steps| && forall i | 0 <= i < |log| :: NamedEdge(log[i]) == steps[i]
    ensures Rows(c, log) == NamedRows(c, steps)
  {
  }

  lemma HintTold(c: Ctx, tool: string)
    ensures Tells(c, DeterministicProgress(tool), HintStory(tool))
    ensures tool != "" ==> F.FounderIntent(DeterministicIntent(tool)) == tool
  {
    RowsByName(c, DETERMINISTIC_LOG, HintStory(tool).steps);
  }

  lemma EscalationTold(c: Ctx, o: Oracle)
    requires o.ceoDegraded
    ensures Tells(c, FounderProgress(o), ESCALATED_STORY)
  {
    hide Delegates, OverBudget;
    RowsByName(c, [Edge(Perceiving, Escalated)], ESCALATED_STORY.steps);
  }

  /** What a degraded run replays to, if anything: the tail of a message that asks for a tool. */
  lemma MessageIntentIs(o: Oracle)
    ensures F.FounderIntent(MessageIntent(o))
         == match F.AfterLast(o.message, "deterministic:") case Some(tail) => tail case None => ""
  {
    hide F.AfterLast;
    var items := MessageIntent(o).items;
    assert items[0] == PyItem("message", Txt(o.message)) && items[..0] == [];
    assert F.LastText(items[..0], "tool") == "";
    assert F.LastText(items, "tool") == "";
    assert F.TextAt(MessageIntent(o), "message") == o.message;
  }

  lemma AnalysisTold(c: Ctx, o: Oracle)
    requires !o.ceoDegraded && !Works(o)
    ensures Tells(c, FounderProgress(o), AnalysisStory(o))
  {
    hide Delegates, OverBudget, ToolsOf, CeoSnapshot;
    RowsByName(c, [Edge(Perceiving, Reasoning)], AnalysisStory(o).steps);
    CeoTools(o);
  }

  lemma CeoTools(o: Oracle)
    ensures ToolsOf([CeoSnapshot(o)]) == ["read_kpi_dashboard"]
  {
    hide F.NamesIn;
    AnswerNames(o, ["read_kpi_dashboard"]);
    assert CeoSnapshot(o).toolResults == Answers(o, ["read_kpi_dashboard"]);
    ToolsAppend([], CeoSnapshot(o));
    assert [] + [CeoSnapshot(o)] == [CeoSnapshot(o)];
  }

  // ---- The tool loop, tool by tool ----------------------------------------

  function Answers(o: Oracle, tools: seq<string>): seq<ToolRecord> {
    seq(|tools|, i requires 0 <= i < |tools| => Answer(o, tools[i]))
  }

  /** Each prefix of the tools in turn. */
  function Prefixes(tools: seq<string>): seq<string> {
    if tools == [] then [] else Prefixes(tools[..|tools| - 1]) + tools
  }

  lemma {:induction false} AnswerNames(o: Oracle, tools: seq<string>)
    requires "" !in tools
    ensures F.NamesIn(Answers(o, tools)) == tools
  {
    if tools != [] {
      assert tools[0] in tools;
      AnswerNames(o, tools[1..]);
      assert Answers(o, tools)[1..] == Answers(o, tools[1..]);
      assert Answers(o, tools)[0] == Answer(o, tools[0]);
    }
  }

  lemma {:induction false} StepNamesAppend(steps: seq<F.Step>, s: F.Step)
    ensures F.StepNames(steps + [s]) == F.StepNames(steps) + F.NamesIn(s.toolResults)
  {
    if steps == [] {
      assert [s][1..] == [];
    } else {
      StepNamesAppend(steps[1..], s);
      assert (steps + [s])[1..] == steps[1..] + [s];
    }
  }

  lemma ToolsAppend(snaps: seq<Snapshot>, s: Snapshot)
    ensures ToolsOf(snaps + [s]) == ToolsOf(snaps) + F.NamesIn(s.toolResults)
  {
    var f := (x: Snapshot) => F.StepOf(x);
    assert Map(f, snaps + [s]) == Map(f, snaps) + [F.StepOf(s)];
    StepNamesAppend(Map(f, snaps), F.StepOf(s));
  }

  lemma {:induction false} CumulativeTools(o: Oracle, tools: seq<string>)
    requires "" !in tools
    ensures ToolsOf(Cumulative(Answers(o, tools))) == Prefixes(tools)
  {
    hide F.NamesIn;
    if tools != [] {
      var front := tools[..|tools| - 1];
      CumulativeTools(o, front);
      var results := Answers(o, tools);
      assert results[..|results| - 1] == Answers(o, front);
      ToolsAppend(Cumulative(Answers(o, front)), Snapshot(Some("observing"), results, []));
      AnswerNames(o, tools);
    }
  }

  /** The snapshots of the loop and the CTO's own, which repeats the last results. */
  lemma CtoTools(o: Oracle, tools: seq<string>)
    requires Ran(o, Plan(Policy(o))) == Answers(o, tools) && "" !in tools
    ensures ToolsOf(CtoSnapshots(o)) == Prefixes(tools) + tools
  {
    hide Cumulative, F.NamesIn, Ran, LoopState, A.Derived, ToolsOf;
    var plan := Plan(Policy(o));
    CumulativeTools(o, tools);
    AnswerNames(o, tools);
    ToolsAppend(Cumulative(Answers(o, tools)), Snapshot(Some(Name(LoopState(o, plan))), Ran(o, plan), []));
  }

  lemma PrefixesOfThree(a: string, b: string, c: string)
    ensures Prefixes([a]) == [a] && Prefixes([a, b]) == [a, a, b] && Prefixes([a, b, c]) == [a, a, b, a, b, c]
  {
    assert [a][..0] == [] && [a, b][..1] == [a] && [a, b, c][..2] == [a, b];
  }

  /** The loop over one or three tools, with what it logs and which tools answer. */
  lemma LoopUnrolled(o: Oracle)
    ensures var plan := ["get_repo_health"];
            && ToolLog(o, plan) == [Edge(Reasoning, WaitingTool), Edge(WaitingTool, Observing)]
            && LoopState(o, plan) == Observing && Ran(o, plan) == Answers(o, plan)
  {
    hide A.Derived;
    NoTools(o);
    NextTool(o, [], "get_repo_health");
    assert [] + ["get_repo_health"] == ["get_repo_health"];
  }

  /** How a run that works for the CTO tells its story, given the loop's log and answers. */
  lemma WorkTold(c: Ctx, o: Oracle, steps: seq<(string, string)>, tools: seq<string>)
    requires Works(o) && "" !in tools
    requires Ran(o, Plan(Policy(o))) == Answers(o, tools)
    requires var log := [Edge(Perceiving, Reasoning)] + ToolLog(o, Plan(Policy(o)));
             |log| == |steps| && forall i | 0 <= i < |log| :: NamedEdge(log[i]) == steps[i]
    ensures Tells(c, FounderProgress(o), WorkStory(o, steps, Prefixes(tools) + tools))
  {
    hide Delegates, OverBudget, Ran, ToolLog, LoopState, A.Derived, CtoSnapshots, ToolsOf, NamedEdge;
    CtoTools(o, tools);
    RowsByName(c, [Edge(Perceiving, Reasoning)] + ToolLog(o, Plan(Policy(o))), steps);
  }

  lemma OneToolTold(c: Ctx, o: Oracle)
    requires Works(o) && OneTool(o)
    ensures Tells(c, FounderProgress(o), OneToolStory(o)) && !LastSkipped(o)
  {
    hide Delegates, OverBudget, Ran, ToolLog, A.Derived, CtoSnapshots, ToolsOf, FounderProgress, Tells;
    ConditionsMean(o);
    LoopUnrolled(o);
    PrefixesOfThree("get_repo_health", "", "");
    WorkTold(c, o, ONE_TOOL, ["get_repo_health"]);
    assert ["get_repo_health"] + ["get_repo_health"] == OneToolStory(o).tools;
  }

  /** After three tools: the log and the answers under each combination of skips. */
  lemma SecondTool(o: Oracle)
    ensures var plan := ["get_repo_health", "list_github_prs"];
            var again := [Edge(Reasoning, WaitingTool), Edge(WaitingTool, Observing), Edge(Observing, Reasoning),
                          Edge(Reasoning, WaitingTool)];
            if Unreliable(o, "list_github_prs") then
              ToolLog(o, plan) == again && LoopState(o, plan) == WaitingTool
              && Ran(o, plan) == Answers(o, ["get_repo_health"])
            else
              ToolLog(o, plan) == again + [Edge(WaitingTool, Observing)] && LoopState(o, plan) == Observing
              && Ran(o, plan) == Answers(o, plan)
  {
    hide A.Derived, ToolLog, Ran, LoopState;
    LoopUnrolled(o);
    NextTool(o, ["get_repo_health"], "list_github_prs");
    ConditionsMean(o);
    assert ["get_repo_health"] + ["list_github_prs"] == ["get_repo_health", "list_github_prs"];
  }

  lemma ThirdTool(o: Oracle)
    ensures var two := ["get_repo_health", "list_github_prs"];
            var plan := two + ["analyze_incidents"];
            var s := LoopState(o, two);
            && ToolLog(o, plan)
               == ToolLog(o, two) + (if s == Observing then [Edge(Observing, Reasoning), Edge(Reasoning, WaitingTool)]
                                     else [Edge(WaitingTool, WaitingTool)])
                  + (if Unreliable(o, "analyze_incidents") then [] else [Edge(WaitingTool, Observing)])
            && Ran(o, plan) == Ran(o, two) + (if Unreliable(o, "analyze_incidents") then []
                                              else [Answer(o, "analyze_incidents")])
  {
    hide A.Derived, ToolLog, Ran, LoopState;
    SecondTool(o);
    NextTool(o, ["get_repo_health", "list_github_prs"], "analyze_incidents");
    ConditionsMean(o);
  }

  /** The tools that answer. */
  function Reliable(o: Oracle): seq<string> {
    ["get_repo_health"] + (if Unreliable(o, "list_github_prs") then [] else ["list_github_prs"])
    + (if Unreliable(o, "analyze_incidents") then [] else ["analyze_incidents"])
  }

  const THREE: seq<string> := ["get_repo_health", "list_github_prs", "analyze_incidents"]

  lemma ThreeAnswers(o: Oracle)
    ensures Ran(o, THREE) == Answers(o, Reliable(o))
  {
    hide A.Derived, ToolLog, Ran, LoopState, Unreliable;
    assert ["get_repo_health", "list_github_prs"] + ["analyze_incidents"] == THREE;
    SecondTool(o);
    ThirdTool(o);
  }

  lemma ThreeNames(o: Oracle)
    ensures Prefixes(Reliable(o)) + Reliable(o) == ThreeToolStory(o).tools && "" !in Reliable(o)
  {
    hide Unreliable, Prefixes;
    var h, p, i := "get_repo_health", "list_github_prs", "analyze_incidents";
    PrefixesOfThree(h, p, i);
    PrefixesOfThree(h, i, "");
    if !Unreliable(o, p) && !Unreliable(o, i) {
      assert Reliable(o) == [h, p, i] && [h, h, p, h, p, i] + [h, p, i] == [h, h, p, h, p, i, h, p, i];
    } else if !Unreliable(o, i) {
      assert Reliable(o) == [h, i] && [h, h, i] + [h, i] == [h, h, i, h, i];
    } else if !Unreliable(o, p) {
      assert Reliable(o) == [h, p] && [h, h, p] + [h, p] == [h, h, p, h, p];
    } else {
      assert Reliable(o) == [h] && [h] + [h] == [h, h];
    }
  }

  lemma ThreeSteps(o: Oracle)
    ensures var log, steps := [Edge(Perceiving, Reasoning)] + ToolLog(o, THREE), ThreeToolStory(o).steps;
            |log| == |steps| && forall i | 0 <= i < |log| :: NamedEdge(log[i]) == steps[i]
  {
    hide A.Derived, ToolLog, Ran, LoopState, Unreliable, Answers;
    assert ["get_repo_health", "list_github_prs"] + ["analyze_incidents"] == THREE;
    SecondTool(o);
    ThirdTool(o);
  }

  lemma ThreeToolsTold(c: Ctx, o: Oracle)
    requires Works(o) && !OneTool(o)
    ensures Tells(c, FounderProgress(o), ThreeToolStory(o))
    ensures LastSkipped(o) <==> Unreliable(o, "analyze_incidents")
  {
    hide Works, Ran, ToolLog, LoopState, A.Derived, FounderProgress, Tells, Unreliable, Skips, OneTool;
    ConditionsMean(o);
    ThreeAnswers(o);
    ThreeNames(o);
    ThreeSteps(o);
    WorkTold(c, o, ThreeToolStory(o).steps, Reliable(o));
    StoryOfWork(o);
  }

  lemma StoryOfWork(o: Oracle)
    ensures ThreeToolStory(o) == WorkStory(o, ThreeToolStory(o).steps, ThreeToolStory(o).tools)
  {
  }

  // ---- Every kind of request ----------------------------------------------

  /** The tool a message asks for. */
  function AskedTool(message: string): seq<string> {
    match F.AfterLast(message, "deterministic:")
    case Some(tail) => if tail == "" then [] else [tail]
    case None => []
  }

  /** Delegated to a healthy CTO, within budget. */
  predicate Serves(o: Oracle) { !o.ceoDegraded && MayDelegate(o) && !o.ctoDegraded && !TooLong(o) }

  /** How a founder request ends, kind by kind. */
  ghost predicate FounderEnds(t: Tables, c: Ctx, o: Oracle, final: RuntimeState) {
    && (o.ceoDegraded ==> final == Completed && Closed(t, c, ESCALATED_STORY, AskedTool(o.message)))
    && (!o.ceoDegraded && !MayDelegate(o) ==>
          final == Completed && Closed(t, c, AnalysisStory(o), ["read_kpi_dashboard"]))
    && (!o.ceoDegraded && MayDelegate(o) && (o.ctoDegraded || TooLong(o)) ==>
          final == Failed && Unclosed(t, c, AnalysisStory(o)))
    && (Serves(o) && OneTool(o) ==>
          final == Completed && Closed(t, c, OneToolStory(o), ["get_repo_health", "get_repo_health"]))
    && (Serves(o) && !OneTool(o) ==>
          if Unreliable(o, "analyze_incidents") then final == Failed && Unclosed(t, c, ThreeToolStory(o))
          else final == Completed && Closed(t, c, ThreeToolStory(o), ThreeToolStory(o).tools))
  }

  ghost predicate HintEnds(t: Tables, c: Ctx, tool: string, final: RuntimeState) {
    final == Completed && Closed(t, c, HintStory(tool), [tool])
  }

  lemma HintShown(t: Tables, c: Ctx, tool: string)
    requires tool != "" && EndedWell(t, c, DeterministicProgress(tool))
    ensures HintEnds(t, c, tool, Completed)
  {
    hide EndedWell, Closed, F.FounderIntent, Tells;
    HintTold(c, tool);
    ToldAndClosed(t, c, DeterministicProgress(tool), HintStory(tool));
  }

  lemma FounderIntentKept(o: Oracle)
    ensures FounderProgress(o).intent == Some(MessageIntent(o))
  {
  }

  lemma FounderShown(t: Tables, c: Ctx, o: Oracle)
    requires if Completes(o) then EndedWell(t, c, FounderProgress(o))
             else Recorded(t, c, TrailOf(FounderProgress(o))) && c.sid !in t.baselines
    ensures FounderEnds(t, c, o, if Completes(o) then Completed else Failed)
  {
    hide EndedWell, Recorded, Closed, Unclosed, F.FounderIntent, F.AfterLast, Tells, FounderProgress, TooLong,
        MayDelegate, OverBudget, Delegates, Unreliable, Skips, OneTool, LastSkipped;
    var g := FounderProgress(o);
    ConditionsMean(o);
    FounderIntentKept(o);
    var story := if o.ceoDegraded then ESCALATED_STORY else if !Works(o) then AnalysisStory(o)
                 else if OneTool(o) then OneToolStory(o) else ThreeToolStory(o);
    if o.ceoDegraded {
      EscalationTold(c, o);
      MessageIntentIs(o);
    } else if !Works(o) {
      AnalysisTold(c, o);
    } else if OneTool(o) {
      OneToolTold(c, o);
    } else {
      ThreeToolsTold(c, o);
      SomeTools(o);
    }
    if Completes(o) {
      ToldAndClosed(t, c, g, story);
    } else {
      ToldAndRecorded(t, c, g, story);
    }
  }

  lemma SomeTools(o: Oracle)
    ensures ThreeToolStory(o).tools != []
  {
  }
}
