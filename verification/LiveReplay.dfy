/**
 * core/live_replay_adapter.py and core/replay_diff.py: the tools are run again into a copy of the bundle.
 * An executor that answers under the name it was asked for never drifts from the frozen outcome.
 */
module LiveReplay {
  import opened Wrappers
  import opened Json
  import opened Canonical
  import opened Persistence
  import opened FrozenReplay
  import opened Transactions

  const CTO_AGENT_TOOLS: set<string> := {"get_repo_health", "list_github_prs", "analyze_incidents", "prioritize_bugs"}

  /** Tool name, agent and parameters to the dumped result. */
  type Executor = (string, string, Option<Py>) -> ToolRecord

  function DefaultAgentId(tool: string, recordedAgent: string): string {
    if recordedAgent != "" then recordedAgent else if tool in CTO_AGENT_TOOLS then "cto" else "ceo"
  }

  ghost predicate AnswersAsAsked(run: Executor) {
    forall tool, agent, params :: run(tool, agent, params).ToolDict? && run(tool, agent, params).toolName == tool
  }

  predicate Replayable(r: ToolRecord) { r.ToolDict? && r.toolName != "" }

  /** Parameters that are no dict are dropped. */
  function DictParams(params: Option<Py>): Option<Py> {
    if params.Some? && params.value.PyDict? then params else None
  }

  function RefreshedRecord(run: Executor, r: ToolRecord): ToolRecord {
    if Replayable(r) then run(r.toolName, DefaultAgentId(r.toolName, r.agentId), DictParams(r.params)) else r
  }

  function RefreshedRecords(run: Executor, rs: seq<ToolRecord>): (out: seq<ToolRecord>)
    ensures |out| == |rs| && forall i | 0 <= i < |rs| :: out[i] == RefreshedRecord(run, rs[i])
  {
    if rs == [] then [] else RefreshedRecords(run, rs[..|rs| - 1]) + [RefreshedRecord(run, rs[|rs| - 1])]
  }

  function RefreshedSteps(run: Executor, steps: seq<Step>): (out: seq<Step>)
    ensures |out| == |steps|
    ensures forall i | 0 <= i < |steps| ::
              out[i] == steps[i].(toolResults := RefreshedRecords(run, steps[i].toolResults))
  {
    seq(|steps|, i requires 0 <= i < |steps| => steps[i].(toolResults := RefreshedRecords(run, steps[i].toolResults)))
  }

  function RefreshedBundle(run: Executor, b: Bundle): Bundle {
    if b.intentTool != "" && b.steps == [] then
      b.(steps := [Step("completed", [run(b.intentTool, DefaultAgentId(b.intentTool, ""), None)], [])])
    else b.(steps := RefreshedSteps(run, b.steps))
  }

  /** `now` is what the tool named by `was` answers to its agent and its parameters, or `was` if it names none. */
  predicate RunAgain(run: Executor, was: ToolRecord, now: ToolRecord) {
    if was.ToolDict? && was.toolName != "" then
      now == run(was.toolName,
                 if was.agentId != "" then was.agentId
                 else if was.toolName in {"get_repo_health", "list_github_prs", "analyze_incidents", "prioritize_bugs"}
                 then "cto" else "ceo",
                 match was.params case Some(PyDict(items)) => Some(PyDict(items)) case _ => None)
    else now == was
  }

  /** The deep copy that is refreshed in place. */
  class LiveBundle {
    const frozen: Bundle
    var steps: seq<Step>

    constructor (b: Bundle)
      ensures frozen == b && steps == b.steps
    {
      frozen, steps := b, b.steps;
    }

    function Value(): Bundle
      reads this
    {
      frozen.(steps := steps)
    }

    /** `_refresh_tool_results`. */
    method RefreshToolResults(run: Executor)
      requires steps == frozen.steps
      modifies this
      ensures Value() == RefreshedBundle(run, frozen)
      ensures frozen.steps == [] && frozen.intentTool != "" ==>
                steps == [Step("completed",
                               [run(frozen.intentTool,
                                    if frozen.intentTool in {"get_repo_health", "list_github_prs", "analyze_incidents",
                                                             "prioritize_bugs"} then "cto" else "ceo", None)], [])]
      ensures frozen.steps != [] || frozen.intentTool == "" ==>
                |steps| == |frozen.steps|
                && forall i | 0 <= i < |steps| ::
                     && steps[i] == frozen.steps[i].(toolResults := steps[i].toolResults)
                     && |steps[i].toolResults| == |frozen.steps[i].toolResults|
                     && forall k | 0 <= k < |steps[i].toolResults| ::
                          RunAgain(run, frozen.steps[i].toolResults[k], steps[i].toolResults[k])
    {
      if frozen.intentTool != "" && steps == [] {
        var live := run(frozen.intentTool, DefaultAgentId(frozen.intentTool, ""), None);
        steps := [Step("completed", [live], [])];
        return;
      }
      ghost var before := steps;
      for i := 0 to |steps|
        invariant |steps| == |before|
        invariant forall k | 0 <= k < |before| ::
            steps[k] == if k < i then RefreshedSteps(run, before)[k] else before[k]
      {
        var recorded := steps[i].toolResults;
        var refreshed: seq<ToolRecord> := [];
        for k := 0 to |recorded|
          invariant refreshed == RefreshedRecords(run, recorded[..k])
        {
          assert recorded[..k + 1][..k] == recorded[..k];
          if !Replayable(recorded[k]) {
            refreshed := refreshed + [recorded[k]];
            continue;
          }
          var agent := DefaultAgentId(recorded[k].toolName, recorded[k].agentId);
          var live := run(recorded[k].toolName, agent, DictParams(recorded[k].params));
          refreshed := refreshed + [live];
        }
        assert recorded[..|recorded|] == recorded;
        steps := steps[i := steps[i].(toolResults := refreshed)];
      }
      assert steps == RefreshedSteps(run, before);
    }
  }

  // ---- No drift -----------------------------------------------------------

  lemma {:induction false} SameNames(run: Executor, rs: seq<ToolRecord>, out: seq<ToolRecord>)
    requires AnswersAsAsked(run) && |out| == |rs|
    requires forall i | 0 <= i < |rs| :: out[i] == RefreshedRecord(run, rs[i])
    ensures NamesIn(out) == NamesIn(rs)
  {
    if rs != [] {
      SameNames(run, rs[1..], out[1..]);
    }
  }

  lemma {:induction false} SameStepNames(run: Executor, steps: seq<Step>, out: seq<Step>)
    requires AnswersAsAsked(run) && |out| == |steps|
    requires forall i | 0 <= i < |steps| ::
               out[i] == steps[i].(toolResults := RefreshedRecords(run, steps[i].toolResults))
    ensures StepNames(out) == StepNames(steps)
  {
    if steps != [] {
      SameNames(run, steps[0].toolResults, out[0].toolResults);
      SameStepNames(run, steps[1..], out[1..]);
    }
  }

  lemma SameToolSequence(run: Executor, b: Bundle)
    requires AnswersAsAsked(run)
    ensures ToolSequence(RefreshedBundle(run, b)) == ToolSequence(b)
  {
    var live := RefreshedBundle(run, b);
    if b.intentTool != "" && b.steps == [] {
      var record := run(b.intentTool, DefaultAgentId(b.intentTool, ""), None);
      assert live.steps[1..] == [] && live.steps[0].toolResults[1..] == [];
      assert NamesIn([record]) == [b.intentTool];
      assert StepNames(live.steps) == [b.intentTool];
    } else {
      SameStepNames(run, b.steps, live.steps);
    }
  }

  lemma SameDelegations(run: Executor, b: Bundle)
    ensures var live := RefreshedBundle(run, b);
            (forall s | s in live.steps :: "cto" !in s.delegations)
            <==> (forall s | s in b.steps :: "cto" !in s.delegations)
  {
    var live := RefreshedBundle(run, b);
    if b.intentTool == "" || b.steps != [] {
      forall i | 0 <= i < |b.steps| ensures live.steps[i].delegations == b.steps[i].delegations {
        assert live.steps[i] in live.steps && b.steps[i] in b.steps;
      }
      assert forall i | 0 <= i < |b.steps| :: live.steps[i] in live.steps && b.steps[i] in b.steps;
    }
  }

  /** The refreshed bundle replays exactly when the frozen one does, to the same outcome or the same error. */
  lemma LiveEqualsFrozen(t: Tables, run: Executor, b: Bundle)
    requires AnswersAsAsked(run)
    ensures var live := RefreshedBundle(run, b);
            && (Accepts(live) <==> Accepts(b)) && OutcomeOf(t, live) == OutcomeOf(t, b)
            && (KnownVersion(live) <==> KnownVersion(b)) && live.transitions == b.transitions
  {
    hide ConnectedPath, ToolSequence, CanFinish;
    SameToolSequence(run, b);
    SameDelegations(run, b);
  }

  // ---- The diff -----------------------------------------------------------

  datatype Change = TextChange(was: string, now: string) | ListChange(wasList: seq<string>, nowList: seq<string>)

  function DiffTexts(field: string, was: string, now: string): map<string, Change> {
    if was != now then map[field := TextChange(was, now)] else map[]
  }

  function DiffLists(field: string, was: seq<string>, now: seq<string>): map<string, Change> {
    if was != now then map[field := ListChange(was, now)] else map[]
  }

  /** `diff_canonical_outcomes`. */
  function Diff(expected: Outcome, actual: Outcome): map<string, Change> {
    DiffTexts("final_runtime_state", expected.finalState, actual.finalState)
    + DiffLists("tool_sequence", expected.tools, actual.tools)
    + DiffLists("decision_sequence", expected.decisions, actual.decisions)
    + DiffLists("side_effects", expected.effects, actual.effects)
    + DiffLists("approvals", expected.approvals, actual.approvals)
  }

  /** The drift map is empty exactly for equal outcomes. */
  lemma DiffEmptyExactly(expected: Outcome, actual: Outcome)
    ensures Diff(expected, actual) == map[] <==> expected == actual
  {
    hide Diff;
    if expected == actual {
      NoDiff(expected);
    }
    DiffExactly(expected, actual);
  }

  lemma NoDiff(o: Outcome)
    ensures Diff(o, o) == map[]
  {
  }

  lemma TextFields(expected: Outcome, actual: Outcome)
    ensures var d := Diff(expected, actual);
            && ("final_runtime_state" in d <==> expected.finalState != actual.finalState)
            && ("final_runtime_state" in d ==>
                  d["final_runtime_state"] == TextChange(expected.finalState, actual.finalState))
            && ("tool_sequence" in d <==> expected.tools != actual.tools)
            && ("tool_sequence" in d ==> d["tool_sequence"] == ListChange(expected.tools, actual.tools))
  {
  }

  lemma RecordFields(expected: Outcome, actual: Outcome)
    ensures var d := Diff(expected, actual);
            && ("decision_sequence" in d <==> expected.decisions != actual.decisions)
            && ("decision_sequence" in d ==> d["decision_sequence"] == ListChange(expected.decisions, actual.decisions))
            && ("side_effects" in d <==> expected.effects != actual.effects)
            && ("side_effects" in d ==> d["side_effects"] == ListChange(expected.effects, actual.effects))
            && ("approvals" in d <==> expected.approvals != actual.approvals)
            && ("approvals" in d ==> d["approvals"] == ListChange(expected.approvals, actual.approvals))
  {
  }

  /** A field is in the map exactly when it differs, with what was expected and what came. */
  lemma DiffExactly(expected: Outcome, actual: Outcome)
    ensures var d := Diff(expected, actual);
            && ("final_runtime_state" in d <==> expected.finalState != actual.finalState)
            && ("final_runtime_state" in d ==>
                  d["final_runtime_state"] == TextChange(expected.finalState, actual.finalState))
            && ("tool_sequence" in d <==> expected.tools != actual.tools)
            && ("tool_sequence" in d ==> d["tool_sequence"] == ListChange(expected.tools, actual.tools))
            && ("decision_sequence" in d <==> expected.decisions != actual.decisions)
            && ("decision_sequence" in d ==> d["decision_sequence"] == ListChange(expected.decisions, actual.decisions))
            && ("side_effects" in d <==> expected.effects != actual.effects)
            && ("side_effects" in d ==> d["side_effects"] == ListChange(expected.effects, actual.effects))
            && ("approvals" in d <==> expected.approvals != actual.approvals)
            && ("approvals" in d ==> d["approvals"] == ListChange(expected.approvals, actual.approvals))
  {
    hide Diff;
    TextFields(expected, actual);
    RecordFields(expected, actual);
  }

  /** `run_live_outcome`, and the drift against the frozen replay; it may modify nothing in the store. */
  method RunLiveOutcome(store: MemoryStore, run: Executor, sid: string, cid: string)
    returns (r: Result<Outcome, ReplayError>, drift: map<string, Change>)
    ensures var live := RefreshedBundle(run, BundleOf(store.View(), sid, cid));
            (r.Ok? <==> Accepts(live)) && (r.Ok? ==> r.value.tools == ToolSequence(live))
    ensures r.Ok? && ReplayOf(store.View(), sid, cid).Some? ==>
              drift == Diff(ReplayOf(store.View(), sid, cid).value, r.value)
    ensures AnswersAsAsked(run) ==>
              && (r.Ok? <==> ReplayOf(store.View(), sid, cid).Some?)
              && (r.Ok? ==> r.value == ReplayOf(store.View(), sid, cid).value)
              && (r == Err(VersionMismatch) <==> !KnownVersion(BundleOf(store.View(), sid, cid)))
              && (r == Err(UnknownState) <==>
                    KnownVersion(BundleOf(store.View(), sid, cid)) && UnknownTarget(TransitionsOf(store.View(), sid)))
              && drift == map[]
  {
    hide Accepts, UnknownTarget, KnownVersion, RefreshedBundle, ToolSequence;
    var frozen := LoadBundle(store.View(), sid, cid);
    var copy := new LiveBundle(frozen);
    copy.RefreshToolResults(run);
    if AnswersAsAsked(run) {
      LiveEqualsFrozen(store.View(), run, frozen);
    }
    r := Run(store.View(), copy.Value());
    drift := map[];
    if r.Ok? {
      var expected := RunFromSession(store.View(), sid, cid);
      if expected.Ok? {
        drift := Diff(expected.value, r.value);
        DiffEmptyExactly(expected.value, r.value);
      }
    }
  }
}
