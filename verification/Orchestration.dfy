/**
 * core/orchestrator.py `ManualOrchestrator`: the control skeleton of a founder request and of a
 * deterministic tool request, against FounderRequests. Requests with other session and correlation ids may
 * persist anything before each of its persist calls.
 */
module Orchestration {
  import opened Wrappers
  import opened Text
  import opened Json
  import opened Canonical
  import opened RuntimeStates
  import opened Persistence
  import opened Spans
  import F = FrozenReplay
  import opened Transactions
  import opened RunLogs
  import opened FounderRequests
  import opened FounderTables
  import A = AdaptivePolicies
  import R = ToolReliability
  import W = ContextWindows

  class ManualOrchestrator {
    const store: MemoryStore
    const manager: SpanManager

    constructor (store: MemoryStore, manager: SpanManager)
      ensures this.store == store && this.manager == manager
    {
      this.store := store;
      this.manager := manager;
    }

    /** The machine and the tables are where a run of `c` with progress `g` leaves them. */
    ghost predicate Here(sm: RuntimeStateMachine, c: Ctx, g: Progress)
      reads store, sm
    {
      sm.Valid() && RunInv(store.View(), c, g) && g.used <= |sm.history| && Walk(g.log, sm.state)
    }

    lemma OpenHere(sm: RuntimeStateMachine, c: Ctx, g: Progress)
      requires Here(sm, c, g)
      ensures sm.Valid()
    {
    }

    /** A span under a fresh uuid; its end only stamps the status. */
    method Trace(kind: SpanType)
      modifies manager
    {
      var id: string := *;
      var span := manager.StartSpan(kind, id);
    }

    /** Any calls of requests with other ids, each with its own spans. */
    method Await(sid: string, cid: string) returns (ghost others: seq<Op>)
      modifies store
      ensures AllForeign(others, sid, cid) && store.View() == RunOps(old(store.View()), others)
    {
      hide PersistSpec, Foreign;
      var more: int := *;
      others := [];
      while more > 0
        invariant AllForeign(others, sid, cid) && store.View() == RunOps(old(store.View()), others)
      {
        var p: Payload, id: string, now: int, spans: seq<Span> := *, *, *, *;
        if Foreign(p, sid, cid) {
          var theirs := new SpanManager();
          theirs.pending := spans;
          var r := store.PersistRuntimeTx(theirs, p, id, now);
          RunOpsAppend(old(store.View()), others, Op(p, spans, id, now));
          others := others + [Op(p, spans, id, now)];
        }
        more := more - 1;
      }
    }

    /**
     * A persist call under a fresh uuid and the clock's time, after whatever other requests did since the
     * last one. `before` is what the call finds.
     */
    method Persist(p: Payload, ghost c: Ctx, ghost g: Progress) returns (ok: bool, ghost before: Tables, ghost op: Op)
      requires RunInv(store.View(), c, g) && Own(p, c.sid, c.cid)
      modifies store, manager
      ensures RunInv(before, c, g) && op.p == p && store.View() == Step(before, op)
      ensures ok <==> PersistSpec(before, p, op.pending, op.id, op.now).1.Some?
    {
      hide PersistSpec, RunInv;
      var others := Await(p.session, p.correlation);
      OthersKeepInv(old(store.View()), c, g, others);
      before := store.View();
      var id: string, now: int := *, *;
      op := Op(p, manager.pending, id, now);
      var r := store.PersistRuntimeTx(manager, p, id, now);
      ok := r.Ok?;
    }

    method RecordTransition(sm: RuntimeStateMachine, target: RuntimeState, sid: string, cid: string,
                            ghost c: Ctx, ghost g: Progress) returns (ok: bool, ghost g': Progress)
      requires Here(sm, c, g) && c.sid == sid && c.cid == cid
      modifies sm, store, manager
      ensures ok == CanStep(old(sm.state), target)
      ensures ok ==> sm.state == target && g' == Moved(g, Edge(old(sm.state), target), |sm.history|)
      ensures !ok ==> sm.state == old(sm.state) && g' == g
      ensures Here(sm, c, g')
    {
      hide RunInv, Step, PersistSpec;
      var source := sm.state;
      Trace(TransitionSpan);
      ok := sm.Transition(target);
      if !ok {
        return false, g;
      }
      var p := TransitionPayload(sid, cid, Edge(source, target), |sm.history|);
      var stored, before, op := Persist(p, c, g);
      RecordedTransition(before, c, g, op, Edge(source, target), |sm.history|);
      return true, Moved(g, Edge(source, target), |sm.history|);
    }

    /** A persist call whose rows the replay does not read; body and key come from outside. */
    method Note(eventType: string, sid: string, cid: string, ghost c: Ctx, ghost g: Progress,
                sm: RuntimeStateMachine) returns (ghost g': Progress)
      requires RunInv(store.View(), c, g) && c.sid == sid && c.cid == cid
      requires eventType in {"adaptive.policy", "context.priority", "tool.reliability"}
      modifies store, manager
      ensures RunInv(store.View(), c, g') && g' == Noted(g, eventType)
      ensures old(Here(sm, c, g)) ==> Here(sm, c, g')
    {
      hide RunInv, Step, PersistSpec, Walk;
      var body: Py := *;
      var key: string := *;
      var stored, before, op := Persist(Plain(sid, cid, eventType, body, key), c, g);
      Aside(before, c, g, op);
      g' := Noted(g, eventType);
    }

    method RecordIntent(body: Py, sid: string, cid: string, ghost c: Ctx, ghost g: Progress,
                        sm: RuntimeStateMachine) returns (ghost g': Progress)
      requires Here(sm, c, g) && c.sid == sid && c.cid == cid && g.intent.None? && "founder.intent" !in g.types
      modifies store, manager
      ensures Here(sm, c, g') && g' == Noted(g, "founder.intent").(intent := Some(body))
    {
      hide RunInv, Step, PersistSpec, Walk;
      var stored, before, op := Persist(Plain(sid, cid, "founder.intent", body, "founder.intent"), c, g);
      RecordedIntent(before, c, g, op, body);
      g' := Noted(g, "founder.intent").(intent := Some(body));
    }

    method RecordSnapshot(step: nat, key: string, data: Snapshot, trace: Option<RetryTrace>, sid: string, cid: string,
                          ghost c: Ctx, ghost g: Progress, sm: RuntimeStateMachine) returns (ghost g': Progress)
      requires Here(sm, c, g) && c.sid == sid && c.cid == cid && step >= g.step
      modifies store, manager
      ensures Here(sm, c, g') && g' == Snapped(g, step, data)
    {
      hide RunInv, Step, PersistSpec, Walk, PutSnapshot;
      var stored, before, op := Persist(SnapshotPayload(sid, cid, step, key, data).(retryTrace := trace), c, g);
      RecordedSnapshot(before, c, g, op, step, key, data);
      g' := Snapped(g, step, data);
    }

    /** The CEO's decision carries the snapshot of step 0. */
    method RecordCeoDecision(id: string, data: Snapshot, sid: string, cid: string, ghost c: Ctx, ghost g: Progress,
                             sm: RuntimeStateMachine) returns (ghost g': Progress)
      requires Here(sm, c, g) && c.sid == sid && c.cid == cid && id !in g.decisions
      modifies store, manager
      ensures Here(sm, c, g')
      ensures g' == Noted(g, "decision.recorded").(decisions := g.decisions + [id],
          snaps := PutSnapshot(g.snaps, 0, data))
    {
      hide RunInv, Step, PersistSpec, Walk, PutSnapshot;
      var now: int, body: Py := *, *;
      var p := Plain(sid, cid, "decision.recorded", body, DecisionName(id));
      var stored, before, op :=
        Persist(p.(decision := Some(Decision(id, cid, now)), snapshot := Some(data), step := Some(0),
                   retryTrace := Some(RetryTrace("ceo", 0))), c, g);
      RecordedDecision(before, c, g, op);
      g' := Noted(g, "decision.recorded").(decisions := g.decisions + [id], snaps := PutSnapshot(g.snaps, 0, data));
    }

    /** The specialist's decision and side effect. */
    method RecordCtoDecision(id: string, effect: string, sid: string, cid: string, ghost c: Ctx, ghost g: Progress,
                             sm: RuntimeStateMachine) returns (ghost g': Progress)
      requires Here(sm, c, g) && c.sid == sid && c.cid == cid && id !in g.decisions
      modifies store, manager
      ensures Here(sm, c, g')
      ensures g' == Noted(g, "decision.recorded").(decisions := g.decisions + [id], effects := g.effects + [effect])
    {
      hide RunInv, Step, PersistSpec, Walk;
      var now: int, body: Py := *, *;
      var p := Plain(sid, cid, "decision.recorded", body, DecisionName(id));
      var stored, before, op :=
        Persist(p.(decision := Some(Decision(id, cid, now)), effect := Some(Effect(effect, cid, now))), c, g);
      RecordedDecision(before, c, g, op);
      g' := Noted(g, "decision.recorded").(decisions := g.decisions + [id], effects := g.effects + [effect]);
    }

    /** The tool loop has worked through `done`. */
    ghost predicate Looping(o: Oracle, done: seq<string>, c: Ctx, start: Progress, g: Progress,
                            results: seq<ToolRecord>, sm: RuntimeStateMachine)
      reads store, sm
    {
      && Here(sm, c, g) && sm.state == LoopState(o, done) && results == Ran(o, done)
      && |start.snaps| == 1 && "runtime.transition" in start.types
      && g == start.(log := start.log + ToolLog(o, done), used := g.used, step := |results|,
                     snaps := if results == [] then start.snaps else Cumulative(results),
                     types := if results == [] then start.types else start.types + {"replay.snapshot"})
    }

    /** One round of the loop up to the call: back to REASONING if need be, then WAITING_TOOL. */
    method AwaitTool(sid: string, cid: string, ghost c: Ctx, ghost g: Progress, sm: RuntimeStateMachine)
      returns (ghost g': Progress)
      requires Here(sm, c, g) && c.sid == sid && c.cid == cid && sm.state in {Reasoning, WaitingTool, Observing}
      requires "runtime.transition" in g.types
      modifies sm, store, manager
      ensures Here(sm, c, g') && sm.state == WaitingTool
      ensures g' == g.(log := g.log + (if old(sm.state) == Observing then [Edge(Observing, Reasoning)] else [])
                              + [Edge(if old(sm.state) == Observing then Reasoning else old(sm.state), WaitingTool)],
                       used := g'.used)
    {
      hide RunInv, Walk;
      assert g.types + {"runtime.transition"} == g.types;
      g' := g;
      var ok: bool;
      if sm.state == Observing {
        ok, g' := RecordTransition(sm, Reasoning, sid, cid, c, g');
      }
      ok, g' := RecordTransition(sm, WaitingTool, sid, cid, c, g');
    }

    /** The rest of a round whose tool is called. */
    method CallTool(o: Oracle, tool: string, before: seq<ToolRecord>, sid: string, cid: string, ghost c: Ctx,
                    ghost g: Progress, sm: RuntimeStateMachine) returns (results: seq<ToolRecord>, ghost g': Progress)
      requires Here(sm, c, g) && c.sid == sid && c.cid == cid && sm.state == WaitingTool && g.step == |before|
      requires if before == [] then |g.snaps| == 1 else g.snaps == Cumulative(before)
      requires "runtime.transition" in g.types
      modifies sm, store, manager
      ensures Here(sm, c, g') && sm.state == Observing && results == before + [Answer(o, tool)]
      ensures g' == g.(log := g.log + [Edge(WaitingTool, Observing)], snaps := Cumulative(results), step := |results|,
                       types := g.types + {"replay.snapshot"}, used := g'.used)
    {
      hide RunInv, Walk, Cumulative;
      assert g.types + {"runtime.transition"} == g.types;
      Trace(ToolExecution);
      results := before + [Answer(o, tool)];
      assert results[..|results| - 1] == before;
      PutCumulative(g.snaps, results);
      var ok, g1 := RecordTransition(sm, Observing, sid, cid, c, g);
      var data := Snapshot(Some(Name(sm.state)), results, []);
      g' := RecordSnapshot(|before|, "replay:" + PrintNat(|before|), data, None, sid, cid, c, g1, sm);
    }

    /** One round of the loop: a skipped tool leaves the machine waiting. */
    method Round(o: Oracle, ghost done: seq<string>, tool: string, skip: bool, before: seq<ToolRecord>, sid: string,
                 cid: string, ghost c: Ctx, ghost start: Progress, ghost g: Progress, sm: RuntimeStateMachine)
      returns (results: seq<ToolRecord>, ghost g': Progress)
      requires Looping(o, done, c, start, g, before, sm) && c.sid == sid && c.cid == cid
      requires skip == Skips(o.profiles, tool)
      modifies sm, store, manager
      ensures Looping(o, done + [tool], c, start, g', results, sm)
    {
      hide RunInv, Walk, Cumulative, Skips, ToolLog, Ran, LoopState, Here;
      assert start.types + {"replay.snapshot"} + {"replay.snapshot"} == start.types + {"replay.snapshot"};
      NextTool(o, done, tool);
      results := before;
      g' := AwaitTool(sid, cid, c, g, sm);
      if !skip {
        results, g' := CallTool(o, tool, results, sid, cid, c, g', sm);
      }
    }

    /** The tool loop of `delegate_to_specialist`. */
    method RunTools(o: Oracle, plan: seq<string>, sid: string, cid: string, ghost c: Ctx, ghost g: Progress,
                    sm: RuntimeStateMachine) returns (results: seq<ToolRecord>, ghost g': Progress)
      requires Here(sm, c, g) && c.sid == sid && c.cid == cid && sm.state == Reasoning
      requires plan <= TOOL_PLAN && |g.snaps| == 1 && g.step == 0 && "runtime.transition" in g.types
      modifies sm, store, manager
      ensures Looping(o, plan, c, g, g', results, sm)
    {
      hide RunInv, Walk, Cumulative, R.UpdateFromResult, Skips, ToolLog, Ran, LoopState, Here;
      NoTools(o);
      results, g' := [], g;
      var profiles := o.profiles;
      assert Looping(o, plan[..0], c, g, g', results, sm);
      hide Looping;
      for i := 0 to |plan|
        invariant Looping(o, plan[..i], c, g, g', results, sm)
        invariant forall k | i <= k < |plan| :: Skips(profiles, plan[k]) == Skips(o.profiles, plan[k])
      {
        var tool := plan[i];
        assert plan[..i + 1] == plan[..i] + [tool];
        var skip := Skips(profiles, tool);
        results, g' := Round(o, plan[..i], tool, skip, results, sid, cid, c, g, g', sm);
        if !skip {
          var previous := if tool in profiles then Some(profiles[tool]) else None;
          var updated := R.UpdateFromResult(o.rounding, o.thresholds, previous, o.results(tool), 1.0, 0.0);
          UpdateKeepsRest(profiles, plan, i, updated);
          profiles := profiles[tool := updated];
        }
      }
      assert plan[..|plan|] == plan;
    }

    method ResolveAdaptivePolicy(o: Oracle, sid: string, cid: string, ghost c: Ctx, ghost g: Progress,
                                 sm: RuntimeStateMachine) returns (policy: A.AdaptivePolicy, ghost g': Progress)
      requires Here(sm, c, g) && c.sid == sid && c.cid == cid
      modifies store, manager
      ensures policy == Policy(o) && Here(sm, c, g') && g' == Noted(g, "adaptive.policy")
    {
      policy := A.Derive(o.settings, o.signals);
      g' := Note("adaptive.policy", sid, cid, c, g, sm);
    }

    /** `delegate_to_specialist` for the CTO; `raised` is the refused transition to ESCALATED. */
    method DelegateToSpecialist(o: Oracle, policy: A.AdaptivePolicy, sid: string, cid: string, ghost c: Ctx,
                                ghost g: Progress, sm: RuntimeStateMachine) returns (raised: bool, ghost g': Progress)
      requires Here(sm, c, g) && c.sid == sid && c.cid == cid && sm.state == Reasoning && policy == Policy(o)
      requires |g.snaps| == 1 && g.step == 0 && o.ctoDecision !in g.decisions && CEO_TYPES <= g.types
      modifies sm, store, manager
      ensures Here(sm, c, g') && raised == o.ctoDegraded
      ensures var works := !o.ctoDegraded && !OverBudget(o);
              && g' == (if works then AfterWork(o, g).(used := g'.used, step := g'.step) else g)
              && sm.state == if works then LoopState(o, Plan(policy)) else Reasoning
    {
      hide RunInv, Walk, Cumulative, ToolLog, Ran, LoopState, A.Derived, W.BasicUse, AfterWork;
      if o.ctoDegraded {
        var ok, g1 := RecordTransition(sm, Escalated, sid, cid, c, g);
        assert !ok;
        return true, g1;
      }
      Trace(ContextBuild);
      var extra: W.Request := *;
      var bundle := W.BuildContext(MAX_TOKENS, W.Inputs(o.message, o.worldJson, [], "", "", extra));
      var budget := A.ToBudget(policy, A.BASE_MEMORY_BUDGET);
      g' := Note("context.priority", sid, cid, c, g, sm);
      assert "context.priority" in CEO_TYPES && g.types + {"context.priority"} == g.types;
      if !W.WithinBudget(MAX_TOKENS, bundle.estimatedTokens, budget.memoryBudget) {
        return false, g';
      }
      g' := SpecialistWork(o, policy, sid, cid, c, g', sm);
      return false, g';
    }

    /** The tool loop and what follows it: reliability, the CTO's snapshot and its decision. */
    method SpecialistWork(o: Oracle, policy: A.AdaptivePolicy, sid: string, cid: string, ghost c: Ctx,
                          ghost g: Progress, sm: RuntimeStateMachine) returns (ghost g': Progress)
      requires Here(sm, c, g) && c.sid == sid && c.cid == cid && sm.state == Reasoning && policy == Policy(o)
      requires |g.snaps| == 1 && g.step == 0 && o.ctoDecision !in g.decisions && CEO_TYPES <= g.types
      modifies sm, store, manager
      ensures Here(sm, c, g') && sm.state == LoopState(o, Plan(policy))
      ensures g' == AfterWork(o, g).(used := g'.used, step := g'.step)
    {
      hide RunInv, Walk, Cumulative, ToolLog, Ran, LoopState, Here, A.Derived, PutSnapshot;
      assert "runtime.transition" in CEO_TYPES;
      var results, g1 := RunTools(o, Plan(policy), sid, cid, c, g, sm);
      FirstToolRuns(o, Plan(policy));
      var g2 := ReportWork(o, results, sid, cid, c, g1, sm);
      PutLast(results, Snapshot(Some(Name(sm.state)), results, []));
      g' := RecordCtoDecision(o.ctoDecision, o.ctoEffect, sid, cid, c, g2, sm);
      assert g'.types == g.types + CTO_TYPES;
    }

    /** The reliability update, the CTO's snapshot and, after a retry, a new policy. */
    method ReportWork(o: Oracle, results: seq<ToolRecord>, sid: string, cid: string, ghost c: Ctx, ghost g: Progress,
                      sm: RuntimeStateMachine) returns (ghost g': Progress)
      requires Here(sm, c, g) && c.sid == sid && c.cid == cid && g.step == |results| && "adaptive.policy" in g.types
      modifies store, manager
      ensures Here(sm, c, g')
      ensures g' == g.(snaps := PutSnapshot(g.snaps, |results|, Snapshot(Some(Name(sm.state)), results, [])),
                       types := g.types + CTO_TYPES, step := |results| + 1)
    {
      hide RunInv, Walk, PutSnapshot;
      g' := Note("tool.reliability", sid, cid, c, g, sm);
      var data := Snapshot(Some(Name(sm.state)), results, []);
      var key := "replay:" + PrintNat(|results|) + ":cto";
      g' := RecordSnapshot(|results|, key, data, Some(RetryTrace("cto", |results|)), sid, cid, c, g', sm);
      assert g'.types == g.types + CTO_TYPES;
      if o.ctoRetried {
        Trace(Retry);
        g' := Note("adaptive.policy", sid, cid, c, g', sm);
        assert g'.types == g.types + CTO_TYPES;
      }
    }

    method RunCeoAnalysis(o: Oracle, policy: A.AdaptivePolicy, sid: string, cid: string, ghost c: Ctx,
                          ghost g: Progress, sm: RuntimeStateMachine)
      returns (delegations: seq<string>, ghost g': Progress)
      requires Here(sm, c, g) && c.sid == sid && c.cid == cid && sm.state == Reasoning && policy == Policy(o)
      requires g.snaps == [] && o.ceoDecision !in g.decisions && "adaptive.policy" in g.types
      modifies store, manager
      ensures Here(sm, c, g') && delegations == if Delegates(o) then o.ceoDelegations else []
      ensures g' == g.(snaps := [CeoSnapshot(o)], decisions := g.decisions + [o.ceoDecision],
                       types := g.types + {"context.priority", "decision.recorded"})
    {
      hide RunInv, Walk, A.Derived;
      Trace(ContextBuild);
      g' := Note("context.priority", sid, cid, c, g, sm);
      Trace(ToolExecution);
      delegations := o.ceoDelegations;
      if !(policy.delegationEnabled && "cto" in delegations) {
        delegations := [];
      }
      if o.ceoRetried {
        g' := Note("adaptive.policy", sid, cid, c, g', sm);
        assert g'.types == g.types + {"context.priority"};
      }
      var data := Snapshot(Some(Name(sm.state)), [Answer(o, "read_kpi_dashboard")], delegations);
      g' := RecordCeoDecision(o.ceoDecision, data, sid, cid, c, g', sm);
      assert g'.types == g.types + {"context.priority", "decision.recorded"};
    }

    /** The last persist call; `ok` is false when the replay of the session was refused. */
    method Close(sid: string, cid: string, ghost c: Ctx, ghost g: Progress, ghost s: RuntimeState) returns (ok: bool)
      requires RunInv(store.View(), c, g) && c.sid == sid && c.cid == cid
      requires Walk(g.log, s) && g.log != [] && s != Completed && F.CanFinish(Name(s)) && g.intent.Some?
      modifies store, manager
      ensures ok == Served(c, g)
      ensures if ok then EndedWell(store.View(), c, g) else RunInv(store.View(), c, g)
    {
      hide RunInv, Walk, PersistSpec, F.CanFinish, F.DelegationsServed, EndedWell;
      var body: Py := *;
      ghost var before, op;
      ok, before, op := Persist(ClosePayload(sid, cid, body), c, g);
      RunClosed(before, c, g, s, op, body);
    }

    /** `_escalate_degraded`. */
    method EscalateDegraded(sid: string, cid: string, ghost c: Ctx, ghost g: Progress, sm: RuntimeStateMachine)
      returns (ghost g': Progress)
      requires Here(sm, c, g) && c.sid == sid && c.cid == cid && sm.state == Perceiving
      requires g.log == [] && g.snaps == [] && g.intent.Some?
      modifies sm, store, manager
      ensures sm.Valid() && sm.state == Completed
      ensures g' == Moved(g, Edge(Perceiving, Escalated), g'.used) && EndedWell(store.View(), c, g')
    {
      hide RunInv, EndedWell, Served, Walk;
      var ok;
      ok, g' := RecordTransition(sm, Escalated, sid, cid, c, g);
      Trace(ToolExecution);
      ok := sm.Complete();
      NoStepsServed(c, g');
      ok := Close(sid, cid, c, g', Escalated);
    }

    /** From the policy to the CEO's answer; the CEO is not degraded. */
    method Analyse(o: Oracle, sid: string, cid: string, ghost c: Ctx, ghost g: Progress, sm: RuntimeStateMachine)
      returns (policy: A.AdaptivePolicy, delegations: seq<string>, ghost g': Progress)
      requires Here(sm, c, g) && c.sid == sid && c.cid == cid && sm.state == Perceiving
      requires Like(g, Noted(Start(), "founder.intent").(intent := Some(MessageIntent(o)))) && g.step == 0
      modifies sm, store, manager
      ensures Here(sm, c, g') && Like(g', CeoProgress(o)) && g'.step == 0 && sm.state == Reasoning
      ensures policy == Policy(o) && delegations == if Delegates(o) then o.ceoDelegations else []
    {
      hide Here, A.Derived, CeoSnapshot, PutSnapshot, Delegates;
      OpenHere(sm, c, g);
      ghost var g1;
      var ok: bool;
      policy, g1 := ResolveAdaptivePolicy(o, sid, cid, c, g, sm);
      ok, g1 := RecordTransition(sm, Reasoning, sid, cid, c, g1);
      delegations, g' := RunCeoAnalysis(o, policy, sid, cid, c, g1, sm);
      assert g'.types == CEO_TYPES;
    }

    /** From the policy to the end of the delegation. */
    method Work(o: Oracle, sid: string, cid: string, ghost c: Ctx, ghost g: Progress, sm: RuntimeStateMachine)
      returns (raised: bool, ghost g': Progress)
      requires Here(sm, c, g) && c.sid == sid && c.cid == cid && sm.state == Perceiving && !o.ceoDegraded
      requires Like(g, Noted(Start(), "founder.intent").(intent := Some(MessageIntent(o)))) && g.step == 0
      requires o.ceoDecision != o.ctoDecision
      modifies sm, store, manager
      ensures Here(sm, c, g') && Like(g', FounderProgress(o))
      ensures raised <==> Delegates(o) && o.ctoDegraded
      ensures sm.state == if Works(o) then LoopState(o, Plan(Policy(o))) else Reasoning
    {
      hide Here, A.Derived, LoopState, OverBudget, FounderProgress, AfterWork, Plan;
      FounderShape(o);
      var policy, delegations, g1 := Analyse(o, sid, cid, c, g, sm);
      AfterWorkLike(o, g1, CeoProgress(o));
      raised, g' := false, g1;
      if policy.delegationEnabled && "cto" in delegations {
        raised, g' := DelegateToSpecialist(o, policy, sid, cid, c, g1, sm);
        StepsApart(AfterWork(o, g1), g'.used, g'.step);
      }
    }

    /** The end of the `try` body: complete, recompute the policy, close. */
    method Finish(sid: string, cid: string, ghost c: Ctx, ghost g: Progress, sm: RuntimeStateMachine)
      returns (ok: bool)
      requires Here(sm, c, g) && c.sid == sid && c.cid == cid && "adaptive.policy" in g.types
      requires g.log != [] && g.intent.Some? && sm.state in {Reasoning, WaitingTool, Observing}
      modifies sm, store, manager
      ensures sm.Valid() && ok == (old(sm.state) != WaitingTool && Served(c, g)) && (ok ==> sm.state == Completed)
      ensures if ok then EndedWell(store.View(), c, g) else RunInv(store.View(), c, g)
    {
      hide RunInv, EndedWell, F.DelegationsServed, Walk;
      ghost var s := sm.state;
      ok := sm.Complete();
      if !ok {
        return false;
      }
      var g1 := Note("adaptive.policy", sid, cid, c, g, sm);
      assert g1.types == g.types;
      ok := Close(sid, cid, c, g1, s);
    }

    /** The `try` body of `_run_locked`; `ok` is false when an exception reaches the handler. */
    method RunFounder(o: Oracle, sid: string, cid: string, ghost c: Ctx, sm: RuntimeStateMachine) returns (ok: bool)
      requires c == Ctx(sid, cid) && FreshIds(store.View(), c) && o.ceoDecision != o.ctoDecision
      requires sm.Valid() && sm.state == Idle && sm.history == []
      modifies sm, store, manager
      ensures sm.Valid() && ok == Completes(o) && (ok ==> sm.state == Completed)
      ensures if ok then EndedWell(store.View(), c, FounderProgress(o))
              else Recorded(store.View(), c, TrailOf(FounderProgress(o))) && sid !in store.View().baselines
    {
      hide RunInv, FreshIds, EndedWell, Recorded, FounderProgress, FounderSnapshots, Served, OverBudget, Delegates,
          LastSkipped;
      hide Walk, LoopState, A.Derived;
      ok := sm.Start();
      StartInv(store.View(), c);
      WalkStarts();
      var g := RecordIntent(MessageIntent(o), sid, cid, c, Start(), sm);
      if o.ceoDegraded {
        g := EscalateDegraded(sid, cid, c, g, sm);
        EscalatedProgress(o, g.used);
        EndedLike(store.View(), c, g, FounderProgress(o));
        return true;
      }
      var raised, g1 := Work(o, sid, cid, c, g, sm);
      if raised {
        RunRecorded(store.View(), c, g1);
        return false;
      }
      WorkedProgress(o, g1);
      LoopEnds(o);
      ServedExactly(c, g1, o);
      ok := Finish(sid, cid, c, g1, sm);
      if ok {
        EndedLike(store.View(), c, g1, FounderProgress(o));
      } else {
        RunRecorded(store.View(), c, g1);
      }
    }

    /** The deterministic path up to the tool's result. */
    method RecordDeterministic(tool: string, sid: string, cid: string, ghost c: Ctx, ghost g: Progress,
                               sm: RuntimeStateMachine) returns (ghost g': Progress)
      requires Here(sm, c, g) && c.sid == sid && c.cid == cid && sm.state == Perceiving && Like(g, Start())
      modifies sm, store, manager
      ensures Here(sm, c, g') && sm.state == Observing && Like(g', DeterministicProgress(tool))
    {
      hide Here, DeterministicIntent;
      var ok: bool;
      ok, g' := RecordTransition(sm, Reasoning, sid, cid, c, g);
      g' := RecordIntent(DeterministicIntent(tool), sid, cid, c, g', sm);
      ok, g' := RecordTransition(sm, WaitingTool, sid, cid, c, g');
      Trace(ToolExecution);
      ok, g' := RecordTransition(sm, Observing, sid, cid, c, g');
      assert g'.types == {"runtime.transition", "founder.intent"};
      assert g'.log == DETERMINISTIC_LOG;
    }

    /** `run_deterministic_tool`: no branch of it can fail, and the replay reads the tool off the intent. */
    method RunDeterministicTool(tool: string, sid: string, cid: string) returns (final: RuntimeState)
      requires tool != "" && FreshIds(store.View(), Ctx(sid, cid))
      modifies store, manager
      ensures final == Completed
      ensures EndedWell(store.View(), Ctx(sid, cid), DeterministicProgress(tool))
      ensures LeftOutcome(Ctx(sid, cid), DeterministicProgress(tool)) == F.Outcome("completed", [tool], [], [], [])
    {
      hide RunInv, FreshIds, EndedWell, Served, Walk, DeterministicIntent, F.ToolSequence;
      ghost var c := Ctx(sid, cid);
      manager.BeginSession();
      Trace(Orchestration);
      var sm := new RuntimeStateMachine();
      var ok := sm.Start();
      StartInv(store.View(), c);
      WalkStarts();
      var g := RecordDeterministic(tool, sid, cid, c, Start(), sm);
      ok := sm.Complete();
      NoStepsServed(c, g);
      ok := Close(sid, cid, c, g, Observing);
      EndedLike(store.View(), c, g, DeterministicProgress(tool));
      IntentNamesTool(c, DeterministicProgress(tool), tool);
      final := sm.state;
    }

    /**
     * `_run_locked` on fresh ids, for every oracle and every interleaving with other requests: a hinted tool
     * always completes; a founder request completes exactly when `Completes` says so, and otherwise fails and
     * leaves no baseline. A completed run's log validates, and its baseline is the fingerprint of the outcome
     * named here. Either way the session's log and snapshots and the correlation's decisions, effects and event
     * types are exactly the ones named here; `HintEnds` and `FounderEnds` spell them out for every kind of request.
     */
    method RunLocked(o: Oracle, hintTool: string, sid: string, cid: string) returns (final: RuntimeState)
      requires FreshIds(store.View(), Ctx(sid, cid)) && o.ceoDecision != o.ctoDecision
      modifies store, manager
      ensures final == if hintTool != "" || Completes(o) then Completed else Failed
      ensures var g := if hintTool != "" then DeterministicProgress(hintTool) else FounderProgress(o);
              if final == Completed then EndedWell(store.View(), Ctx(sid, cid), g)
              else Recorded(store.View(), Ctx(sid, cid), TrailOf(g)) && sid !in store.View().baselines
      ensures if hintTool != "" then HintEnds(store.View(), Ctx(sid, cid), hintTool, final)
              else FounderEnds(store.View(), Ctx(sid, cid), o, final)
    {
      hide FreshIds, Recorded, EndedWell, FounderProgress, DeterministicProgress, Completes, HintEnds, FounderEnds;
      if hintTool != "" {
        final := RunDeterministicTool(hintTool, sid, cid);
        HintShown(store.View(), Ctx(sid, cid), hintTool);
        return;
      }
      manager.BeginSession();
      Trace(Orchestration);
      var sm := new RuntimeStateMachine();
      var ok := RunFounder(o, sid, cid, Ctx(sid, cid), sm);
      if !ok {
        sm.Fail();
      }
      FounderShown(store.View(), Ctx(sid, cid), o);
      final := sm.state;
    }
  }
}
