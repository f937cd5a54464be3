/**
 * core/frozen_replay_executor.py and core/replay_validator.py: loading the bundle a session left
 * behind and replaying it. `Accepts` says declaratively which bundles replay.
 */
module FrozenReplay {
  import opened Wrappers
  import opened Json
  import opened Canonical
  import opened Seqs
  import opened RuntimeStates
  import opened Persistence
  import opened ReplayRecords

  const ORCHESTRATOR_VERSION := "rrm15-1.0.0"
  const LEGACY_VERSION := "rrm15-legacy"
  const CTO_TOOLS: seq<string> := ["get_repo_health", "list_github_prs", "analyze_incidents"]

  datatype Step = Step(runtimeState: string, toolResults: seq<ToolRecord>, delegations: seq<string>)

  /** An absent intent tool is "": every use tests for truth. */
  datatype Bundle = Bundle(session: string, correlation: string, version: string, steps: seq<Step>,
                           transitions: seq<TransitionRow>, intentTool: string)

  datatype Outcome = Outcome(finalState: string, tools: seq<string>, decisions: seq<string>,
                             effects: seq<string>, approvals: seq<string>)

  /** UnknownState is the ValueError of `RuntimeState(text)`, which no caller catches as a replay error. */
  datatype ReplayError = VersionMismatch | Integrity | UnknownState

  // ---- The bundle ---------------------------------------------------------

  function StepOf(s: Snapshot): Step {
    Step(if s.runtimeState.Some? then s.runtimeState.value else "completed", s.toolResults, s.delegations)
  }

  /** What follows the last occurrence of `sep`: `s.split(sep)[-1]` when `sep` occurs. */
  function AfterLast(s: string, sep: string): Option<string>
    requires sep != ""
  {
    if |s| < |sep| then None
    else
      var later := AfterLast(s[1..], sep);
      if later.Some? then later
      else if sep <= s then Some(s[|sep|..])
      else None
  }

  predicate OccursAt(sep: string, s: string, i: nat) { i <= |s| && sep <= s[i..] }

  /** The tail after the last occurrence, or None if there is none. */
  lemma {:induction false} AfterLastExactly(s: string, sep: string)
    requires sep != ""
    ensures match AfterLast(s, sep)
            case None => forall i: nat :: !OccursAt(sep, s, i)
            case Some(tail) =>
              var at := |s| - |tail| - |sep|;
              && 0 <= at && s[at..] == sep + tail && OccursAt(sep, s, at)
              && forall i: nat | i > at :: !OccursAt(sep, s, i)
  {
    if |s| >= |sep| {
      AfterLastExactly(s[1..], sep);
      forall i: nat | i > 0 ensures OccursAt(sep, s, i) <==> OccursAt(sep, s[1..], i - 1) {
        if i <= |s| {
          assert s[1..][i - 1..] == s[i..];
        }
      }
      var later := AfterLast(s[1..], sep);
      if later.Some? {
        var at := |s[1..]| - |later.value| - |sep|;
        assert s[1..][at..] == s[at + 1..];
        assert OccursAt(sep, s, at + 1);
      } else {
        forall i: nat ensures OccursAt(sep, s, i) ==> i == 0 {
          if i > 0 {
            assert !OccursAt(sep, s[1..], i - 1);
          }
        }
        assert s[0..] == s && (sep <= s ==> s == sep + s[|sep|..]);
      }
    }
  }

  function TextAt(payload: Py, key: string): string {
    if payload.PyDict? then LastText(payload.items, key) else ""
  }

  function LastText(items: seq<PyItem>, key: string): string {
    if items == [] then ""
    else
      var last := items[|items| - 1];
      if last.key == key then (if last.val.PyScalar? && last.val.scalar.Str? then last.val.scalar.s else "")
      else LastText(items[..|items| - 1], key)
  }

  /** The tool a founder.intent payload names: its "tool", or the tail of a "deterministic:" message. */
  function FounderIntent(payload: Py): string {
    if TextAt(payload, "tool") != "" then TextAt(payload, "tool")
    else
      match AfterLast(TextAt(payload, "message"), "deterministic:")
      case Some(tail) => tail
      case None => ""
  }

  /** The last founder.intent event decides. */
  function IntentTool(events: seq<Event>): string {
    if events == [] then ""
    else
      var last := events[|events| - 1];
      if last.eventType == "founder.intent" then FounderIntent(last.payload)
      else IntentTool(events[..|events| - 1])
  }

  function BundleVersion(t: Tables, sid: string): string {
    if sid in t.baselines && t.baselines[sid].version != "" then t.baselines[sid].version else LEGACY_VERSION
  }

  function BundleOf(t: Tables, sid: string, cid: string): Bundle {
    Bundle(sid, cid, BundleVersion(t, sid), Map((s: Snapshot) => StepOf(s), SnapshotsOf(t, sid)),
           TransitionsOf(t, sid), IntentTool(EventsByCorrelation(t, cid)))
  }

  /** What the bundle holds: a known session's version, and of each snapshot in order what the replay reads. */
  lemma BundleExactly(t: Tables, sid: string, cid: string)
    ensures var b, snaps := BundleOf(t, sid, cid), SnapshotsOf(t, sid);
            && b.session == sid && b.correlation == cid
            && b.version == (if sid in t.baselines && t.baselines[sid].version != "" then t.baselines[sid].version
                             else "rrm15-legacy")
            && |b.steps| == |snaps|
            && (forall i | 0 <= i < |snaps| ::
                  && b.steps[i].toolResults == snaps[i].toolResults && b.steps[i].delegations == snaps[i].delegations
                  && match snaps[i].runtimeState
                     case Some(state) => b.steps[i].runtimeState == state
                     case None => b.steps[i].runtimeState == "completed")
            && (forall r :: r in b.transitions <==> r in t.transitions && r.session == sid)
  {
    hide IntentTool, EventsByCorrelation;
  }

  // ---- Which bundles replay -----------------------------------------------

  predicate LegalEdge(r: TransitionRow) {
    var a, b := ParseState(r.fromState), ParseState(r.toState);
    a.Some? && b.Some? && CanStep(a.value, b.value)
  }

  /** Where a log starting in PERCEIVING ends. */
  function EndState(rows: seq<TransitionRow>): string {
    if rows == [] then "perceiving" else rows[|rows| - 1].toState
  }

  /** The rows form one walk from PERCEIVING along table edges and self loops. */
  predicate ConnectedPath(rows: seq<TransitionRow>) {
    forall i | 0 <= i < |rows| :: rows[i].fromState == EndState(rows[..i]) && LegalEdge(rows[i])
  }

  predicate CanFinish(state: string) {
    state in {"completed", "reasoning", "executing", "observing", "escalated"}
  }

  /** CanFinish is the table's rule: COMPLETED itself or a state with an edge to it. */
  lemma CanFinishIsTable(s: RuntimeState)
    ensures CanFinish(Name(s)) <==> s == Completed || Completed in ValidTransitions(s)
  {
  }

  function NamesIn(results: seq<ToolRecord>): seq<string> {
    if results == [] then []
    else if results[0].ToolDict? && results[0].toolName != "" then [results[0].toolName] + NamesIn(results[1..])
    else NamesIn(results[1..])
  }

  function StepNames(steps: seq<Step>): seq<string> {
    if steps == [] then [] else NamesIn(steps[0].toolResults) + StepNames(steps[1..])
  }

  function ToolSequence(b: Bundle): seq<string> {
    var names := StepNames(b.steps);
    if names == [] && b.intentTool != "" then [b.intentTool] else names
  }

  /** A step that delegates to the CTO needs a CTO tool somewhere in the sequence. */
  predicate DelegationsServed(b: Bundle) {
    (forall s | s in b.steps :: "cto" !in s.delegations)
    || exists tool | tool in CTO_TOOLS :: tool in ToolSequence(b)
  }

  predicate KnownVersion(b: Bundle) { b.version == LEGACY_VERSION || b.version == ORCHESTRATOR_VERSION }

  predicate NonEmpty(b: Bundle) { b.transitions != [] || b.steps != [] || b.intentTool != "" }

  predicate LastStepAgrees(b: Bundle) {
    EndState(b.transitions) == "completed" && b.steps != [] ==>
      b.steps[|b.steps| - 1].runtimeState in {"completed", "observing"}
  }

  predicate Accepts(b: Bundle) {
    && KnownVersion(b)
    && NonEmpty(b)
    && ConnectedPath(b.transitions)
    && CanFinish(EndState(b.transitions))
    && DelegationsServed(b)
    && LastStepAgrees(b)
  }

  /** The first bad row is bad because its target names no state. */
  predicate UnknownTarget(rows: seq<TransitionRow>) {
    exists i | 0 <= i < |rows| ::
      ConnectedPath(rows[..i]) && rows[i].fromState == EndState(rows[..i]) && ParseState(rows[i].toState).None?
  }

  /**
   * Which bundles replay, spelled out: a known version; a log that leads from PERCEIVING along edges of the table
   * or in place, without a gap, to a state that can complete; a CTO tool in the sequence if any step delegates to
   * the CTO; and a last snapshot that agrees with a completed log.
   */
  lemma AcceptedExactly(b: Bundle)
    ensures Accepts(b) <==>
              && b.version in {"rrm15-legacy", "rrm15-1.0.0"}
              && b.transitions != [] && b.transitions[0].fromState == "perceiving"
              && (forall i | 0 < i < |b.transitions| :: b.transitions[i].fromState == b.transitions[i - 1].toState)
              && (forall i | 0 <= i < |b.transitions| ::
                    NamedStep(b.transitions[i].fromState, b.transitions[i].toState))
              && b.transitions[|b.transitions| - 1].toState
                 in {"completed", "reasoning", "executing", "observing", "escalated"}
              && ((exists s | s in b.steps :: "cto" in s.delegations) ==>
                    exists tool | tool in ToolSequence(b) ::
                      tool in {"get_repo_health", "list_github_prs", "analyze_incidents"})
              && (b.transitions[|b.transitions| - 1].toState == "completed" && b.steps != [] ==>
                    b.steps[|b.steps| - 1].runtimeState in {"completed", "observing"})
  {
    hide ToolSequence, NamedStep, ConnectedPath;
    if b.transitions != [] {
      ConnectedByName(b.transitions);
    }
  }

  lemma ConnectedByName(rows: seq<TransitionRow>)
    requires rows != []
    ensures ConnectedPath(rows) <==>
              && rows[0].fromState == "perceiving"
              && (forall i | 0 < i < |rows| :: rows[i].fromState == rows[i - 1].toState)
              && forall i | 0 <= i < |rows| :: NamedStep(rows[i].fromState, rows[i].toState)
  {
    hide LegalEdge, NamedStep;
    forall i | 0 <= i < |rows| ensures LegalEdge(rows[i]) <==> NamedStep(rows[i].fromState, rows[i].toState) {
      LegalByName(rows[i]);
    }
    forall i | 0 <= i < |rows| ensures EndState(rows[..i]) == if i == 0 then "perceiving" else rows[i - 1].toState {
    }
  }

  lemma LegalByName(r: TransitionRow)
    ensures LegalEdge(r) <==> NamedStep(r.fromState, r.toState)
  {
    var a, b := ParseState(r.fromState), ParseState(r.toState);
    if a.Some? && b.Some? {
      ParsedName(r.fromState);
      ParsedName(r.toState);
      StepByName(a.value, b.value);
    } else {
      NamedOnly(r.fromState, r.toState);
    }
  }

  /** An accepted bundle always has transitions: PERCEIVING has no edge to COMPLETED. */
  lemma AcceptedHasTransitions(b: Bundle)
    requires Accepts(b)
    ensures b.transitions != []
  {
  }

  function OutcomeOf(t: Tables, b: Bundle): Outcome {
    Outcome("completed", ToolSequence(b),
            DecisionIds(Filter(DecisionIn(b.correlation), t.decisions)),
            EffectIds(Filter(EffectIn(b.correlation), t.effects)),
            SortTexts(ApprovalIds(Filter(ApprovalIn(b.correlation), t.approvals))))
  }

  /** The outcome reports exactly the stored records of the correlation, approvals sorted. */
  ghost predicate Reports(t: Tables, cid: string, o: Outcome) {
    && o.finalState == "completed"
    && InTableOrder(DecisionRefs(t.decisions), cid, o.decisions)
    && InTableOrder(EffectRefs(t.effects), cid, o.effects)
    && InIdOrder(ApprovalRefs(t.approvals), cid, o.approvals)
  }

  lemma OutcomeReports(t: Tables, b: Bundle)
    ensures Reports(t, b.correlation, OutcomeOf(t, b))
  {
    hide InTableOrder, InIdOrder, SortTexts, ToolSequence;
    DecisionsListed(t.decisions, b.correlation);
    EffectsListed(t.effects, b.correlation);
    ApprovalsListed(t.approvals, b.correlation);
  }

  /** `run_from_session`, as a function of the tables. */
  function ReplayOf(t: Tables, sid: string, cid: string): Option<Outcome> {
    var b := BundleOf(t, sid, cid);
    if Accepts(b) then Some(OutcomeOf(t, b)) else None
  }

  // ---- Fingerprints -------------------------------------------------------

  function Texts(xs: seq<string>): Py { PyList(Map((s: string) => Txt(s), xs)) }

  function OutcomeDump(o: Outcome): seq<PyItem> {
    [PyItem("final_runtime_state", Txt(o.finalState)), PyItem("tool_sequence", Texts(o.tools)),
     PyItem("decision_sequence", Texts(o.decisions)), PyItem("side_effects", Texts(o.effects)),
     PyItem("approvals", Texts(o.approvals))]
  }

  function Fingerprint(o: Outcome): Digest { StableHash(PyDict(OutcomeDump(o))) }

  lemma {:induction false} NormalizeTexts(xs: seq<string>, i: nat)
    requires i < |xs|
    ensures NormalizeAll(Map((s: string) => Txt(s), xs), true)[i] == Leaf(Str(xs[i]))
  {
    var ps := Map((s: string) => Txt(s), xs);
    if i > 0 {
      NormalizeTexts(xs[1..], i - 1);
      assert ps[1..] == Map((s: string) => Txt(s), xs[1..]);
    }
  }

  lemma TextsInjective(xs: seq<string>, ys: seq<string>)
    requires Normalize(Texts(xs), true) == Normalize(Texts(ys), true)
    ensures xs == ys
  {
    var ps, qs := Map((s: string) => Txt(s), xs), Map((s: string) => Txt(s), ys);
    assert NormalizeAll(ps, true) == NormalizeAll(qs, true);
    forall i | 0 <= i < |xs| ensures xs[i] == ys[i] {
      NormalizeTexts(xs, i);
      NormalizeTexts(ys, i);
    }
  }

  /** Equal fingerprints mean equal outcomes, field by field. */
  lemma FingerprintInjective(o: Outcome, o': Outcome)
    requires Fingerprint(o) == Fingerprint(o')
    ensures o == o'
  {
    hide StableHash, Texts, Normalize;
    var xs, ys := OutcomeDump(o), OutcomeDump(o');
    SameHashSameMember(xs, ys, 0);
    SameTextLeaf(o.finalState, o'.finalState);
    SameHashSameMember(xs, ys, 1);
    TextsInjective(o.tools, o'.tools);
    SameHashSameMember(xs, ys, 2);
    TextsInjective(o.decisions, o'.decisions);
    SameHashSameMember(xs, ys, 3);
    TextsInjective(o.effects, o'.effects);
    SameHashSameMember(xs, ys, 4);
    TextsInjective(o.approvals, o'.approvals);
  }

  lemma SameTextLeaf(a: string, b: string)
    requires Normalize(Txt(a), true) == Normalize(Txt(b), true)
    ensures a == b
  {
  }

  // ---- The executor -------------------------------------------------------

  method LoadSteps(snapshots: seq<Snapshot>) returns (steps: seq<Step>)
    ensures steps == Map((s: Snapshot) => StepOf(s), snapshots)
  {
    steps := [];
    for i := 0 to |snapshots|
      invariant |steps| == i && forall k | 0 <= k < i :: steps[k] == StepOf(snapshots[k])
    {
      steps := steps + [StepOf(snapshots[i])];
    }
  }

  method FindIntentTool(events: seq<Event>) returns (tool: string)
    ensures tool == IntentTool(events)
  {
    hide FounderIntent;
    tool := "";
    for i := 0 to |events|
      invariant tool == IntentTool(events[..i])
    {
      assert events[..i + 1][..i] == events[..i];
      if events[i].eventType == "founder.intent" {
        tool := FounderIntent(events[i].payload);
      }
    }
    assert events[..|events|] == events;
  }

  method LoadBundle(t: Tables, sid: string, cid: string) returns (b: Bundle)
    ensures b == BundleOf(t, sid, cid)
  {
    hide StepOf, IntentTool, EventsByCorrelation, TransitionsOf, BundleVersion;
    var steps := LoadSteps(SnapshotsOf(t, sid));
    var intentTool := FindIntentTool(EventsByCorrelation(t, cid));
    b := Bundle(sid, cid, BundleVersion(t, sid), steps, TransitionsOf(t, sid), intentTool);
  }

  /** `_replay_transitions`: step a fresh machine along the log. */
  method ReplayTransitions(sm: RuntimeStateMachine, rows: seq<TransitionRow>) returns (error: Option<ReplayError>)
    requires sm.Valid() && sm.state == Idle
    modifies sm
    ensures sm.Valid()
    ensures error.None? <==> ConnectedPath(rows)
    ensures error.None? ==> Name(sm.state) == EndState(rows)
    ensures error == Some(UnknownState) <==> UnknownTarget(rows)
    ensures error.Some? ==> error.value != VersionMismatch
  {
    var started := sm.Start();
    for i := 0 to |rows|
      invariant sm.Valid() && Name(sm.state) == EndState(rows[..i]) && ConnectedPath(rows[..i])
    {
      PrefixSteps(rows, i);
      if Name(sm.state) != rows[i].fromState {
        NotConnected(rows, i);
        return Some(Integrity);
      }
      ParseName(sm.state);
      match ParseState(rows[i].toState) {
        case None =>
          NotConnected(rows, i);
          return Some(UnknownState);
        case Some(target) =>
          ParsedName(rows[i].toState);
          var ok := sm.Transition(target);
          if !ok {
            NotConnected(rows, i);
            return Some(Integrity);
          }
      }
    }
    assert rows[..|rows|] == rows;
    assert forall i | 0 <= i < |rows| :: LegalEdge(rows[i]);
    return None;
  }

  /** The inner loop of `_collect_tool_sequence`. */
  method CollectNames(results: seq<ToolRecord>) returns (names: seq<string>)
    ensures names == NamesIn(results)
  {
    names := [];
    for k := 0 to |results|
      invariant names + NamesIn(results[k..]) == NamesIn(results)
    {
      assert results[k..][1..] == results[k + 1..];
      if results[k].ToolDict? && results[k].toolName != "" {
        names := names + [results[k].toolName];
      }
    }
  }

  method CollectToolSequence(b: Bundle) returns (names: seq<string>)
    ensures names == ToolSequence(b)
  {
    hide NamesIn;
    names := [];
    for i := 0 to |b.steps|
      invariant names + StepNames(b.steps[i..]) == StepNames(b.steps)
    {
      var found := CollectNames(b.steps[i].toolResults);
      assert b.steps[i..][1..] == b.steps[i + 1..];
      assert names + found + StepNames(b.steps[i + 1..]) == names + (found + StepNames(b.steps[i + 1..]));
      names := names + found;
    }
    if names == [] && b.intentTool != "" {
      names := names + [b.intentTool];
    }
  }

  method VerifyDelegationRouting(b: Bundle, names: seq<string>) returns (ok: bool)
    requires names == ToolSequence(b)
    ensures ok == DelegationsServed(b)
  {
    for i := 0 to |b.steps|
      invariant (forall k | 0 <= k < i :: "cto" !in b.steps[k].delegations)
                || exists tool | tool in CTO_TOOLS :: tool in names
    {
      if "cto" in b.steps[i].delegations && !exists tool | tool in CTO_TOOLS :: tool in names {
        assert b.steps[i] in b.steps;
        return false;
      }
    }
    return true;
  }

  method VerifyStepRuntimeStates(state: RuntimeState, b: Bundle) returns (ok: bool)
    requires Name(state) == EndState(b.transitions)
    ensures ok == LastStepAgrees(b)
  {
    hide EndState;
    if b.steps != [] {
      var last := b.steps[|b.steps| - 1];
      if last.runtimeState != Name(state) && state == Completed {
        if last.runtimeState !in {"completed", "observing"} {
          return false;
        }
      }
    }
    return true;
  }

  /** The end of the state machine, completed if it can be. */
  method FinishMachine(sm: RuntimeStateMachine) returns (ok: bool)
    requires sm.Valid()
    modifies sm
    ensures ok == CanFinish(old(Name(sm.state))) && (ok ==> Name(sm.state) == "completed")
  {
    CanFinishIsTable(sm.state);
    if sm.state != Completed {
      var done := sm.Complete();
      return done;
    }
    return true;
  }

  method Run(t: Tables, b: Bundle) returns (r: Result<Outcome, ReplayError>)
    ensures r.Ok? <==> Accepts(b)
    ensures r.Ok? ==> r.value == OutcomeOf(t, b) && Reports(t, b.correlation, r.value)
    ensures r == Err(VersionMismatch) <==> !KnownVersion(b)
    ensures r == Err(UnknownState) <==> KnownVersion(b) && UnknownTarget(b.transitions)
  {
    hide ConnectedPath, UnknownTarget, ToolSequence, DelegationsServed, LastStepAgrees, EndState, Filter, SortTexts,
        CanFinish;
    hide Name, ValidTransitions, DecisionIds, EffectIds, ApprovalIds, Reports;
    NothingUnknown(b.transitions);
    OutcomeReports(t, b);
    if b.version != LEGACY_VERSION && b.version != ORCHESTRATOR_VERSION {
      return Err(VersionMismatch);
    }
    if b.transitions == [] && b.steps == [] && b.intentTool == "" {
      return Err(Integrity);
    }
    var sm := new RuntimeStateMachine();
    var error := ReplayTransitions(sm, b.transitions);
    if error.Some? {
      return Err(error.value);
    }
    var names := CollectToolSequence(b);
    var served := VerifyDelegationRouting(b, names);
    if !served {
      return Err(Integrity);
    }
    var agrees := VerifyStepRuntimeStates(sm.state, b);
    if !agrees {
      return Err(Integrity);
    }
    var ok := FinishMachine(sm);
    if !ok {
      return Err(Integrity);
    }
    return Ok(Outcome(Name(sm.state), names,
                      DecisionIds(Filter(DecisionIn(b.correlation), t.decisions)),
                      EffectIds(Filter(EffectIn(b.correlation), t.effects)),
                      SortTexts(ApprovalIds(Filter(ApprovalIn(b.correlation), t.approvals)))));
  }

  lemma NothingUnknown(rows: seq<TransitionRow>)
    ensures rows == [] ==> !UnknownTarget(rows)
  {
  }

  method RunFromSession(t: Tables, sid: string, cid: string) returns (r: Result<Outcome, ReplayError>)
    ensures r.Ok? <==> ReplayOf(t, sid, cid).Some?
    ensures r.Ok? ==> r.value == ReplayOf(t, sid, cid).value && Reports(t, cid, r.value)
    ensures r == Err(VersionMismatch) <==> !KnownVersion(BundleOf(t, sid, cid))
    ensures r == Err(UnknownState) <==>
              KnownVersion(BundleOf(t, sid, cid)) && UnknownTarget(TransitionsOf(t, sid))
  {
    var b := LoadBundle(t, sid, cid);
    r := Run(t, b);
  }

  /** `validate_frozen_replay`; an UnknownState escapes as an exception. */
  method ValidateFrozenReplay(t: Tables, sid: string, cid: string)
    returns (r: Result<(bool, Option<Digest>, Option<Digest>), ReplayError>)
    ensures r.Ok? && r.value.0 <==> Validates(t, sid, cid)
    ensures Validates(t, sid, cid) ==>
              r.value == (true, Some(t.baselines[sid].fingerprint), Some(t.baselines[sid].fingerprint))
    ensures r.Ok? ==> r.value.2 == if sid in t.baselines then Some(t.baselines[sid].fingerprint) else None
    ensures r.Err? ==> r == Err(UnknownState) && sid in t.baselines && UnknownTarget(TransitionsOf(t, sid))
  {
    if sid !in t.baselines {
      return Ok((false, None, None));
    }
    var base := t.baselines[sid];
    if base.version != "" && base.version != ORCHESTRATOR_VERSION && base.version != LEGACY_VERSION {
      return Ok((false, None, Some(base.fingerprint)));
    }
    var outcome := RunFromSession(t, sid, cid);
    match outcome {
      case Err(e) =>
        if e == UnknownState {
          return Err(e);
        }
        return Ok((false, None, Some(base.fingerprint)));
      case Ok(o) =>
        var fp := Fingerprint(o);
        return Ok((fp == base.fingerprint, Some(fp), Some(base.fingerprint)));
    }
  }

  /** The session replays, and to the outcome its baseline recorded. */
  predicate Validates(t: Tables, sid: string, cid: string) {
    && sid in t.baselines
    && ReplayOf(t, sid, cid).Some?
    && Fingerprint(ReplayOf(t, sid, cid).value) == t.baselines[sid].fingerprint
  }

  // ---- Proof steps for the log walk ---------------------------------------

  lemma PrefixSteps(rows: seq<TransitionRow>, i: nat)
    requires i < |rows|
    ensures ConnectedPath(rows[..i + 1]) <==>
              ConnectedPath(rows[..i]) && rows[i].fromState == EndState(rows[..i]) && LegalEdge(rows[i])
    ensures EndState(rows[..i + 1]) == rows[i].toState
  {
    var p := rows[..i + 1];
    forall k | 0 <= k <= i ensures p[k] == rows[k] && p[..k] == rows[..k] {
    }
    forall k | 0 <= k < i ensures rows[..i][k] == p[k] && rows[..i][..k] == p[..k] {
    }
  }

  lemma NotConnected(rows: seq<TransitionRow>, i: nat)
    requires i < |rows| && ConnectedPath(rows[..i])
    requires rows[i].fromState != EndState(rows[..i]) || !LegalEdge(rows[i])
    ensures !ConnectedPath(rows)
    ensures UnknownTarget(rows) <==>
              rows[i].fromState == EndState(rows[..i]) && ParseState(rows[i].toState).None?
  {
    forall k | 0 <= k < i ensures rows[..i][k] == rows[k] && rows[..i][..k] == rows[..k] {
    }
    forall k | i < k <= |rows| ensures rows[..k][i] == rows[i] && rows[..k][..i] == rows[..i] {
    }
  }

  lemma ParsedName(text: string)
    requires ParseState(text).Some?
    ensures Name(ParseState(text).value) == text
  {
  }
}
