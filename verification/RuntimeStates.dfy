/** schemas/runtime.py `VALID_TRANSITIONS` and core/runtime.py `RuntimeStateMachine`. */
module RuntimeStates {
  import opened Wrappers

  datatype RuntimeState =
    | Idle | Perceiving | Reasoning | WaitingTool | WaitingApproval | Executing
    | Observing | Replanning | Escalated | Failed | Completed

  function Name(s: RuntimeState): string {
    match s
    case Idle => "idle"
    case Perceiving => "perceiving"
    case Reasoning => "reasoning"
    case WaitingTool => "waiting_tool"
    case WaitingApproval => "waiting_approval"
    case Executing => "executing"
    case Observing => "observing"
    case Replanning => "replanning"
    case Escalated => "escalated"
    case Failed => "failed"
    case Completed => "completed"
  }

  /** `RuntimeState(text)`; None is Python's ValueError. */
  function ParseState(text: string): Option<RuntimeState> {
    match text
    case "idle" => Some(Idle)
    case "perceiving" => Some(Perceiving)
    case "reasoning" => Some(Reasoning)
    case "waiting_tool" => Some(WaitingTool)
    case "waiting_approval" => Some(WaitingApproval)
    case "executing" => Some(Executing)
    case "observing" => Some(Observing)
    case "replanning" => Some(Replanning)
    case "escalated" => Some(Escalated)
    case "failed" => Some(Failed)
    case "completed" => Some(Completed)
    case _ => None
  }

  lemma ParseName(s: RuntimeState)
    ensures ParseState(Name(s)) == Some(s)
  {
  }

  function ValidTransitions(s: RuntimeState): set<RuntimeState> {
    match s
    case Idle => {Perceiving}
    case Perceiving => {Reasoning, WaitingTool, Escalated, Failed}
    case Reasoning => {WaitingTool, WaitingApproval, Executing, Replanning, Failed, Completed}
    case WaitingTool => {Observing, Failed, Replanning}
    case WaitingApproval => {Executing, Failed, Escalated}
    case Executing => {Observing, Failed, Completed}
    case Observing => {Reasoning, Replanning, Completed, Failed}
    case Replanning => {Reasoning, Escalated, Failed}
    case Escalated => {Reasoning, Failed, Completed}
    case Failed => {}
    case Completed => {}
  }

  /** `transition` accepts table edges and self loops. */
  predicate CanStep(s: RuntimeState, t: RuntimeState) { t in ValidTransitions(s) || s == t }

  /** The edges of the table by name. */
  const EDGES: set<(string, string)> :=
    {("idle", "perceiving"),
     ("perceiving", "reasoning"), ("perceiving", "waiting_tool"), ("perceiving", "escalated"), ("perceiving", "failed"),
     ("reasoning", "waiting_tool"), ("reasoning", "waiting_approval"), ("reasoning", "executing"),
     ("reasoning", "replanning"), ("reasoning", "failed"), ("reasoning", "completed"),
     ("waiting_tool", "observing"), ("waiting_tool", "failed"), ("waiting_tool", "replanning"),
     ("waiting_approval", "executing"), ("waiting_approval", "failed"), ("waiting_approval", "escalated"),
     ("executing", "observing"), ("executing", "failed"), ("executing", "completed"),
     ("observing", "reasoning"), ("observing", "replanning"), ("observing", "completed"), ("observing", "failed"),
     ("replanning", "reasoning"), ("replanning", "escalated"), ("replanning", "failed"),
     ("escalated", "reasoning"), ("escalated", "failed"), ("escalated", "completed")}

  /** An edge, or a named state standing still. */
  predicate NamedStep(a: string, b: string) { (a, b) in EDGES || (a == b && ParseState(a).Some?) }

  /** What `transition` accepts, by the names that the log stores. */
  lemma StepByName(s: RuntimeState, t: RuntimeState)
    ensures CanStep(s, t) <==> NamedStep(Name(s), Name(t))
  {
    hide CanStep, NamedStep, Name, ParseState;
    ParseName(s);
    ParseName(t);
    EdgeByName(s, t);
    assert CanStep(s, t) <==> t in ValidTransitions(s) || s == t by { StepMeans(s, t); }
    assert NamedStep(Name(s), Name(t)) <==> (Name(s), Name(t)) in EDGES || Name(s) == Name(t) by { NamedMeans(s, t); }
  }

  lemma StepMeans(s: RuntimeState, t: RuntimeState)
    ensures CanStep(s, t) <==> t in ValidTransitions(s) || s == t
  {
  }

  lemma NamedMeans(s: RuntimeState, t: RuntimeState)
    ensures NamedStep(Name(s), Name(t)) <==> (Name(s), Name(t)) in EDGES || Name(s) == Name(t)
  {
    hide Name, ParseState;
    ParseName(s);
  }

  lemma EdgeByName(s: RuntimeState, t: RuntimeState)
    ensures t in ValidTransitions(s) <==> (Name(s), Name(t)) in EDGES
  {
    match s
    case Idle =>
    case Perceiving =>
    case Reasoning =>
    case WaitingTool =>
    case WaitingApproval =>
    case Executing =>
    case Observing =>
    case Replanning =>
    case Escalated =>
    case Failed =>
    case Completed =>
  }

  lemma NamedOnly(a: string, b: string)
    requires ParseState(a).None? || ParseState(b).None?
    ensures !NamedStep(a, b)
  {
  }

  predicate CanReplan(s: RuntimeState) { s in {Reasoning, WaitingTool, Observing, Replanning} }

  class RuntimeStateMachine {
    var state: RuntimeState
    var history: seq<RuntimeState>
    var stuckCounter: nat
    const maxStuckIterations: nat := 5

    /** The history is a run of the table from IDLE, except that `fail` may cut in anywhere. */
    ghost predicate Valid()
      reads this
    {
      && state == (if history == [] then Idle else history[|history| - 1])
      && (history != [] ==> CanStep(Idle, history[0]) || history[0] == Failed)
      && forall i | 0 < i < |history| :: CanStep(history[i - 1], history[i]) || history[i] == Failed
    }

    constructor ()
      ensures Valid() && state == Idle && history == [] && stuckCounter == 0
    {
      state := Idle;
      history := [];
      stuckCounter := 0;
    }

    /** False stands for InvalidStateTransition; nothing has changed then. */
    method Transition(target: RuntimeState) returns (ok: bool)
      requires Valid()
      modifies this`state, this`history
      ensures Valid()
      ensures ok == CanStep(old(state), target)
      ensures ok ==> state == target && history == old(history) + [target]
      ensures !ok ==> state == old(state) && history == old(history)
    {
      if target !in ValidTransitions(state) && state != target {
        return false;
      }
      state := target;
      history := history + [target];
      return true;
    }

    method Start() returns (ok: bool)
      requires Valid()
      modifies this`state, this`history
      ensures Valid()
      ensures ok == (old(state) in {Idle, Perceiving})
      ensures ok ==> state == Perceiving && history == old(history) + [Perceiving]
      ensures !ok ==> state == old(state) && history == old(history)
    {
      ok := Transition(Perceiving);
    }

    method Complete() returns (ok: bool)
      requires Valid()
      modifies this`state, this`history
      ensures Valid()
      ensures ok == (old(state) in {Reasoning, Executing, Observing, Escalated, Completed})
      ensures ok ==> state == Completed && history == old(history) + [Completed]
      ensures !ok ==> state == old(state) && history == old(history)
    {
      ok := Transition(Completed);
    }

    /** Always succeeds, also from COMPLETED. */
    method Fail()
      requires Valid()
      modifies this`state, this`history
      ensures Valid() && state == Failed && history == old(history) + [Failed]
    {
      history := history + [Failed];
      state := Failed;
    }

    /**
     * The fifth call in a row without progress forces REPLANNING, which is refused (`ok` false)
     * unless the table lets the current state replan.
     */
    method DetectStuck(progressed: bool) returns (ok: bool, moved: bool)
      requires Valid()
      modifies this`state, this`history, this`stuckCounter
      ensures Valid()
      ensures stuckCounter == if progressed then 0 else old(stuckCounter) + 1
      ensures moved <==> stuckCounter >= maxStuckIterations && CanReplan(old(state))
      ensures ok <==> moved || stuckCounter < maxStuckIterations
      ensures if moved then state == Replanning && history == old(history) + [Replanning]
              else state == old(state) && history == old(history)
    {
      if progressed {
        stuckCounter := 0;
        return true, false;
      }
      stuckCounter := stuckCounter + 1;
      if stuckCounter >= maxStuckIterations {
        ok := Transition(Replanning);
        return ok, ok;
      }
      return true, false;
    }
  }

  /** From a terminal state only a self loop is left: neither can be reached from the other. */
  lemma {:induction false} TerminalStays(run: seq<RuntimeState>)
    requires run != [] && run[0] in {Failed, Completed}
    requires forall i | 0 < i < |run| :: CanStep(run[i - 1], run[i])
    ensures forall i | 0 <= i < |run| :: run[i] == run[0]
  {
    if |run| > 1 {
      assert CanStep(run[0], run[1]);
      forall i | 0 < i < |run[1..]| ensures CanStep(run[1..][i - 1], run[1..][i]) {
        assert CanStep(run[i], run[i + 1]);
      }
      TerminalStays(run[1..]);
      forall i | 0 <= i < |run| ensures run[i] == run[0] {
        if i > 0 {
          assert run[i] == run[1..][i - 1];
        }
      }
    }
  }
}
