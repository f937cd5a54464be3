/** core/spans.py: the pending list and parent map of one request, and how spans reach the store. */
module Spans {
  import opened Wrappers
  import opened Persistence

  datatype SpanType = Orchestration | TransitionSpan | ToolExecution | ContextBuild | AgentReasoning
                    | ApprovalSpan | Replay | Retry

  class SpanManager {
    var pending: seq<Span>
    var orchestration: Option<string>   // the parent map; only ORCHESTRATION is ever entered in it

    constructor ()
      ensures pending == [] && orchestration == None
    {
      pending := [];
      orchestration := None;
    }

    method BeginSession()
      modifies this
      ensures pending == [] && orchestration == None
    {
      pending := [];
      orchestration := None;
    }

    method DrainPendingSpans() returns (drained: seq<Span>)
      modifies this`pending
      ensures drained == old(pending) && pending == []
    {
      drained := pending;
      pending := [];
    }

    /** `start_span` without an explicit parent; `id` is the fresh uuid. */
    method StartSpan(kind: SpanType, id: string) returns (span: Span)
      modifies this
      ensures span == Span(id, ParentFor(kind, old(orchestration)))
      ensures kind in {Orchestration, Retry} ==> span.parent == None
      ensures kind in {TransitionSpan, ToolExecution, ContextBuild, AgentReasoning, Replay, ApprovalSpan} ==>
                span.parent == old(orchestration)
      ensures pending == old(pending) + [span]
      ensures orchestration == if kind == Orchestration then Some(id) else old(orchestration)
    {
      var parent: Option<string> := None;
      if kind in {TransitionSpan, ToolExecution, ContextBuild, AgentReasoning, Replay, ApprovalSpan} {
        parent := orchestration;
      }
      span := Span(id, parent);
      pending := pending + [span];
      if kind == Orchestration {
        orchestration := Some(id);
      }
    }
  }

  /** A RETRY asks for the AGENT_REASONING entry, which nothing sets. */
  function ParentFor(kind: SpanType, orchestration: Option<string>): Option<string> {
    if kind == Orchestration || kind == Retry then None else orchestration
  }
}
