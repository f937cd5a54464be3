/**
 * core/transaction.py and core/replay_validator.py: what a close leaves behind, whatever rows its payload
 * carries. The close replays before its rows are appended, so those rows can invalidate the baseline.
 */
module SessionCloses {
  import opened Wrappers
  import opened Json
  import opened Canonical
  import opened Seqs
  import opened Persistence
  import F = FrozenReplay
  import opened Transactions

  predicate WritesSnapshot(p: Payload) { p.snapshot.Some? && p.step.Some? }

  predicate WritesTransition(p: Payload) { p.transition.Some? && p.transition.value.session == p.session }

  /** The snapshots of the payload's session once the payload's own is written. */
  function SnapshotsAfter(t: Tables, p: Payload): seq<Snapshot> {
    if WritesSnapshot(p) then PutSnapshot(SnapshotsOf(t, p.session), p.step.value, p.snapshot.value)
    else SnapshotsOf(t, p.session)
  }

  function TransitionsAfter(t: Tables, p: Payload): seq<TransitionRow> {
    TransitionsOf(t, p.session) + if WritesTransition(p) then [p.transition.value] else []
  }

  /** The bundle the session has once the payload's rows are appended, apart from its version. */
  function BundleAfter(t: Tables, p: Payload): F.Bundle {
    F.BundleOf(t, p.session, p.correlation)
      .(steps := Map((s: Snapshot) => F.StepOf(s), SnapshotsAfter(t, p)), transitions := TransitionsAfter(t, p))
  }

  predicate AddsDecision(p: Payload) { p.decision.Some? && p.decision.value.correlation == p.correlation }

  predicate AddsEffect(p: Payload) { p.effect.Some? && p.effect.value.correlation == p.correlation }

  predicate SameTools(t: Tables, p: Payload) {
    F.ToolSequence(BundleAfter(t, p)) == F.ToolSequence(F.BundleOf(t, p.session, p.correlation))
  }

  /**
   * The call is a duplicate, or its rows change nothing the outcome shows: no decision or effect of its own
   * correlation, and a log and snapshots that still replay to the same tools.
   */
  predicate KeepsOutcome(t: Tables, p: Payload) {
    || FindByKey(t.outbox, KeyOf(p)).Some?
    || (&& !AddsDecision(p) && !AddsEffect(p)
        && F.Accepts(BundleAfter(t, p))
        && SameTools(t, p))
  }

  predicate GoesThrough(t: Tables, op: Op) { PersistSpec(t, op.p, op.pending, op.id, op.now).1.Some? }

  // ---- What the appended rows do to the replay ----------------------------

  /** Everything the replay reads once the rows of a close are appended. */
  lemma AppendedView(t: Tables, p: Payload, e: Event)
    requires IsClose(p) && e == EventOf(p, e.id, e.createdAt)
    ensures var w := AppendRows(t, p, e);
            && TransitionsOf(w, p.session) == TransitionsAfter(t, p)
            && SnapshotsOf(w, p.session) == SnapshotsAfter(t, p)
            && F.IntentTool(EventsByCorrelation(w, p.correlation))
               == F.IntentTool(EventsByCorrelation(t, p.correlation))
            && Filter(DecisionIn(p.correlation), w.decisions)
               == Filter(DecisionIn(p.correlation), t.decisions) + (if AddsDecision(p) then [p.decision.value] else [])
            && Filter(EffectIn(p.correlation), w.effects)
               == Filter(EffectIn(p.correlation), t.effects) + (if AddsEffect(p) then [p.effect.value] else [])
            && w.approvals == t.approvals && w.baselines == t.baselines
  {
    hide F.IntentTool, EventsByCorrelation, Filter, PutSnapshot, KeyOf;
    FilterAppend(IntentIn(p.correlation), t.outbox, e);
    IntentByFilter(t, AppendRows(t, p, e), p.correlation);
    if p.decision.Some? {
      FilterAppend(DecisionIn(p.correlation), t.decisions, p.decision.value);
    }
    if p.effect.Some? {
      FilterAppend(EffectIn(p.correlation), t.effects, p.effect.value);
    }
    if p.transition.Some? {
      FilterAppend(RowIn(p.session), t.transitions, p.transition.value);
    }
  }

  /** The replay over the appended rows, read off the tables before them. */
  lemma AppendedReplay(t: Tables, p: Payload, e: Event)
    requires IsClose(p) && e == EventOf(p, e.id, e.createdAt)
    ensures var after := F.ReplayOf(AppendRows(t, p, e), p.session, p.correlation);
            && (after.Some? <==> F.Accepts(BundleAfter(t, p)))
            && (after.Some? ==>
                  (after.value == F.OutcomeOf(t, F.BundleOf(t, p.session, p.correlation))
                   <==> SameTools(t, p) && !AddsDecision(p) && !AddsEffect(p)))
  {
    hide AppendRows, F.IntentTool, EventsByCorrelation, Filter, PutSnapshot, F.Accepts, F.ToolSequence, KeyOf;
    hide SortTexts, F.StepOf, TransitionsOf, SnapshotsOf;
    AppendedView(t, p, e);
    assert F.BundleOf(AppendRows(t, p, e), p.session, p.correlation) == BundleAfter(t, p);
  }

  // ---- What the close leaves ----------------------------------------------

  lemma CloseBaseline(t: Tables, op: Op)
    requires IsClose(op.p) && GoesThrough(t, op)
    ensures var sid, cid := op.p.session, op.p.correlation;
            && F.ReplayOf(t, sid, cid).Some?
            && BaselineAt(Step(t, op), sid)
               == Some(Baseline(cid, F.Fingerprint(F.ReplayOf(t, sid, cid).value), F.ORCHESTRATOR_VERSION))
  {
    hide IdempotencyKey, F.ReplayOf, F.Fingerprint, AppendSpans, FindByKey, PutSnapshot;
  }

  lemma DuplicateClose(t: Tables, op: Op)
    requires IsClose(op.p) && GoesThrough(t, op) && FindByKey(t.outbox, KeyOf(op.p)).Some?
    ensures SameReplayView(t, Step(t, op), op.p.session, op.p.correlation)
  {
    hide IdempotencyKey, F.ReplayOf, F.Fingerprint, AppendSpans, FindByKey, F.IntentTool, EventsByCorrelation, Filter;
    IntentByFilter(t, Step(t, op), op.p.correlation);
  }

  /** A close under a new key appends its rows. */
  lemma ClosedTables(t: Tables, op: Op)
    requires IsClose(op.p) && GoesThrough(t, op) && FindByKey(t.outbox, KeyOf(op.p)).None?
    ensures var u := Step(t, op);
            u == AppendRows(t, op.p, EventOf(op.p, op.id, op.now))
                   .(baselines := u.baselines, spans := u.spans, health := u.health)
  {
    hide F.ReplayOf, F.Fingerprint, AppendSpans, FindByKey, PutSnapshot, KeyOf;
  }

  /** The replay after such a close is the one over the appended rows. */
  lemma ReplayAfterClose(t: Tables, op: Op)
    requires IsClose(op.p) && GoesThrough(t, op) && FindByKey(t.outbox, KeyOf(op.p)).None?
    ensures var e := EventOf(op.p, op.id, op.now);
            F.ReplayOf(Step(t, op), op.p.session, op.p.correlation)
            == F.ReplayOf(AppendRows(t, op.p, e), op.p.session, op.p.correlation)
  {
    hide F.ReplayOf, Step, GoesThrough, FindByKey, F.IntentTool, EventsByCorrelation, Filter, KeyOf, PutSnapshot;
    hide AppendRows;
    var w, u := AppendRows(t, op.p, EventOf(op.p, op.id, op.now)), Step(t, op);
    ClosedTables(t, op);
    IntentByFilter(w, u, op.p.correlation);
    KnownAfterClose(t, op);
    AppendedView(t, op.p, EventOf(op.p, op.id, op.now));
    SameReplay(w, u, op.p.session, op.p.correlation);
  }

  /** A close that goes through leaves a session that validates if and only if it keeps the outcome. */
  lemma CloseValidatesExactly(t: Tables, op: Op)
    requires IsClose(op.p) && GoesThrough(t, op)
    ensures F.Validates(Step(t, op), op.p.session, op.p.correlation) <==> KeepsOutcome(t, op.p)
  {
    hide IdempotencyKey, F.Fingerprint, AppendSpans, FindByKey, PersistSpec, KeyOf, SameReplayView, AppendRows;
    hide F.Accepts, SameTools, F.OutcomeOf, BundleAfter;
    var sid, cid := op.p.session, op.p.correlation;
    CloseBaseline(t, op);
    if FindByKey(t.outbox, KeyOf(op.p)).Some? {
      DuplicateClose(t, op);
      KnownAfterClose(t, op);
      SameReplay(t, Step(t, op), sid, cid);
    } else {
      ReplayAfterClose(t, op);
      AppendedReplay(t, op.p, EventOf(op.p, op.id, op.now));
      if F.ReplayOf(Step(t, op), sid, cid).Some? {
        SameFingerprint(F.ReplayOf(Step(t, op), sid, cid).value, F.ReplayOf(t, sid, cid).value);
      }
    }
  }

  lemma KnownAfterClose(t: Tables, op: Op)
    requires IsClose(op.p) && GoesThrough(t, op)
    ensures F.KnownVersion(F.BundleOf(t, op.p.session, op.p.correlation))
    ensures F.KnownVersion(F.BundleOf(Step(t, op), op.p.session, op.p.correlation))
  {
    hide Step, PersistSpec, F.Fingerprint, F.ConnectedPath, F.ToolSequence;
    CloseBaseline(t, op);
  }

  lemma SameFingerprint(o: F.Outcome, o': F.Outcome)
    ensures F.Fingerprint(o) == F.Fingerprint(o') <==> o == o'
  {
    hide F.Fingerprint;
    if F.Fingerprint(o) == F.Fingerprint(o') {
      F.FingerprintInjective(o, o');
    }
  }

  lemma QuietBundle(t: Tables, p: Payload)
    requires QuietClose(p)
    ensures BundleAfter(t, p) == F.BundleOf(t, p.session, p.correlation)
  {
    var b := F.BundleOf(t, p.session, p.correlation);
    assert b.transitions + [] == b.transitions;
  }

  /** A close without rows of its own always keeps the outcome. */
  lemma QuietKeepsOutcome(t: Tables, op: Op)
    requires QuietClose(op.p) && GoesThrough(t, op)
    ensures KeepsOutcome(t, op.p)
  {
    hide PersistSpec, F.Fingerprint, FindByKey, F.ConnectedPath, KeyOf, BundleAfter;
    CloseBaseline(t, op);
    QuietBundle(t, op.p);
  }

  /** A row of the close can invalidate what it stored: every decision of its own correlation does. */
  lemma DecisionInvalidates(t: Tables, op: Op)
    requires IsClose(op.p) && GoesThrough(t, op) && AddsDecision(op.p) && FindByKey(t.outbox, KeyOf(op.p)).None?
    ensures !F.Validates(Step(t, op), op.p.session, op.p.correlation)
  {
    hide KeepsOutcome, PersistSpec, F.Validates, FindByKey, KeyOf;
    assert !KeepsOutcome(t, op.p) by {
      NotKept(t, op.p);
    }
    CloseValidatesExactly(t, op);
  }

  lemma NotKept(t: Tables, p: Payload)
    requires AddsDecision(p) && FindByKey(t.outbox, KeyOf(p)).None?
    ensures !KeepsOutcome(t, p)
  {
    hide FindByKey, KeyOf, F.Accepts, F.ToolSequence;
  }

  // ---- Stability ----------------------------------------------------------

  /** Calls under other ids change neither the replay nor the baseline of a closed session. */
  lemma ForeignKeepReplay(t: Tables, ops: seq<Op>, sid: string, cid: string)
    requires AllForeign(ops, sid, cid) && F.KnownVersion(F.BundleOf(t, sid, cid))
    ensures F.ReplayOf(RunOps(t, ops), sid, cid) == F.ReplayOf(t, sid, cid)
    ensures BaselineAt(RunOps(t, ops), sid) == BaselineAt(t, sid)
  {
    hide SameReplayView, F.IntentTool, EventsByCorrelation, F.StepNames, F.ConnectedPath, RunOps, F.ReplayOf;
    ForeignKeepBaseline(t, ops, sid, cid);
    SameReplay(t, RunOps(t, ops), sid, cid);
  }

  /** Closing a session that validates rewrites its fingerprint and rates the replay 1.0. */
  lemma ClosesAgain(t: Tables, op: Op)
    requires IsClose(op.p) && F.Validates(t, op.p.session, op.p.correlation)
    ensures var sid, cid := op.p.session, op.p.correlation;
            && GoesThrough(t, op)
            && BaselineAt(Step(t, op), sid) == Some(Baseline(cid, t.baselines[sid].fingerprint, F.ORCHESTRATOR_VERSION))
            && Health(sid, cid, 1.0) in Step(t, op).health
  {
    hide IdempotencyKey, F.ReplayOf, F.Fingerprint, AppendSpans, FindByKey, Filter, PutSnapshot;
  }

  /**
   * After a close and any calls under other ids, `validate_frozen_replay` is true, with the stored fingerprint,
   * if and only if the close kept the outcome. Closing again then rewrites the same baseline, rates the replay
   * 1.0, and leaves it valid if and only if the second close keeps the outcome, as a repeated one does.
   */
  lemma BaselineStable(t: Tables, close: Op, others: seq<Op>, again: Op)
    requires IsClose(close.p) && IsClose(again.p)
    requires again.p.session == close.p.session && again.p.correlation == close.p.correlation
    requires GoesThrough(t, close) && AllForeign(others, close.p.session, close.p.correlation)
    ensures var sid, cid, closed := close.p.session, close.p.correlation, Step(t, close);
            var later := RunOps(closed, others);
            && BaselineAt(later, sid) == BaselineAt(closed, sid)
            && (F.Validates(later, sid, cid) <==> KeepsOutcome(t, close.p))
            && (KeepsOutcome(t, close.p) ==>
                  && GoesThrough(later, again)
                  && BaselineAt(Step(later, again), sid) == BaselineAt(closed, sid)
                  && Health(sid, cid, 1.0) in Step(later, again).health
                  && (F.Validates(Step(later, again), sid, cid) <==> KeepsOutcome(later, again.p)))
            && (KeyOf(again.p) == KeyOf(close.p) ==> KeepsOutcome(later, again.p))
  {
    hide Step, PersistSpec, F.ReplayOf, F.Fingerprint, RunOps, KeepsOutcome, KeyOf, GoesThrough, IsClose;
    var sid, cid, closed := close.p.session, close.p.correlation, Step(t, close);
    var later := RunOps(closed, others);
    CloseValidatesExactly(t, close);
    CloseBaseline(t, close);
    KnownAfterClose(t, close);
    ForeignKeepReplay(closed, others, sid, cid);
    if KeepsOutcome(t, close.p) {
      ClosesAgain(later, again);
      CloseValidatesExactly(later, again);
    }
    if KeyOf(again.p) == KeyOf(close.p) {
      StillDuplicate(t, close, others, again.p);
    }
  }

  lemma StillDuplicate(t: Tables, close: Op, others: seq<Op>, p: Payload)
    requires GoesThrough(t, close) && KeyOf(p) == KeyOf(close.p)
    ensures KeepsOutcome(RunOps(Step(t, close), others), p)
  {
    hide PersistSpec, Step, KeyOf, F.Accepts, F.ToolSequence;
    StoresEvent(t, close);
    OutboxGrows(Step(t, close), others);
    var e := PersistSpec(t, close.p, close.pending, close.id, close.now).1.value.event;
    assert e in RunOps(Step(t, close), others).outbox;
  }

  lemma {:induction false} OutboxGrows(t: Tables, ops: seq<Op>)
    ensures forall e | e in t.outbox :: e in RunOps(t, ops).outbox
    decreases ops
  {
    hide Step;
    if ops != [] {
      StepGrows(t, ops[0]);
      OutboxGrows(Step(t, ops[0]), ops[1..]);
    }
  }

  lemma StepGrows(t: Tables, op: Op)
    ensures forall e | e in t.outbox :: e in Step(t, op).outbox
  {
    hide IdempotencyKey, AppendSpans, F.ReplayOf, F.Fingerprint, PutSnapshot;
  }
}
