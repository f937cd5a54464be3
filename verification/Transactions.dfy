/**
 * core/transaction.py on the in-memory backend: `persist_runtime_tx`, deduplication, the session close
 * that fingerprints the replay, and what every sequence of such calls keeps.
 */
module Transactions {
  import opened Wrappers
  import opened Json
  import opened Canonical
  import opened Seqs
  import opened Persistence
  import opened FrozenReplay
  import opened Spans

  datatype Payload = Payload(
    correlation: string, session: string, eventType: string, eventPayload: Py, businessKey: Option<string>,
    decision: Option<Decision>, effect: Option<Effect>, snapshot: Option<Snapshot>, step: Option<nat>,
    transition: Option<TransitionRow>, retryTrace: Option<RetryTrace>, storeBaseline: bool,
    spans: seq<Span>, drainSpans: bool)

  /** `PersistResult`. */
  datatype Persisted = Persisted(event: Event, inserted: bool)

  function KeyOf(p: Payload): Digest { IdempotencyKey(p.correlation, p.eventType, p.eventPayload, p.businessKey) }

  predicate IsClose(p: Payload) { p.storeBaseline && p.eventType == "session.completed" }

  function EventOf(p: Payload, id: string, now: int): Event {
    Event(id, KeyOf(p), p.correlation, p.eventType, p.eventPayload, now, false)
  }

  /** `replay_confidence_from_baseline`. */
  function ReplayConfidence(fp: Digest, baseline: Option<Digest>): real {
    match baseline
    case None => 1.0
    case Some(b) => if fp == b then 1.0 else 0.0
  }

  function BaselineFp(t: Tables, sid: string): Option<Digest> {
    if sid in t.baselines then Some(t.baselines[sid].fingerprint) else None
  }

  /** `_complete_session_close`: replay, store the baseline, rate the replay against the previous one. */
  function CloseTables(t: Tables, p: Payload): Option<(Tables, Health)> {
    match ReplayOf(t, p.session, p.correlation)
    case None => None
    case Some(o) =>
      var fp := Fingerprint(o);
      Some((t.(baselines := t.baselines[p.session := Baseline(p.correlation, fp, ORCHESTRATOR_VERSION)]),
            Health(p.session, p.correlation, ReplayConfidence(fp, BaselineFp(t, p.session)))))
  }

  /** `apply_intelligence_memory`, for spans and health. */
  function Intelligence(t: Tables, spans: seq<Span>, health: Option<Health>): Tables {
    t.(spans := AppendSpans(t.spans, spans),
       health := if health.Some? then ReplaceHealth(t.health, health.value) else t.health)
  }

  function SnapshotWritten(t: Tables, p: Payload): map<string, seq<Snapshot>>
    requires p.snapshot.Some? && p.step.Some?
  {
    t.snapshots[p.session := PutSnapshot(SnapshotsOf(t, p.session), p.step.value, p.snapshot.value)]
  }

  /** `apply_memory_runtime_persist`, for the core tables. */
  function AppendRows(t: Tables, p: Payload, e: Event): Tables {
    t.(decisions := if p.decision.Some? then t.decisions + [p.decision.value] else t.decisions,
       effects := if p.effect.Some? then t.effects + [p.effect.value] else t.effects,
       outbox := t.outbox + [e],
       transitions := if p.transition.Some? then t.transitions + [p.transition.value] else t.transitions,
       snapshots := if p.snapshot.Some? && p.step.Some?
                    then SnapshotWritten(t, p)
                    else t.snapshots,
       retryTraces := if p.retryTrace.Some? then t.retryTraces + [p.retryTrace.value] else t.retryTraces)
  }

  function MergedSpans(p: Payload, pending: seq<Span>): seq<Span> {
    if p.drainSpans then p.spans + pending else p.spans
  }

  /** The tables after the call and its result; None is a close whose replay was refused. */
  function PersistSpec(t: Tables, p: Payload, pending: seq<Span>, id: string, now: int): (Tables, Option<Persisted>) {
    var existing := FindByKey(t.outbox, KeyOf(p));
    var closed := if IsClose(p) then CloseTables(t, p) else None;
    if IsClose(p) && closed.None? then (t, None)
    else
      var t1 := if closed.Some? then closed.value.0 else t;
      var health := if closed.Some? then Some(closed.value.1) else None;
      var spans := MergedSpans(p, pending);
      match existing
      case Some(e) => (Intelligence(t1, spans, health), Some(Persisted(e, false)))
      case None =>
        (Intelligence(AppendRows(t1, p, EventOf(p, id, now)), spans, health),
            Some(Persisted(EventOf(p, id, now), true)))
  }

  // ---- What a call adds ---------------------------------------------------

  /** An event as the workers must find it. */
  predicate NewEvent(e: Event, p: Payload, id: string, now: int) {
    && !e.processed && e.id == id && e.createdAt == now && e.key == KeyOf(p)
    && e.correlation == p.correlation && e.eventType == p.eventType && e.payload == p.eventPayload
  }

  /** One slot holds the payload's snapshot, gaps before it are empty, and every other slot is as it was. */
  predicate SlotWritten(before: seq<Snapshot>, after: seq<Snapshot>, step: nat, data: Snapshot) {
    && |after| == (if step < |before| then |before| else step + 1) && after[step] == data
    && (forall i | 0 <= i < |before| && i != step :: after[i] == before[i])
    && forall i | |before| <= i < step :: after[i] == Snapshot(None, [], [])
  }

  /** `u` is `t` with one row for each part of the payload, and one unprocessed event last in the outbox. */
  ghost predicate AddsRows(t: Tables, u: Tables, p: Payload, id: string, now: int) {
    && |u.outbox| == |t.outbox| + 1 && u.outbox[..|t.outbox|] == t.outbox
    && NewEvent(u.outbox[|t.outbox|], p, id, now)
    && u.decisions == t.decisions + (if p.decision.Some? then [p.decision.value] else [])
    && u.effects == t.effects + (if p.effect.Some? then [p.effect.value] else [])
    && u.transitions == t.transitions + (if p.transition.Some? then [p.transition.value] else [])
    && u.retryTraces == t.retryTraces + (if p.retryTrace.Some? then [p.retryTrace.value] else [])
    && (if p.snapshot.Some? && p.step.Some?
        then SlotWritten(SnapshotsOf(t, p.session), SnapshotsOf(u, p.session), p.step.value, p.snapshot.value)
        else SnapshotsOf(u, p.session) == SnapshotsOf(t, p.session))
    && (forall sid | sid != p.session :: SnapshotsOf(u, sid) == SnapshotsOf(t, sid))
    && u.approvals == t.approvals
  }

  /** The session's row says 1.0 if there was no baseline or the new one is the same, else 0.0; other rows stay. */
  ghost predicate Rates(t: Tables, u: Tables, sid: string, cid: string)
    requires sid in u.baselines
  {
    var same := sid in t.baselines ==> t.baselines[sid].fingerprint == u.baselines[sid].fingerprint;
    forall x :: x in u.health <==>
                  x == Health(sid, cid, if same then 1.0 else 0.0)
                  || (x in t.health && (x.session != sid || x.correlation != cid))
  }

  class MemoryStore {
    var outbox: seq<Event>
    var decisions: seq<Decision>
    var effects: seq<Effect>
    var transitions: seq<TransitionRow>
    var snapshots: map<string, seq<Snapshot>>
    var baselines: map<string, Baseline>
    var approvals: seq<ApprovalRef>
    var retryTraces: seq<RetryTrace>
    var spanRows: seq<Span>
    var health: seq<Health>

    function View(): Tables
      reads this
    {
      Tables(outbox, decisions, effects, transitions, snapshots, baselines, approvals, retryTraces, spanRows, health)
    }

    constructor ()
      ensures View() == Tables([], [], [], [], map[], map[], [], [], [], [])
    {
      outbox, decisions, effects, transitions := [], [], [], [];
      snapshots, baselines := map[], map[];
      approvals, retryTraces, spanRows, health := [], [], [], [];
    }

    method ApplyIntelligence(spans: seq<Span>, row: Option<Health>)
      modifies this`spanRows, this`health
      ensures View() == Intelligence(old(View()), spans, row)
    {
      for i := 0 to |spans|
        invariant health == old(health)
        invariant AppendSpans(spanRows, spans[i..]) == AppendSpans(old(spanRows), spans)
      {
        assert spans[i..][1..] == spans[i + 1..];
        spanRows := PutSpan(spanRows, spans[i]);
      }
      assert spans[|spans|..] == [];
      if row.Some? {
        health := ReplaceHealth(health, row.value);
      }
    }

    method ApplyRuntimePersist(p: Payload, e: Event)
      modifies this
      ensures View() == AppendRows(old(View()), p, e)
    {
      hide PutSnapshot;
      if p.decision.Some? {
        decisions := decisions + [p.decision.value];
      }
      if p.effect.Some? {
        effects := effects + [p.effect.value];
      }
      outbox := outbox + [e];
      if p.transition.Some? {
        transitions := transitions + [p.transition.value];
      }
      if p.snapshot.Some? && p.step.Some? {
        var list := PutSnapshot(SnapshotsOf(View(), p.session), p.step.value, p.snapshot.value);
        snapshots := snapshots[p.session := list];
      }
      if p.retryTrace.Some? {
        retryTraces := retryTraces + [p.retryTrace.value];
      }
    }

    /** `_compute_session_close_health`: nothing is stored when the replay is refused. */
    method CompleteSessionClose(p: Payload) returns (r: Result<Health, ReplayError>)
      modifies this`baselines
      ensures r.Ok? <==> CloseTables(old(View()), p).Some?
      ensures r.Ok? ==> (View(), r.value) == CloseTables(old(View()), p).value
      ensures r.Err? ==> View() == old(View())
    {
      var previous := BaselineFp(View(), p.session);
      var outcome := RunFromSession(View(), p.session, p.correlation);
      match outcome {
        case Err(e) => return Err(e);
        case Ok(o) =>
          var fp := Fingerprint(o);
          baselines := baselines[p.session := Baseline(p.correlation, fp, ORCHESTRATOR_VERSION)];
          return Ok(Health(p.session, p.correlation, ReplayConfidence(fp, previous)));
      }
    }

    /** The in-memory branch of `persist_runtime_tx`; `id` and `now` are the fresh uuid and the clock. */
    method PersistRuntimeTx(manager: SpanManager, p: Payload, id: string, now: int)
      returns (r: Result<Persisted, ReplayError>)
      modifies this, manager`pending
      ensures View() == PersistSpec(old(View()), p, old(manager.pending), id, now).0
      ensures r.Ok? <==> PersistSpec(old(View()), p, old(manager.pending), id, now).1.Some?
      ensures r.Ok? ==> Some(r.value) == PersistSpec(old(View()), p, old(manager.pending), id, now).1
      ensures manager.pending == if p.drainSpans then [] else old(manager.pending)
      ensures r.Ok? && (forall e | e in old(outbox) :: e.key != KeyOf(p)) ==> AddsRows(old(View()), View(), p, id, now)
      ensures r.Ok? && (exists e | e in old(outbox) :: e.key == KeyOf(p)) ==> SameCore(old(View()), View())
      ensures !(p.storeBaseline && p.eventType == "session.completed") ==>
                r.Ok? && baselines == old(baselines) && health == old(health)
      ensures p.storeBaseline && p.eventType == "session.completed" && r.Ok? ==>
                p.session in baselines && Rates(old(View()), View(), p.session, p.correlation)
      ensures r.Err? ==> View() == old(View())
    {
      CallEffects(View(), Op(p, manager.pending, id, now));
      hide AddsRows, SameCore, Rates, KeyOf;
      hide IdempotencyKey, CloseTables, AppendSpans, AppendRows, FindByKey, ReplaceHealth;
      var event := EventOf(p, id, now);
      var existing := FindByKey(outbox, event.key);
      var spans := p.spans;
      if p.drainSpans {
        var pending := manager.DrainPendingSpans();
        spans := spans + pending;
      }
      var row: Option<Health> := None;
      if IsClose(p) {
        var closed := CompleteSessionClose(p);
        if closed.Err? {
          return Err(closed.error);
        }
        row := Some(closed.value);
      }
      if existing.Some? {
        ApplyIntelligence(spans, row);
        return Ok(Persisted(existing.value, false));
      }
      ApplyRuntimePersist(p, event);
      ApplyIntelligence(spans, row);
      return Ok(Persisted(event, true));
    }
  }

  // ---- Deduplication over every sequence of calls --------------------------

  datatype Op = Op(p: Payload, pending: seq<Span>, id: string, now: int)

  function Step(t: Tables, op: Op): Tables { PersistSpec(t, op.p, op.pending, op.id, op.now).0 }

  function RunOps(t: Tables, ops: seq<Op>): Tables
    decreases ops
  {
    if ops == [] then t else RunOps(Step(t, ops[0]), ops[1..])
  }

  /** What one call does, told without its parts. */
  lemma CallEffects(t: Tables, op: Op)
    ensures var (u, r) := PersistSpec(t, op.p, op.pending, op.id, op.now);
            && (r.Some? && (forall e | e in t.outbox :: e.key != KeyOf(op.p)) ==> AddsRows(t, u, op.p, op.id, op.now))
            && (r.Some? && (exists e | e in t.outbox :: e.key == KeyOf(op.p)) ==> SameCore(t, u))
            && (!(op.p.storeBaseline && op.p.eventType == "session.completed") ==>
                  r.Some? && u.baselines == t.baselines && u.health == t.health)
            && (op.p.storeBaseline && op.p.eventType == "session.completed" && r.Some? ==>
                  op.p.session in u.baselines && Rates(t, u, op.p.session, op.p.correlation))
            && (r.None? ==> u == t)
            && (r.Some? ==> u.spans == AppendSpans(t.spans, op.p.spans + if op.p.drainSpans then op.pending else []))
  {
    hide KeyOf, AddsRows, SameCore, Rates, PersistSpec;
    ClosedOrNot(t, op);
    if FindByKey(t.outbox, KeyOf(op.p)).None? {
      NewRows(t, op);
    } else {
      Duplicate(t, op, FindByKey(t.outbox, KeyOf(op.p)).value);
    }
  }

  lemma NewRows(t: Tables, op: Op)
    requires FindByKey(t.outbox, KeyOf(op.p)).None?
    ensures var (u, r) := PersistSpec(t, op.p, op.pending, op.id, op.now);
            r.Some? ==> AddsRows(t, u, op.p, op.id, op.now)
  {
    hide KeyOf, ReplayOf, Fingerprint, AppendSpans, FindByKey, ReplaceHealth;
    var (u, r) := PersistSpec(t, op.p, op.pending, op.id, op.now);
    if r.Some? {
      assert u.outbox == t.outbox + [u.outbox[|t.outbox|]];
      assert t.decisions + [] == t.decisions && t.effects + [] == t.effects;
      assert t.transitions + [] == t.transitions && t.retryTraces + [] == t.retryTraces;
    }
  }

  lemma ClosedOrNot(t: Tables, op: Op)
    ensures var (u, r) := PersistSpec(t, op.p, op.pending, op.id, op.now);
            && (!(op.p.storeBaseline && op.p.eventType == "session.completed") ==>
                  r.Some? && u.baselines == t.baselines && u.health == t.health)
            && (op.p.storeBaseline && op.p.eventType == "session.completed" && r.Some? ==>
                  op.p.session in u.baselines && Rates(t, u, op.p.session, op.p.correlation))
            && (r.None? ==> u == t)
            && (r.Some? ==> u.spans == AppendSpans(t.spans, op.p.spans + if op.p.drainSpans then op.pending else []))
  {
    hide KeyOf, ReplayOf, Fingerprint, AppendSpans, FindByKey, PutSnapshot, EventOf;
    assert op.p.spans + [] == op.p.spans;
  }

  predicate DistinctKeysIn(outbox: seq<Event>) {
    forall i, j | 0 <= i < j < |outbox| :: outbox[i].key != outbox[j].key
  }

  lemma StepKeepsKeys(t: Tables, op: Op)
    requires DistinctKeysIn(t.outbox)
    ensures DistinctKeysIn(Step(t, op).outbox)
    ensures t.outbox <= Step(t, op).outbox
  {
    hide ReplayOf, IdempotencyKey, AppendSpans, Fingerprint;
    forall i | 0 <= i < |t.outbox| && FindByKey(t.outbox, KeyOf(op.p)).None?
      ensures t.outbox[i].key != KeyOf(op.p)
    {
      assert t.outbox[i] in t.outbox;
    }
  }

  /** Keys stay pairwise distinct and no event is ever removed or changed, over every sequence of calls. */
  lemma {:induction false} OutboxKeysDistinct(t: Tables, ops: seq<Op>)
    requires DistinctKeysIn(t.outbox)
    ensures DistinctKeysIn(RunOps(t, ops).outbox)
    ensures t.outbox <= RunOps(t, ops).outbox
    decreases ops
  {
    hide Step, DistinctKeysIn;
    if ops != [] {
      StepKeepsKeys(t, ops[0]);
      OutboxKeysDistinct(Step(t, ops[0]), ops[1..]);
    }
  }

  /** The tables a deduplicated call must leave alone. */
  predicate SameCore(t: Tables, u: Tables) {
    && t.outbox == u.outbox && t.decisions == u.decisions && t.effects == u.effects
    && t.transitions == u.transitions && t.snapshots == u.snapshots && t.retryTraces == u.retryTraces
    && t.approvals == u.approvals
  }

  lemma {:induction false} FindUnique(outbox: seq<Event>, i: nat)
    requires i < |outbox| && DistinctKeysIn(outbox)
    ensures FindByKey(outbox, outbox[i].key) == Some(outbox[i])
  {
    if i < |outbox| - 1 {
      FindUnique(outbox[..|outbox| - 1], i);
    }
  }

  /**
   * Once a call went through, every later call with the same key, after any other calls, returns the
   * event of the first one and leaves the core tables alone.
   */
  lemma RetryReturnsFirstEvent(t: Tables, first: Op, between: seq<Op>, retry: Op)
    requires DistinctKeysIn(t.outbox)
    requires KeyOf(retry.p) == KeyOf(first.p)
    requires PersistSpec(t, first.p, first.pending, first.id, first.now).1.Some?
    ensures var e := PersistSpec(t, first.p, first.pending, first.id, first.now).1.value.event;
            var u := RunOps(Step(t, first), between);
            var (v, r) := PersistSpec(u, retry.p, retry.pending, retry.id, retry.now);
            SameCore(u, v) && (r.Some? ==> r.value == Persisted(e, false)) && (r.None? ==> IsClose(retry.p) && v == u)
  {
    hide Step, PersistSpec, DistinctKeysIn, KeyOf;
    var e := PersistSpec(t, first.p, first.pending, first.id, first.now).1.value.event;
    var t1 := Step(t, first);
    StepKeepsKeys(t, first);
    StoresEvent(t, first);
    var i :| 0 <= i < |t1.outbox| && t1.outbox[i] == e;
    OutboxKeysDistinct(t1, between);
    FindUnique(RunOps(t1, between).outbox, i);
    Duplicate(RunOps(t1, between), retry, e);
  }

  /** A call that goes through returns an event that is stored under its key. */
  lemma StoresEvent(t: Tables, op: Op)
    requires PersistSpec(t, op.p, op.pending, op.id, op.now).1.Some?
    ensures var e := PersistSpec(t, op.p, op.pending, op.id, op.now).1.value.event;
            e in Step(t, op).outbox && e.key == KeyOf(op.p)
  {
    hide ReplayOf, IdempotencyKey, AppendSpans, Fingerprint;
  }

  lemma Duplicate(t: Tables, op: Op, e: Event)
    requires FindByKey(t.outbox, KeyOf(op.p)) == Some(e)
    ensures var (u, r) := PersistSpec(t, op.p, op.pending, op.id, op.now);
            SameCore(t, u) && (r.Some? ==> r.value == Persisted(e, false)) && (r.None? ==> IsClose(op.p) && u == t)
  {
    hide ReplayOf, IdempotencyKey, AppendSpans, Fingerprint, FindByKey;
  }

  // ---- Baseline stability ---------------------------------------------------

  /** A call under other session and correlation ids, in the payload and in every row it carries. */
  predicate Foreign(p: Payload, sid: string, cid: string) {
    && p.session != sid && p.correlation != cid
    && (p.decision.Some? ==> p.decision.value.correlation != cid)
    && (p.effect.Some? ==> p.effect.value.correlation != cid)
    && (p.transition.Some? ==> p.transition.value.session != sid)
  }

  /** A close that adds no decision, effect, snapshot or transition of its own session. */
  predicate QuietClose(p: Payload) {
    IsClose(p) && p.decision.None? && p.effect.None? && p.transition.None? && (p.snapshot.None? || p.step.None?)
  }

  /** Everything a replay of this session reads. */
  predicate SameReplayView(t: Tables, u: Tables, sid: string, cid: string) {
    && SnapshotsOf(t, sid) == SnapshotsOf(u, sid)
    && TransitionsOf(t, sid) == TransitionsOf(u, sid)
    && IntentTool(EventsByCorrelation(t, cid)) == IntentTool(EventsByCorrelation(u, cid))
    && Filter(DecisionIn(cid), t.decisions) == Filter(DecisionIn(cid), u.decisions)
    && Filter(EffectIn(cid), t.effects) == Filter(EffectIn(cid), u.effects)
    && Filter(ApprovalIn(cid), t.approvals) == Filter(ApprovalIn(cid), u.approvals)
  }

  lemma VersionIrrelevant(b: Bundle, version: string)
    requires KnownVersion(b) && KnownVersion(b.(version := version))
    ensures Accepts(b.(version := version)) <==> Accepts(b)
    ensures ToolSequence(b.(version := version)) == ToolSequence(b)
  {
    hide StepNames, ConnectedPath, CanFinish, EndState;
  }

  /** The replay depends on the stored version only through its being known. */
  lemma SameReplay(t: Tables, u: Tables, sid: string, cid: string)
    requires SameReplayView(t, u, sid, cid)
    requires KnownVersion(BundleOf(t, sid, cid)) && KnownVersion(BundleOf(u, sid, cid))
    ensures ReplayOf(t, sid, cid) == ReplayOf(u, sid, cid)
  {
    hide Accepts, ToolSequence, EventsByCorrelation, IntentTool, StepOf, SortTexts;
    var b, c := BundleOf(t, sid, cid), BundleOf(u, sid, cid);
    assert b.(version := c.version) == c;
    VersionIrrelevant(b, c.version);
  }

  function IsIntent(): Event -> bool { (e: Event) => e.eventType == "founder.intent" }

  lemma {:induction false} IntentToolIsLastIntent(xs: seq<Event>)
    ensures var f := Filter(IsIntent(), xs);
            IntentTool(xs) == if f == [] then "" else FounderIntent(f[|f| - 1].payload)
  {
    hide FounderIntent;
    if xs != [] {
      var front, last := xs[..|xs| - 1], xs[|xs| - 1];
      IntentToolIsLastIntent(front);
      FilterAppend(IsIntent(), front, last);
      assert xs == front + [last];
    }
  }

  function IntentIn(cid: string): Event -> bool {
    (e: Event) => e.eventType == "founder.intent" && e.correlation == cid
  }

  /** The intent tool reads only this correlation's founder.intent events. */
  lemma IntentByFilter(t: Tables, u: Tables, cid: string)
    requires Filter(IntentIn(cid), t.outbox) == Filter(IntentIn(cid), u.outbox)
    ensures IntentTool(EventsByCorrelation(t, cid)) == IntentTool(EventsByCorrelation(u, cid))
  {
    hide FounderIntent, IntentTool, EventsByCorrelation, SortBy, Filter;
    IntentOf(t, cid);
    IntentOf(u, cid);
  }

  lemma IntentOf(t: Tables, cid: string)
    ensures var f := SortBy(CreatedAt(), Filter(IntentIn(cid), t.outbox));
            IntentTool(EventsByCorrelation(t, cid)) == if f == [] then "" else FounderIntent(f[|f| - 1].payload)
  {
    hide FounderIntent, IntentTool, Filter, SortBy;
    var es := Filter(EventIn(cid), t.outbox);
    IntentToolIsLastIntent(EventsByCorrelation(t, cid));
    FilterSortBy(IsIntent(), CreatedAt(), es);
    FilterBoth(t.outbox, cid);
  }

  predicate IsIntentOf(e: Event, cid: string) { e.eventType == "founder.intent" && e.correlation == cid }

  /** A stored intent of the correlation that none of its others is later than. */
  predicate Newest(outbox: seq<Event>, cid: string, e: Event) {
    e in outbox && IsIntentOf(e, cid) && forall x | x in outbox && IsIntentOf(x, cid) :: x.createdAt <= e.createdAt
  }

  /** The tool a replay takes from the intents is that of a newest one, and "" if there is none. */
  lemma IntentIsNewest(t: Tables, cid: string)
    ensures var tool := IntentTool(EventsByCorrelation(t, cid));
            if exists e :: e in t.outbox && IsIntentOf(e, cid)
            then exists e :: Newest(t.outbox, cid, e) && tool == FounderIntent(e.payload)
            else tool == ""
  {
    hide FounderIntent, IntentTool, EventsByCorrelation, SortBy;
    var stored := Filter(IntentIn(cid), t.outbox);
    var f := SortBy(CreatedAt(), stored);
    IntentOf(t, cid);
    SortBySorted(CreatedAt(), stored);
    forall x | x in t.outbox && IsIntentOf(x, cid) ensures x in f {
    }
    if f != [] {
      var e := f[|f| - 1];
      assert e in f;
      forall x | x in t.outbox && IsIntentOf(x, cid) ensures x.createdAt <= e.createdAt {
        var i :| 0 <= i < |f| && f[i] == x;
        assert i < |f| - 1 ==> CreatedAt()(f[i]) <= CreatedAt()(e);
      }
      assert Newest(t.outbox, cid, e);
    }
  }

  lemma {:induction false} FilterBoth(xs: seq<Event>, cid: string)
    ensures Filter(IsIntent(), Filter(EventIn(cid), xs)) == Filter(IntentIn(cid), xs)
  {
    if xs != [] {
      FilterBoth(xs[1..], cid);
      if xs[0].correlation == cid {
        assert Filter(EventIn(cid), xs)[1..] == Filter(EventIn(cid), xs[1..]);
      }
    }
  }

  /** Appending rows none of which belongs to the session keeps its replay view. */
  lemma AppendKeepsView(t: Tables, p: Payload, e: Event, sid: string, cid: string)
    requires e == EventOf(p, e.id, e.createdAt)
    requires p.correlation != cid || p.eventType != "founder.intent"
    requires p.decision.Some? ==> p.decision.value.correlation != cid
    requires p.effect.Some? ==> p.effect.value.correlation != cid
    requires p.transition.Some? ==> p.transition.value.session != sid
    requires p.snapshot.Some? && p.step.Some? ==> p.session != sid
    ensures SameReplayView(t, AppendRows(t, p, e), sid, cid)
  {
    hide IntentTool, EventsByCorrelation, IdempotencyKey;
    FilterAppend(IntentIn(cid), t.outbox, e);
    IntentByFilter(t, AppendRows(t, p, e), cid);
    if p.decision.Some? {
      FilterAppend(DecisionIn(cid), t.decisions, p.decision.value);
    }
    if p.effect.Some? {
      FilterAppend(EffectIn(cid), t.effects, p.effect.value);
    }
    if p.transition.Some? {
      FilterAppend(RowIn(sid), t.transitions, p.transition.value);
    }
  }

  lemma IntelligenceKeepsView(t: Tables, spans: seq<Span>, h: Option<Health>, sid: string, cid: string)
    ensures SameReplayView(t, Intelligence(t, spans, h), sid, cid)
    ensures Intelligence(t, spans, h).baselines == t.baselines
  {
    hide IntentTool;
    IntentByFilter(t, Intelligence(t, spans, h), cid);
  }

  lemma BaselinesKeepView(t: Tables, bs: map<string, Baseline>, sid: string, cid: string)
    ensures SameReplayView(t, t.(baselines := bs), sid, cid)
  {
    hide IntentTool;
    IntentByFilter(t, t.(baselines := bs), cid);
  }

  lemma ViewTrans(t: Tables, u: Tables, v: Tables, sid: string, cid: string)
    requires SameReplayView(t, u, sid, cid) && SameReplayView(u, v, sid, cid)
    ensures SameReplayView(t, v, sid, cid)
  {
  }

  /** One call keeps a session's replay view when it is foreign, or a quiet close of any session. */
  lemma StepKeepsView(t: Tables, op: Op, sid: string, cid: string)
    requires Foreign(op.p, sid, cid) || QuietClose(op.p)
    ensures SameReplayView(t, Step(t, op), sid, cid)
    ensures op.p.session != sid ==> BaselineAt(Step(t, op), sid) == BaselineAt(t, sid)
  {
    hide SameReplayView, IdempotencyKey, ReplayOf, IntentTool, EventsByCorrelation, Fingerprint, AppendSpans;
    var p := op.p;
    var closed := if IsClose(p) then CloseTables(t, p) else None;
    SameReplayViewRefl(t, sid, cid);
    if !IsClose(p) || closed.Some? {
      var t1 := if closed.Some? then closed.value.0 else t;
      var health := if closed.Some? then Some(closed.value.1) else None;
      var e := EventOf(p, op.id, op.now);
      var t2 := if FindByKey(t.outbox, KeyOf(p)).Some? then t1 else AppendRows(t1, p, e);
      BaselinesKeepView(t, t1.baselines, sid, cid);
      AppendKeepsView(t1, p, e, sid, cid);
      SameReplayViewRefl(t1, sid, cid);
      ViewTrans(t, t1, t2, sid, cid);
      IntelligenceKeepsView(t2, MergedSpans(p, op.pending), health, sid, cid);
      ViewTrans(t, t2, Step(t, op), sid, cid);
    }
  }

  lemma SameReplayViewRefl(t: Tables, sid: string, cid: string)
    ensures SameReplayView(t, t, sid, cid)
  {
  }

  function BaselineAt(t: Tables, sid: string): Option<Baseline> {
    if sid in t.baselines then Some(t.baselines[sid]) else None
  }

  /** A quiet close that goes through leaves a session that validates against its own baseline. */
  lemma QuietCloseValidates(t: Tables, op: Op)
    requires QuietClose(op.p)
    requires PersistSpec(t, op.p, op.pending, op.id, op.now).1.Some?
    ensures Validates(Step(t, op), op.p.session, op.p.correlation)
    ensures ReplayOf(Step(t, op), op.p.session, op.p.correlation) == ReplayOf(t, op.p.session, op.p.correlation)
    ensures BaselineAt(Step(t, op), op.p.session)
         == Some(Baseline(op.p.correlation, Fingerprint(ReplayOf(t, op.p.session, op.p.correlation).value),
             ORCHESTRATOR_VERSION))
  {
    hide SameReplayView, IdempotencyKey, IntentTool, EventsByCorrelation, Fingerprint, AppendSpans, StepNames,
        ConnectedPath;
    var sid, cid := op.p.session, op.p.correlation;
    StepKeepsView(t, op, sid, cid);
    assert Step(t, op).baselines[sid].version == ORCHESTRATOR_VERSION;
    SameReplay(t, Step(t, op), sid, cid);
  }

  predicate AllForeign(ops: seq<Op>, sid: string, cid: string) { forall op | op in ops :: Foreign(op.p, sid, cid) }

  lemma {:induction false} ForeignKeepBaseline(t: Tables, ops: seq<Op>, sid: string, cid: string)
    requires AllForeign(ops, sid, cid)
    ensures SameReplayView(t, RunOps(t, ops), sid, cid)
    ensures BaselineAt(RunOps(t, ops), sid) == BaselineAt(t, sid)
    decreases ops
  {
    hide SameReplayView, Step;
    SameReplayViewRefl(t, sid, cid);
    if ops != [] {
      assert ops[0] in ops;
      StepKeepsView(t, ops[0], sid, cid);
      ForeignKeepBaseline(Step(t, ops[0]), ops[1..], sid, cid);
      ViewTrans(t, Step(t, ops[0]), RunOps(t, ops), sid, cid);
    }
  }

  /** A session that validates keeps validating whatever is persisted under other ids. */
  lemma ForeignKeepValid(t: Tables, ops: seq<Op>, sid: string, cid: string)
    requires Validates(t, sid, cid) && AllForeign(ops, sid, cid)
    ensures Validates(RunOps(t, ops), sid, cid) && BaselineAt(RunOps(t, ops), sid) == BaselineAt(t, sid)
  {
    hide SameReplayView, IntentTool, EventsByCorrelation, Fingerprint, StepNames, ConnectedPath, RunOps;
    ForeignKeepBaseline(t, ops, sid, cid);
    SameReplay(t, RunOps(t, ops), sid, cid);
  }
}
