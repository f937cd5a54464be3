/**
 * What one request may find and leave in the tables: the invariant of a run on fresh ids, step by step,
 * and when the frozen replay accepts what the run recorded.
 */
module RunLogs {
  import opened Wrappers
  import opened Text
  import opened Json
  import opened Canonical
  import opened Seqs
  import opened RuntimeStates
  import opened Persistence
  import F = FrozenReplay
  import opened Transactions

  datatype Edge = Edge(source: RuntimeState, target: RuntimeState)

  /** The session and correlation of the request. */
  datatype Ctx = Ctx(sid: string, cid: string)

  /**
   * How far a run has got: what it recorded so far, decisions and effects by id and events by type. Transition
   * keys numbered above `used` and snapshot keys from `step` on are still free for this correlation.
   */
  datatype Progress = Progress(log: seq<Edge>, snaps: seq<Snapshot>, intent: Option<Py>, decisions: seq<string>,
                               effects: seq<string>, types: set<string>, used: nat, step: nat)

  // ---- The payloads a run persists ----------------------------------------

  function Plain(sid: string, cid: string, eventType: string, payload: Py, businessKey: string): Payload {
    Payload(cid, sid, eventType, payload, Some(businessKey), None, None, None, None, None, None, false, [], true)
  }

  function TransitionBody(e: Edge): Py {
    PyDict([PyItem("from", Txt(Name(e.source))), PyItem("to", Txt(Name(e.target)))])
  }

  function TransitionName(e: Edge): string { "transition:" + Name(e.source) + ":" + Name(e.target) }

  function RowOf(sid: string, cid: string, e: Edge): TransitionRow {
    TransitionRow(cid, sid, Name(e.source), Name(e.target))
  }

  function TransitionPayload(sid: string, cid: string, e: Edge, n: nat): Payload {
    Plain(sid, cid, "runtime.transition", TransitionBody(e), TransitionName(e) + ":" + PrintNat(n))
      .(transition := Some(RowOf(sid, cid, e)))
  }

  function StepBody(step: nat): Py { PyDict([PyItem("step", PyScalar(Int(step)))]) }

  function SnapshotPayload(sid: string, cid: string, step: nat, businessKey: string, data: Snapshot): Payload {
    Plain(sid, cid, "replay.snapshot", StepBody(step), businessKey).(snapshot := Some(data), step := Some(step))
  }

  function DecisionName(id: string): string { "decision:" + id }

  function ClosePayload(sid: string, cid: string, body: Py): Payload {
    Plain(sid, cid, "session.completed", body, "session.completed").(storeBaseline := true)
  }

  // ---- Free keys ----------------------------------------------------------

  predicate KeyFree(outbox: seq<Event>, key: Digest) { forall e | e in outbox :: e.key != key }

  function TransitionKey(cid: string, e: Edge, n: nat): Digest {
    IdempotencyKey(cid, "runtime.transition", TransitionBody(e), Some(TransitionName(e) + ":" + PrintNat(n)))
  }

  function SnapshotKey(cid: string, step: nat, b: Option<string>): Digest {
    IdempotencyKey(cid, "replay.snapshot", StepBody(step), b)
  }

  function DecisionKey(cid: string, body: Py, id: string): Digest {
    IdempotencyKey(cid, "decision.recorded", body, Some(DecisionName(id)))
  }

  ghost predicate Free(outbox: seq<Event>, cid: string, g: Progress) {
    && (forall e: Edge, n: nat | n > g.used :: KeyFree(outbox, TransitionKey(cid, e, n)))
    && (forall k: nat, b: Option<string> | k >= g.step :: KeyFree(outbox, SnapshotKey(cid, k, b)))
    && (forall body: Py, id: string | id !in g.decisions :: KeyFree(outbox, DecisionKey(cid, body, id)))
  }

  /** Every stored key is the key of the event that holds it. */
  ghost predicate WellKeyed(outbox: seq<Event>) {
    forall e | e in outbox :: exists b :: e.key == IdempotencyKey(e.correlation, e.eventType, e.payload, b)
  }

  lemma StepBodyInjective(k: nat, k': nat)
    requires Normalize(StepBody(k), true) == Normalize(StepBody(k'), true)
    ensures k == k'
  {
    hide Normalize;
    var xs, ys := StepBody(k).items, StepBody(k').items;
    SameFormSameMember(xs, ys, 0);
    NormalInt(k);
    NormalInt(k');
  }

  lemma NormalInt(k: int)
    ensures Normalize(PyScalar(Int(k)), true) == Leaf(Int(k))
  {
  }

  lemma TransitionKeyNumber(cid: string, e: Edge, n: nat, e': Edge, n': nat)
    requires TransitionKey(cid, e, n) == TransitionKey(cid, e', n')
    ensures n == n'
  {
    hide IdempotencyKey, Normalize;
    var b, b' := TransitionName(e) + ":" + PrintNat(n), TransitionName(e') + ":" + PrintNat(n');
    IdempotencyKeyExact(cid, "runtime.transition", TransitionBody(e), Some(b),
                        cid, "runtime.transition", TransitionBody(e'), Some(b'));
    NumberedKeyInjective(TransitionName(e), n, TransitionName(e'), n');
  }

  lemma DecisionKeyId(cid: string, body: Py, id: string, body': Py, id': string)
    requires DecisionKey(cid, body, id) == DecisionKey(cid, body', id')
    ensures id == id'
  {
    hide IdempotencyKey, Normalize;
    IdempotencyKeyExact(cid, "decision.recorded", body, Some(DecisionName(id)),
                        cid, "decision.recorded", body', Some(DecisionName(id')));
    assert DecisionName(id)[9..] == id && DecisionName(id')[9..] == id';
  }

  /** The payload's key is one that a run with progress `g` counts as taken. */
  ghost predicate Taken(p: Payload, cid: string, g: Progress) {
    && (p.eventType == "runtime.transition" ==>
          exists d: Edge, n: nat :: KeyOf(p) == TransitionKey(cid, d, n) && n <= g.used)
    && (p.eventType == "replay.snapshot" ==>
          exists k: nat, b: Option<string> :: KeyOf(p) == SnapshotKey(cid, k, b) && k < g.step)
    && (p.eventType == "decision.recorded" ==>
          exists body: Py, id: string :: KeyOf(p) == DecisionKey(cid, body, id) && id in g.decisions)
  }

  /** Adding one event keeps the keys free that differ from it in correlation, type, number, step or id. */
  lemma FreeAfter(outbox: seq<Event>, e: Event, p: Payload, cid: string, g: Progress, g': Progress)
    requires Free(outbox, cid, g) && e.key == KeyOf(p)
    requires g'.used >= g.used && g'.step >= g.step && forall id | id in g.decisions :: id in g'.decisions
    requires p.correlation == cid ==> Taken(p, cid, g')
    ensures Free(outbox + [e], cid, g')
  {
    hide IdempotencyKey, Normalize, TransitionBody, TransitionName, StepBody, BusinessKey, Taken, DecisionName;
    forall d: Edge, n: nat | n > g'.used ensures KeyFree(outbox + [e], TransitionKey(cid, d, n)) {
      assert KeyFree(outbox, TransitionKey(cid, d, n));
      if e.key == TransitionKey(cid, d, n) {
        TransitionNotTaken(p, cid, g', d, n);
      }
    }
    forall k: nat, b: Option<string> | k >= g'.step ensures KeyFree(outbox + [e], SnapshotKey(cid, k, b)) {
      assert KeyFree(outbox, SnapshotKey(cid, k, b));
      if e.key == SnapshotKey(cid, k, b) {
        SnapshotNotTaken(p, cid, g', k, b);
      }
    }
    forall body: Py, id: string | id !in g'.decisions ensures KeyFree(outbox + [e], DecisionKey(cid, body, id)) {
      assert KeyFree(outbox, DecisionKey(cid, body, id));
      if e.key == DecisionKey(cid, body, id) {
        DecisionNotTaken(p, cid, g', body, id);
      }
    }
  }

  lemma TransitionNotTaken(p: Payload, cid: string, g: Progress, d: Edge, n: nat)
    requires KeyOf(p) == TransitionKey(cid, d, n) && (p.correlation == cid ==> Taken(p, cid, g))
    ensures n <= g.used
  {
    hide IdempotencyKey, Normalize, TransitionBody, TransitionName, BusinessKey;
    IdempotencyKeyExact(p.correlation, p.eventType, p.eventPayload, p.businessKey,
                        cid, "runtime.transition", TransitionBody(d), Some(TransitionName(d) + ":" + PrintNat(n)));
    var d': Edge, n': nat :| KeyOf(p) == TransitionKey(cid, d', n') && n' <= g.used;
    TransitionKeyNumber(cid, d, n, d', n');
  }

  lemma SnapshotNotTaken(p: Payload, cid: string, g: Progress, k: nat, b: Option<string>)
    requires KeyOf(p) == SnapshotKey(cid, k, b) && (p.correlation == cid ==> Taken(p, cid, g))
    ensures k < g.step
  {
    hide IdempotencyKey, Normalize, StepBody, BusinessKey;
    IdempotencyKeyExact(p.correlation, p.eventType, p.eventPayload, p.businessKey, cid, "replay.snapshot",
        StepBody(k), b);
    var k': nat, b': Option<string> :| KeyOf(p) == SnapshotKey(cid, k', b') && k' < g.step;
    IdempotencyKeyExact(cid, "replay.snapshot", StepBody(k'), b', cid, "replay.snapshot", StepBody(k), b);
    StepBodyInjective(k, k');
  }

  lemma DecisionNotTaken(p: Payload, cid: string, g: Progress, body: Py, id: string)
    requires KeyOf(p) == DecisionKey(cid, body, id) && (p.correlation == cid ==> Taken(p, cid, g))
    ensures id in g.decisions
  {
    hide IdempotencyKey, Normalize, BusinessKey, DecisionName;
    IdempotencyKeyExact(p.correlation, p.eventType, p.eventPayload, p.businessKey,
                        cid, "decision.recorded", body, Some(DecisionName(id)));
    var body': Py, id': string :| KeyOf(p) == DecisionKey(cid, body', id') && id' in g.decisions;
    DecisionKeyId(cid, body, id, body', id');
  }

  lemma StepKeepsWellKeyed(t: Tables, op: Op)
    requires WellKeyed(t.outbox)
    ensures WellKeyed(Step(t, op).outbox)
  {
    hide IdempotencyKey, AppendSpans, F.ReplayOf, F.Fingerprint, WellKeyed;
    WellKeyedAfter(t.outbox, EventOf(op.p, op.id, op.now), op.p);
  }

  /** Whatever is persisted, every stored key belongs to its event. */
  lemma {:induction false} RunsKeepWellKeyed(t: Tables, ops: seq<Op>)
    requires WellKeyed(t.outbox)
    ensures WellKeyed(RunOps(t, ops).outbox)
    decreases ops
  {
    hide Step, WellKeyed;
    if ops != [] {
      StepKeepsWellKeyed(t, ops[0]);
      RunsKeepWellKeyed(Step(t, ops[0]), ops[1..]);
    }
  }

  // ---- The invariant of a run ---------------------------------------------

  function Rows(c: Ctx, log: seq<Edge>): seq<TransitionRow> { Map((e: Edge) => RowOf(c.sid, c.cid, e), log) }

  function TypesOf(outbox: seq<Event>, cid: string): set<string> {
    set e | e in outbox && e.correlation == cid :: e.eventType
  }

  function DecidedIn(t: Tables, cid: string): seq<string> { DecisionIds(Filter(DecisionIn(cid), t.decisions)) }

  function EffectsIn(t: Tables, cid: string): seq<string> { EffectIds(Filter(EffectIn(cid), t.effects)) }

  /** No record of the session or the correlation, and every stored key its own event's. */
  ghost predicate FreshIds(t: Tables, c: Ctx) {
    && (forall r | r in t.transitions :: r.session != c.sid)
    && (forall e | e in t.outbox :: e.correlation != c.cid)
    && (forall d | d in t.decisions :: d.correlation != c.cid)
    && (forall e | e in t.effects :: e.correlation != c.cid)
    && (forall a | a in t.approvals :: a.correlation != c.cid)
    && c.sid !in t.snapshots && c.sid !in t.baselines
    && WellKeyed(t.outbox)
  }

  /** What a run recorded, as the tables show it. */
  datatype Trail = Trail(log: seq<Edge>, snaps: seq<Snapshot>, decisions: seq<string>, effects: seq<string>,
                         types: set<string>)

  function TrailOf(g: Progress): Trail { Trail(g.log, g.snaps, g.decisions, g.effects, g.types) }

  /** The session's log and snapshots and the correlation's decisions, effects and event types are exactly these. */
  predicate Recorded(t: Tables, c: Ctx, r: Trail) {
    && TransitionsOf(t, c.sid) == Rows(c, r.log)
    && SnapshotsOf(t, c.sid) == r.snaps
    && DecidedIn(t, c.cid) == r.decisions
    && EffectsIn(t, c.cid) == r.effects
    && TypesOf(t.outbox, c.cid) == r.types
  }

  /** What the tables hold for the request; other requests' records are not mentioned. */
  ghost predicate RunInv(t: Tables, c: Ctx, g: Progress) {
    && Recorded(t, c, TrailOf(g))
    && c.sid !in t.baselines && Filter(ApprovalIn(c.cid), t.approvals) == []
    && IntentIs(t.outbox, c.cid, g.intent)
    && Free(t.outbox, c.cid, g) && WellKeyed(t.outbox)
  }

  predicate IntentIs(outbox: seq<Event>, cid: string, intent: Option<Py>) {
    var found := Filter(IntentIn(cid), outbox);
    match intent
    case None => found == []
    case Some(p) => |found| == 1 && found[0].payload == p
  }

  function Start(): Progress { Progress([], [], None, [], [], {}, 0, 0) }

  /** Any ids are fresh in an empty store. */
  lemma EmptyIsFresh(c: Ctx)
    ensures FreshIds(Tables([], [], [], [], map[], map[], [], [], [], []), c)
  {
  }

  lemma StartInv(t: Tables, c: Ctx)
    requires FreshIds(t, c)
    ensures RunInv(t, c, Start())
  {
    hide IdempotencyKey, WellKeyed, Free;
    FilterNone(IntentIn(c.cid), t.outbox);
    FilterNone(RowIn(c.sid), t.transitions);
    FilterNone(DecisionIn(c.cid), t.decisions);
    FilterNone(EffectIn(c.cid), t.effects);
    FilterNone(ApprovalIn(c.cid), t.approvals);
    StartFree(t.outbox, c.cid);
  }

  lemma StartFree(outbox: seq<Event>, cid: string)
    requires WellKeyed(outbox) && forall e | e in outbox :: e.correlation != cid
    ensures Free(outbox, cid, Start())
  {
    hide IdempotencyKey, WellKeyed;
    forall ty, p, b ensures KeyFree(outbox, IdempotencyKey(cid, ty, p, b)) {
      FreshKey(outbox, cid, ty, p, b);
    }
  }

  lemma FreshKey(outbox: seq<Event>, cid: string, ty: string, p: Py, b: Option<string>)
    requires WellKeyed(outbox) && ty !in TypesOf(outbox, cid)
    ensures KeyFree(outbox, IdempotencyKey(cid, ty, p, b))
  {
    hide IdempotencyKey;
    forall e | e in outbox ensures e.key != IdempotencyKey(cid, ty, p, b) {
      var b' :| e.key == IdempotencyKey(e.correlation, e.eventType, e.payload, b');
      IdempotencyKeyExact(e.correlation, e.eventType, e.payload, b', cid, ty, p, b);
    }
  }

  /** What one call of the run adds to the progress. */
  function Advance(g: Progress, p: Payload, edge: Option<Edge>, used: nat, step: nat): Progress {
    Progress(if edge.Some? then g.log + [edge.value] else g.log,
             if p.snapshot.Some? && p.step.Some? then PutSnapshot(g.snaps, p.step.value, p.snapshot.value) else g.snaps,
             if p.eventType == "founder.intent" then Some(p.eventPayload) else g.intent,
             if p.decision.Some? then g.decisions + [p.decision.value.id] else g.decisions,
             if p.effect.Some? then g.effects + [p.effect.value.id] else g.effects,
             g.types + {p.eventType}, used, step)
  }

  function Moved(g: Progress, e: Edge, n: nat): Progress {
    g.(log := g.log + [e], used := n, types := g.types + {"runtime.transition"})
  }

  function Snapped(g: Progress, step: nat, data: Snapshot): Progress {
    g.(snaps := PutSnapshot(g.snaps, step, data), step := step + 1, types := g.types + {"replay.snapshot"})
  }

  function Noted(g: Progress, eventType: string): Progress { g.(types := g.types + {eventType}) }

  /** A call of the run that is known to insert. */
  lemma Inserted(t: Tables, c: Ctx, g: Progress, op: Op, edge: Option<Edge>, g': Progress)
    requires RunInv(t, c, g) && !IsClose(op.p) && Own(op.p, c.sid, c.cid)
    requires KeyFree(t.outbox, KeyOf(op.p))
    requires op.p.transition == if edge.Some? then Some(RowOf(c.sid, c.cid, edge.value)) else None
    requires g'.used >= g.used && g'.step >= g.step && g' == Advance(g, op.p, edge, g'.used, g'.step)
    requires op.p.eventType == "founder.intent" ==> g.intent.None?
    requires Taken(op.p, c.cid, g')
    ensures RunInv(Step(t, op), c, g')
  {
    hide IdempotencyKey, Free, WellKeyed, IntentIs, Taken, Recorded, AppendSpans, F.ReplayOf, PutSnapshot, Filter;
    var p, e := op.p, EventOf(op.p, op.id, op.now);
    InsertedTables(t, op);
    FreeAfter(t.outbox, e, p, c.cid, g, g');
    IntentAfter(t.outbox, e, p, c.cid, g.intent);
    WellKeyedAfter(t.outbox, e, p);
    RecordedAfter(t, Step(t, op), c, g, op, edge, g');
  }

  lemma RecordedAfter(t: Tables, u: Tables, c: Ctx, g: Progress, op: Op, edge: Option<Edge>, g': Progress)
    requires Recorded(t, c, TrailOf(g)) && Own(op.p, c.sid, c.cid) && g' == Advance(g, op.p, edge, g'.used, g'.step)
    requires op.p.transition == if edge.Some? then Some(RowOf(c.sid, c.cid, edge.value)) else None
    requires AppendedTo(t, u, op)
    ensures Recorded(u, c, TrailOf(g'))
  {
    hide IdempotencyKey, PutSnapshot, Rows, TransitionsOf, DecidedIn, EffectsIn, TypesOf, KeyOf;
    var p := op.p;
    if edge.Some? {
      RowsAppend(c, g.log, edge.value);
    }
    RowsAfter(t, u, c, p.transition);
    DecisionsAfter(t, u, c.cid, p.decision);
    EffectsAfter(t, u, c.cid, p.effect);
    TypesAppend(t.outbox, EventOf(p, op.id, op.now), c.cid);
  }

  lemma RowsAfter(t: Tables, u: Tables, c: Ctx, row: Option<TransitionRow>)
    requires u.transitions == t.transitions + (if row.Some? then [row.value] else [])
    requires row.Some? ==> row.value.session == c.sid
    ensures TransitionsOf(u, c.sid) == TransitionsOf(t, c.sid) + if row.Some? then [row.value] else []
  {
    assert t.transitions + [] == t.transitions;
    if row.Some? {
      FilterAppend(RowIn(c.sid), t.transitions, row.value);
    }
  }

  lemma DecisionsAfter(t: Tables, u: Tables, cid: string, d: Option<Decision>)
    requires u.decisions == t.decisions + (if d.Some? then [d.value] else [])
    requires d.Some? ==> d.value.correlation == cid
    ensures DecidedIn(u, cid) == if d.Some? then DecidedIn(t, cid) + [d.value.id] else DecidedIn(t, cid)
  {
    hide Filter, DecisionIds;
    assert t.decisions + [] == t.decisions;
    if d.Some? {
      FilterAppend(DecisionIn(cid), t.decisions, d.value);
      DecisionIdsAppend(Filter(DecisionIn(cid), t.decisions), d.value);
    }
  }

  lemma EffectsAfter(t: Tables, u: Tables, cid: string, e: Option<Effect>)
    requires u.effects == t.effects + (if e.Some? then [e.value] else [])
    requires e.Some? ==> e.value.correlation == cid
    ensures EffectsIn(u, cid) == if e.Some? then EffectsIn(t, cid) + [e.value.id] else EffectsIn(t, cid)
  {
    hide Filter, EffectIds;
    assert t.effects + [] == t.effects;
    if e.Some? {
      FilterAppend(EffectIn(cid), t.effects, e.value);
      EffectIdsAppend(Filter(EffectIn(cid), t.effects), e.value);
    }
  }

  lemma DecisionIdsAppend(ds: seq<Decision>, d: Decision)
    ensures DecisionIds(ds + [d]) == DecisionIds(ds) + [d.id]
  {
  }

  lemma EffectIdsAppend(es: seq<Effect>, e: Effect)
    ensures EffectIds(es + [e]) == EffectIds(es) + [e.id]
  {
  }

  lemma TypesAppend(outbox: seq<Event>, e: Event, cid: string)
    ensures TypesOf(outbox + [e], cid) == TypesOf(outbox, cid) + if e.correlation == cid then {e.eventType} else {}
  {
    assert e in outbox + [e];
    forall x | x in outbox ensures x in outbox + [e] {
    }
  }

  /** The core tables of `u` are those of `t` with the rows of the call. */
  predicate AppendedTo(t: Tables, u: Tables, op: Op) {
    var p := op.p;
    && u.outbox == t.outbox + [EventOf(p, op.id, op.now)]
    && u.transitions == t.transitions + (if p.transition.Some? then [p.transition.value] else [])
    && u.decisions == t.decisions + (if p.decision.Some? then [p.decision.value] else [])
    && u.effects == t.effects + (if p.effect.Some? then [p.effect.value] else [])
    && u.snapshots == (if p.snapshot.Some? && p.step.Some?
                       then SnapshotWritten(t, p)
                       else t.snapshots)
    && u.baselines == t.baselines && u.approvals == t.approvals
  }

  /** What a call that inserts and closes nothing does to the tables. */
  lemma InsertedTables(t: Tables, op: Op)
    requires !IsClose(op.p) && KeyFree(t.outbox, KeyOf(op.p))
    ensures AppendedTo(t, Step(t, op), op)
  {
    hide IdempotencyKey, AppendSpans, F.ReplayOf, PutSnapshot;
    assert FindByKey(t.outbox, KeyOf(op.p)).None?;
  }

  lemma IntentAfter(outbox: seq<Event>, e: Event, p: Payload, cid: string, intent: Option<Py>)
    requires IntentIs(outbox, cid, intent) && e == EventOf(p, e.id, e.createdAt) && p.correlation == cid
    requires p.eventType == "founder.intent" ==> intent.None?
    ensures IntentIs(outbox + [e], cid, if p.eventType == "founder.intent" then Some(p.eventPayload) else intent)
  {
    hide IdempotencyKey;
    FilterAppend(IntentIn(cid), outbox, e);
  }

  lemma WellKeyedAfter(outbox: seq<Event>, e: Event, p: Payload)
    requires WellKeyed(outbox) && e == EventOf(p, e.id, e.createdAt)
    ensures WellKeyed(outbox + [e])
  {
    hide IdempotencyKey;
    forall x | x in outbox + [e] ensures exists b :: x.key == IdempotencyKey(x.correlation, x.eventType, x.payload, b) {
      if x == e {
        assert x.key == IdempotencyKey(x.correlation, x.eventType, x.payload, p.businessKey);
      }
    }
  }

  lemma {:induction false} RowsAppend(c: Ctx, log: seq<Edge>, e: Edge)
    ensures Rows(c, log + [e]) == Rows(c, log) + [RowOf(c.sid, c.cid, e)]
  {
  }

  // ---- Other requests in between ------------------------------------------

  /** A payload that names its own session and correlation throughout. */
  predicate Own(p: Payload, sid: string, cid: string) {
    && p.session == sid && p.correlation == cid
    && (p.decision.Some? ==> p.decision.value.correlation == cid)
    && (p.effect.Some? ==> p.effect.value.correlation == cid)
    && (p.transition.Some? ==> p.transition.value.session == sid)
  }

  /** What one request writes is foreign to every other. */
  lemma OwnIsForeign(p: Payload, sid: string, cid: string, sid': string, cid': string)
    requires Own(p, sid, cid) && sid' != sid && cid' != cid
    ensures Foreign(p, sid', cid')
  {
  }

  lemma StepOutbox(t: Tables, op: Op)
    ensures Step(t, op).outbox == t.outbox || Step(t, op).outbox == t.outbox + [EventOf(op.p, op.id, op.now)]
    ensures op.p.transition.None? ==> Step(t, op).transitions == t.transitions
  {
    hide IdempotencyKey, AppendSpans, F.ReplayOf, F.Fingerprint;
  }

  lemma ForeignKeepsInv(t: Tables, c: Ctx, g: Progress, op: Op)
    requires RunInv(t, c, g) && Foreign(op.p, c.sid, c.cid)
    ensures RunInv(Step(t, op), c, g)
  {
    hide Free, WellKeyed, IdempotencyKey, Step, Rows, F.IntentTool, EventsByCorrelation, SnapshotsOf, TransitionsOf;
    hide DecisionIds, EffectIds, Filter, TypesOf;
    StepKeepsView(t, op, c.sid, c.cid);
    StepOutbox(t, op);
    var e := EventOf(op.p, op.id, op.now);
    FilterAppend(IntentIn(c.cid), t.outbox, e);
    TypesAppend(t.outbox, e, c.cid);
    FreeAfter(t.outbox, e, op.p, c.cid, g, g);
    WellKeyedAfter(t.outbox, e, op.p);
  }

  /** Whatever other requests persist meanwhile, the run stays where it is. */
  lemma {:induction false} OthersKeepInv(t: Tables, c: Ctx, g: Progress, others: seq<Op>)
    requires RunInv(t, c, g) && AllForeign(others, c.sid, c.cid)
    ensures RunInv(RunOps(t, others), c, g)
    decreases others
  {
    hide RunInv, Step;
    if others != [] {
      assert others[0] in others;
      ForeignKeepsInv(t, c, g, others[0]);
      OthersKeepInv(Step(t, others[0]), c, g, others[1..]);
    }
  }

  lemma {:induction false} RunOpsAppend(t: Tables, ops: seq<Op>, op: Op)
    ensures RunOps(t, ops + [op]) == Step(RunOps(t, ops), op)
    decreases ops
  {
    hide Step;
    if ops == [] {
      assert [op][1..] == [];
    } else {
      assert (ops + [op])[1..] == ops[1..] + [op];
      RunOpsAppend(Step(t, ops[0]), ops[1..], op);
    }
  }

  // ---- The calls of a run -------------------------------------------------

  /** A call of the run that records nothing the replay reads; it may be deduplicated. */
  lemma Aside(t: Tables, c: Ctx, g: Progress, op: Op)
    requires RunInv(t, c, g) && !IsClose(op.p) && Own(op.p, c.sid, c.cid)
    requires op.p.transition.None? && op.p.snapshot.None? && op.p.decision.None? && op.p.effect.None?
    requires op.p.eventType !in {"founder.intent", "runtime.transition", "replay.snapshot", "decision.recorded"}
    ensures RunInv(Step(t, op), c, Noted(g, op.p.eventType))
  {
    hide IdempotencyKey, RunInv, Step;
    if FindByKey(t.outbox, KeyOf(op.p)).None? {
      Inserted(t, c, g, op, None, Noted(g, op.p.eventType));
    } else {
      AlreadyNoted(t, c, g, op);
      assert g.types + {op.p.eventType} == g.types;
    }
  }

  /** A deduplicated call finds an event of its own type and correlation. */
  lemma AlreadyNoted(t: Tables, c: Ctx, g: Progress, op: Op)
    requires RunInv(t, c, g) && !IsClose(op.p) && op.p.correlation == c.cid && FindByKey(t.outbox, KeyOf(op.p)).Some?
    ensures op.p.eventType in g.types && RunInv(Step(t, op), c, g)
  {
    hide IdempotencyKey, AppendSpans, F.ReplayOf, PutSnapshot, Free, Filter, Rows, TypesOf;
    StoredType(t.outbox, FindByKey(t.outbox, KeyOf(op.p)).value, op.p, c.cid);
  }

  lemma RecordedTransition(t: Tables, c: Ctx, g: Progress, op: Op, e: Edge, n: nat)
    requires RunInv(t, c, g) && op.p == TransitionPayload(c.sid, c.cid, e, n) && n > g.used
    ensures RunInv(Step(t, op), c, Moved(g, e, n))
  {
    hide IdempotencyKey, TransitionBody, TransitionName, Step, Recorded, IntentIs;
    assert KeyOf(op.p) == TransitionKey(c.cid, e, n);
    Inserted(t, c, g, op, Some(e), Moved(g, e, n));
  }

  lemma RecordedSnapshot(t: Tables, c: Ctx, g: Progress, op: Op, step: nat, b: string, data: Snapshot)
    requires RunInv(t, c, g) && step >= g.step
    requires op.p == SnapshotPayload(c.sid, c.cid, step, b, data).(retryTrace := op.p.retryTrace)
    ensures RunInv(Step(t, op), c, Snapped(g, step, data))
  {
    hide IdempotencyKey, StepBody, PutSnapshot, Step, Recorded, IntentIs;
    assert KeyOf(op.p) == SnapshotKey(c.cid, step, Some(b));
    Inserted(t, c, g, op, None, Snapped(g, step, data));
  }

  lemma RecordedIntent(t: Tables, c: Ctx, g: Progress, op: Op, body: Py)
    requires RunInv(t, c, g) && op.p == Plain(c.sid, c.cid, "founder.intent", body, "founder.intent")
    requires g.intent.None? && "founder.intent" !in g.types
    ensures RunInv(Step(t, op), c, Noted(g, "founder.intent").(intent := Some(body)))
  {
    hide IdempotencyKey, Step, IntentIs, Free;
    FreshKey(t.outbox, c.cid, "founder.intent", body, Some("founder.intent"));
    Inserted(t, c, g, op, None, Noted(g, "founder.intent").(intent := Some(body)));
  }

  /** A decision under a new id, with the effect or the snapshot it carries. */
  lemma RecordedDecision(t: Tables, c: Ctx, g: Progress, op: Op)
    requires RunInv(t, c, g) && !IsClose(op.p) && Own(op.p, c.sid, c.cid) && op.p.transition.None?
    requires op.p.decision.Some? && op.p.decision.value.id !in g.decisions && op.p.eventType == "decision.recorded"
    requires op.p.businessKey == Some(DecisionName(op.p.decision.value.id))
    ensures RunInv(Step(t, op), c, Advance(g, op.p, None, g.used, g.step))
  {
    hide IdempotencyKey, PutSnapshot, Step, Recorded, IntentIs, DecisionName;
    assert KeyOf(op.p) == DecisionKey(c.cid, op.p.eventPayload, op.p.decision.value.id);
    Inserted(t, c, g, op, None, Advance(g, op.p, None, g.used, g.step));
  }

  // ---- What the replay makes of it ----------------------------------------

  /** The edges lead from PERCEIVING to `s` along table edges and self loops. */
  predicate Walk(log: seq<Edge>, s: RuntimeState) {
    if log == [] then s == Perceiving
    else
      var last := log[|log| - 1];
      last.target == s && CanStep(last.source, s) && Walk(log[..|log| - 1], last.source)
  }

  lemma LegalBetween(row: TransitionRow, source: RuntimeState, target: RuntimeState)
    requires row.fromState == Name(source) && row.toState == Name(target) && CanStep(source, target)
    ensures F.LegalEdge(row)
  {
    hide Name, ParseState, CanStep;
    ParseName(source);
    ParseName(target);
  }

  /** One more legal row at the end keeps a log connected. */
  lemma OneStepConnected(rows: seq<TransitionRow>, row: TransitionRow, source: RuntimeState, target: RuntimeState)
    requires F.ConnectedPath(rows) && F.EndState(rows) == Name(source)
    requires row.fromState == Name(source) && row.toState == Name(target) && CanStep(source, target)
    ensures F.ConnectedPath(rows + [row]) && F.EndState(rows + [row]) == Name(target)
  {
    hide F.ConnectedPath, F.LegalEdge, F.EndState, ParseState, Name, CanStep;
    var all := rows + [row];
    LegalBetween(row, source, target);
    assert all[..|rows|] == rows && all[..|rows| + 1] == all;
    F.PrefixSteps(all, |rows|);
  }

  lemma EmptyConnected()
    ensures F.ConnectedPath([]) && F.EndState([]) == Name(Perceiving)
  {
  }

  lemma {:induction false} WalkConnected(c: Ctx, log: seq<Edge>, s: RuntimeState)
    requires Walk(log, s)
    ensures F.ConnectedPath(Rows(c, log)) && F.EndState(Rows(c, log)) == Name(s)
  {
    hide F.ConnectedPath, F.LegalEdge, F.EndState, ParseState, Name, CanStep, Rows;
    if log == [] {
      EmptyConnected();
      assert Rows(c, log) == [] by { NoRows(c); }
    } else {
      var front, last := log[..|log| - 1], log[|log| - 1];
      WalkConnected(c, front, last.source);
      assert log == front + [last];
      RowsAppend(c, front, last);
      OneStepConnected(Rows(c, front), RowOf(c.sid, c.cid, last), last.source, s);
    }
  }

  lemma NoRows(c: Ctx)
    ensures Rows(c, []) == []
  {
  }

  /** The bundle the replay loads after a run that got this far. */
  function LeftBundle(c: Ctx, g: Progress): F.Bundle
    requires g.intent.Some?
  {
    F.Bundle(c.sid, c.cid, F.LEGACY_VERSION, Map((x: Snapshot) => F.StepOf(x), g.snaps), Rows(c, g.log),
             F.FounderIntent(g.intent.value))
  }

  /** What the replay makes of that bundle. */
  function LeftOutcome(c: Ctx, g: Progress): F.Outcome
    requires g.intent.Some?
  {
    F.Outcome("completed", F.ToolSequence(LeftBundle(c, g)), g.decisions, g.effects, [])
  }

  /** What a run leaves for the replay, before it closes. */
  lemma RunReplay(t: Tables, c: Ctx, g: Progress, s: RuntimeState)
    requires RunInv(t, c, g) && Walk(g.log, s) && g.log != [] && s != Completed && g.intent.Some?
    ensures F.BundleOf(t, c.sid, c.cid) == LeftBundle(c, g)
    ensures F.ReplayOf(t, c.sid, c.cid)
         == if F.CanFinish(Name(s)) && F.DelegationsServed(LeftBundle(c, g)) then Some(LeftOutcome(c, g)) else None
  {
    hide F.FounderIntent, Free, WellKeyed, F.StepOf, F.IntentTool, F.ToolSequence, F.DelegationsServed,
        EventsByCorrelation;
    LeftBundleLoaded(t, c, g);
    WalkConnected(c, g.log, s);
    NotCompleted(s);
  }

  lemma LeftBundleLoaded(t: Tables, c: Ctx, g: Progress)
    requires RunInv(t, c, g) && g.intent.Some?
    ensures F.BundleOf(t, c.sid, c.cid) == LeftBundle(c, g)
  {
    hide F.FounderIntent, Free, WellKeyed, F.StepOf, F.IntentTool, EventsByCorrelation;
    IntentOf(t, c.cid);
    SortByFixed(CreatedAt(), Filter(IntentIn(c.cid), t.outbox));
  }

  /** The tables of a session that closed: everything as recorded, and its baseline the replay's fingerprint. */
  ghost predicate EndedWell(t: Tables, c: Ctx, g: Progress)
    requires g.intent.Some?
  {
    && Recorded(t, c, TrailOf(Noted(g, "session.completed")))
    && F.Validates(t, c.sid, c.cid)
    && F.ReplayOf(t, c.sid, c.cid) == Some(LeftOutcome(c, g))
    && BaselineAt(t, c.sid) == Some(Baseline(c.cid, F.Fingerprint(LeftOutcome(c, g)), F.ORCHESTRATOR_VERSION))
  }

  /** Equal up to the keys still free. */
  predicate Like(g: Progress, h: Progress) { TrailOf(g) == TrailOf(h) && g.intent == h.intent }

  lemma EndedLike(t: Tables, c: Ctx, g: Progress, h: Progress)
    requires g.intent.Some? && EndedWell(t, c, g) && Like(g, h)
    ensures EndedWell(t, c, h)
  {
    hide Recorded, F.Validates, F.ReplayOf, F.Fingerprint;
  }

  lemma RunRecorded(t: Tables, c: Ctx, g: Progress)
    requires RunInv(t, c, g)
    ensures Recorded(t, c, TrailOf(g)) && c.sid !in t.baselines
  {
  }

  /** The close stores a validating baseline if the replay accepts the session, and nothing otherwise. */
  lemma RunClosed(t: Tables, c: Ctx, g: Progress, s: RuntimeState, op: Op, body: Py)
    requires RunInv(t, c, g) && Walk(g.log, s) && g.log != [] && s != Completed && g.intent.Some?
    requires op.p == ClosePayload(c.sid, c.cid, body) && F.CanFinish(Name(s))
    ensures PersistSpec(t, op.p, op.pending, op.id, op.now).1.Some? <==> F.DelegationsServed(LeftBundle(c, g))
    ensures if F.DelegationsServed(LeftBundle(c, g)) then EndedWell(Step(t, op), c, g) else Step(t, op) == t
  {
    hide RunInv, Walk, F.ReplayOf, F.Fingerprint, F.Validates, F.DelegationsServed, F.CanFinish, Recorded;
    hide IdempotencyKey, AppendSpans, LeftBundle;
    RunReplay(t, c, g, s);
    if F.ReplayOf(t, c.sid, c.cid).Some? {
      QuietCloseValidates(t, op);
      CloseRecords(t, c, g, op);
    }
  }

  /** A close that goes through adds its event and no other row. */
  lemma CloseRecords(t: Tables, c: Ctx, g: Progress, op: Op)
    requires RunInv(t, c, g) && QuietClose(op.p) && op.p.session == c.sid && op.p.correlation == c.cid
    requires PersistSpec(t, op.p, op.pending, op.id, op.now).1.Some?
    ensures Recorded(Step(t, op), c, TrailOf(Noted(g, "session.completed")))
  {
    hide IdempotencyKey, AppendSpans, F.ReplayOf, F.Fingerprint, Free, Filter, Rows, TypesOf;
    var p, e := op.p, EventOf(op.p, op.id, op.now);
    TypesAppend(t.outbox, e, c.cid);
    if FindByKey(t.outbox, KeyOf(p)).Some? {
      var stored := FindByKey(t.outbox, KeyOf(p)).value;
      StoredType(t.outbox, stored, p, c.cid);
    }
  }

  lemma StoredType(outbox: seq<Event>, e: Event, p: Payload, cid: string)
    requires WellKeyed(outbox) && e in outbox && e.key == KeyOf(p) && p.correlation == cid
    ensures p.eventType in TypesOf(outbox, cid)
  {
    hide IdempotencyKey;
    var b :| e.key == IdempotencyKey(e.correlation, e.eventType, e.payload, b);
    IdempotencyKeyExact(e.correlation, e.eventType, e.payload, b, p.correlation, p.eventType, p.eventPayload,
        p.businessKey);
  }

  lemma NotCompleted(s: RuntimeState)
    requires s != Completed
    ensures Name(s) != "completed"
  {
  }
}
