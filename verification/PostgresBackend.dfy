/**
 * core/transaction.py on Postgres: rows are inserted first and the close replays afterwards, while the
 * in-memory backend closes first. When the two reach the same tables, and where they part.
 */
module PostgresBackend {
  import opened Wrappers
  import opened Json
  import opened Canonical
  import opened Seqs
  import opened Persistence
  import F = FrozenReplay
  import opened Transactions
  import opened SessionCloses

  datatype TimedRow = TimedRow(row: TransitionRow, at: int)

  datatype StepRow = StepRow(step: nat, data: Snapshot)

  /** Rows in insertion order; the snapshots of a session in the order of its (session, step) key. */
  datatype PgTables = PgTables(
    outbox: seq<Event>, decisions: seq<Decision>, effects: seq<Effect>, transitions: seq<TimedRow>,
    snapshots: map<string, seq<StepRow>>, baselines: map<string, Baseline>, approvals: seq<ApprovalRef>)

  // ---- What the queries return --------------------------------------------

  function DecidedAt(): Decision -> real { (d: Decision) => d.createdAt as real }

  function EffectAt(): Effect -> real { (e: Effect) => e.createdAt as real }

  function RecordedAt(): TimedRow -> real { (r: TimedRow) => r.at as real }

  function RowsOf(rows: seq<TimedRow>): seq<TransitionRow> { Map((r: TimedRow) => r.row, rows) }

  function DataOf(rows: seq<StepRow>): seq<Snapshot> { Map((r: StepRow) => r.data, rows) }

  /** Every table as its ORDER BY query reads it; the replay then filters by session or correlation. */
  function Queried(g: PgTables): Tables {
    Tables(g.outbox, SortBy(DecidedAt(), g.decisions), SortBy(EffectAt(), g.effects),
           RowsOf(SortBy(RecordedAt(), g.transitions)), map sid | sid in g.snapshots :: DataOf(g.snapshots[sid]),
           g.baselines, g.approvals, [], [], [])
  }

  /** Whatever order rows were inserted in, the queries return the same rows by time. */
  lemma QueriedByTime(g: PgTables)
    ensures var q := Queried(g);
            && multiset(q.decisions) == multiset(g.decisions) && multiset(q.effects) == multiset(g.effects)
            && (forall i, j | 0 <= i < j < |q.decisions| :: q.decisions[i].createdAt <= q.decisions[j].createdAt)
            && (forall i, j | 0 <= i < j < |q.effects| :: q.effects[i].createdAt <= q.effects[j].createdAt)
            && exists rows :: RowsByTime(g.transitions, rows) && q.transitions == RowsOf(rows)
  {
    hide SortBy, SortedBy, RowsByTime;
    SortByPermutes(DecidedAt(), g.decisions);
    SortByPermutes(EffectAt(), g.effects);
    SortByPermutes(RecordedAt(), g.transitions);
    DecisionsRise(SortBy(DecidedAt(), g.decisions));
    EffectsRise(SortBy(EffectAt(), g.effects));
    TransitionsRise(g.transitions, SortBy(RecordedAt(), g.transitions));
  }

  ghost predicate RowsByTime(stored: seq<TimedRow>, rows: seq<TimedRow>) {
    multiset(rows) == multiset(stored) && forall i, j | 0 <= i < j < |rows| :: rows[i].at <= rows[j].at
  }

  lemma SortByPermutes<T(!new)>(key: T -> real, xs: seq<T>)
    ensures multiset(SortBy(key, xs)) == multiset(xs) && SortedBy(key, SortBy(key, xs))
  {
    hide SortedBy, SortWith;
    SortWithSorts(ByKey(key), xs);
    SortBySorted(key, xs);
  }

  lemma DecisionsRise(ds: seq<Decision>)
    requires SortedBy(DecidedAt(), ds)
    ensures forall i, j | 0 <= i < j < |ds| :: ds[i].createdAt <= ds[j].createdAt
  {
    forall i, j | 0 <= i < j < |ds| ensures ds[i].createdAt <= ds[j].createdAt {
      assert DecidedAt()(ds[i]) <= DecidedAt()(ds[j]);
    }
  }

  lemma EffectsRise(es: seq<Effect>)
    requires SortedBy(EffectAt(), es)
    ensures forall i, j | 0 <= i < j < |es| :: es[i].createdAt <= es[j].createdAt
  {
    forall i, j | 0 <= i < j < |es| ensures es[i].createdAt <= es[j].createdAt {
      assert EffectAt()(es[i]) <= EffectAt()(es[j]);
    }
  }

  lemma TransitionsRise(stored: seq<TimedRow>, rows: seq<TimedRow>)
    requires SortedBy(RecordedAt(), rows) && multiset(rows) == multiset(stored)
    ensures RowsByTime(stored, rows)
  {
    forall i, j | 0 <= i < j < |rows| ensures rows[i].at <= rows[j].at {
      assert RecordedAt()(rows[i]) <= RecordedAt()(rows[j]);
    }
  }

  // ---- The writes ---------------------------------------------------------

  /** ON CONFLICT (id) DO NOTHING. */
  function InsertDecision(rows: seq<Decision>, d: Decision): seq<Decision> {
    if exists x | x in rows :: x.id == d.id then rows else rows + [d]
  }

  function InsertEffect(rows: seq<Effect>, e: Effect): seq<Effect> {
    if exists x | x in rows :: x.id == e.id then rows else rows + [e]
  }

  /** ON CONFLICT (session_id, step) DO UPDATE. */
  function Upsert(rows: seq<StepRow>, step: nat, data: Snapshot): seq<StepRow> {
    if rows == [] || step < rows[0].step then [StepRow(step, data)] + rows
    else if rows[0].step == step then [StepRow(step, data)] + rows[1..]
    else [rows[0]] + Upsert(rows[1..], step, data)
  }

  /** ON CONFLICT (session_id) DO UPDATE leaves the correlation of the first close. */
  function UpsertBaseline(bs: map<string, Baseline>, sid: string, b: Baseline): map<string, Baseline> {
    bs[sid := if sid in bs then b.(correlation := bs[sid].correlation) else b]
  }

  function StepRows(g: PgTables, sid: string): seq<StepRow> { if sid in g.snapshots then g.snapshots[sid] else [] }

  function InsertRows(g: PgTables, p: Payload, e: Event): PgTables {
    g.(decisions := if p.decision.Some? then InsertDecision(g.decisions, p.decision.value) else g.decisions,
       effects := if p.effect.Some? then InsertEffect(g.effects, p.effect.value) else g.effects,
       outbox := g.outbox + [e],
       snapshots := if p.snapshot.Some? && p.step.Some?
                    then g.snapshots[p.session := Upsert(StepRows(g, p.session), p.step.value, p.snapshot.value)]
                    else g.snapshots,
       transitions := if p.transition.Some? then g.transitions + [TimedRow(p.transition.value, e.createdAt)]
                      else g.transitions)
  }

  function ClosePg(g: PgTables, p: Payload): Option<PgTables> {
    match F.ReplayOf(Queried(g), p.session, p.correlation)
    case None => None
    case Some(o) =>
      Some(g.(baselines := UpsertBaseline(g.baselines, p.session,
                                          Baseline(p.correlation, F.Fingerprint(o), F.ORCHESTRATOR_VERSION))))
  }

  /** The tables when the call returns, or when it raises because the replay was refused (None). */
  function PersistPg(g: PgTables, p: Payload, id: string, now: int): (PgTables, Option<Persisted>) {
    var existing := FindByKey(g.outbox, KeyOf(p));
    var e := EventOf(p, id, now);
    var g1 := if existing.Some? then g else InsertRows(g, p, e);
    var result := if existing.Some? then Persisted(existing.value, false) else Persisted(e, true);
    if !IsClose(p) then (g1, Some(result))
    else
      match ClosePg(g1, p)
      case None => (g1, None)
      case Some(g2) => (g2, Some(result))
  }

  // ---- What a call adds ---------------------------------------------------

  /** At most one row a step, in the order of the key. */
  predicate StepsRise(rows: seq<StepRow>) { forall i, j | 0 <= i < j < |rows| :: rows[i].step < rows[j].step }

  /** The row of one step is `data`, and every other row is as it was. */
  ghost predicate RowWritten(before: seq<StepRow>, after: seq<StepRow>, step: nat, data: Snapshot) {
    forall r :: r in after <==> r == StepRow(step, data) || (r in before && r.step != step)
  }

  lemma {:induction false} UpsertWrites(rows: seq<StepRow>, step: nat, data: Snapshot)
    requires StepsRise(rows)
    ensures RowWritten(rows, Upsert(rows, step, data), step, data)
  {
    hide StepsRise;
    if rows != [] {
      LaterSteps(rows);
      assert rows == [rows[0]] + rows[1..];
      if step > rows[0].step {
        UpsertWrites(rows[1..], step, data);
      }
    }
  }

  lemma LaterSteps(rows: seq<StepRow>)
    requires StepsRise(rows) && rows != []
    ensures StepsRise(rows[1..]) && forall r | r in rows[1..] :: rows[0].step < r.step
    ensures forall r | r in rows :: rows[0].step <= r.step
  {
  }

  lemma {:induction false} UpsertRises(rows: seq<StepRow>, step: nat, data: Snapshot)
    requires StepsRise(rows)
    ensures StepsRise(Upsert(rows, step, data))
  {
    if rows != [] {
      LaterSteps(rows);
      if step > rows[0].step {
        hide StepsRise;
        UpsertRises(rows[1..], step, data);
        UpsertWrites(rows[1..], step, data);
        FirstRises(rows[0], Upsert(rows[1..], step, data));
      } else {
        FirstRises(StepRow(step, data), if step == rows[0].step then rows[1..] else rows);
      }
    }
  }

  lemma FirstRises(first: StepRow, rest: seq<StepRow>)
    requires StepsRise(rest) && forall r | r in rest :: first.step < r.step
    ensures StepsRise([first] + rest)
  {
  }

  /** `h` is `g` with one unprocessed event last in the outbox and one row for each new part of the payload. */
  ghost predicate AddsRowsPg(g: PgTables, h: PgTables, p: Payload, id: string, now: int) {
    && |h.outbox| == |g.outbox| + 1 && h.outbox[..|g.outbox|] == g.outbox
    && NewEvent(h.outbox[|g.outbox|], p, id, now)
    && h.decisions == g.decisions + (if p.decision.Some? && (forall x | x in g.decisions :: x.id != p.decision.value.id)
                                     then [p.decision.value] else [])
    && h.effects == g.effects + (if p.effect.Some? && (forall x | x in g.effects :: x.id != p.effect.value.id)
                                 then [p.effect.value] else [])
    && h.transitions == g.transitions + (if p.transition.Some? then [TimedRow(p.transition.value, now)] else [])
    && (if p.snapshot.Some? && p.step.Some?
        then StepsRise(StepRows(g, p.session)) ==>
               StepsRise(StepRows(h, p.session))
               && RowWritten(StepRows(g, p.session), StepRows(h, p.session), p.step.value, p.snapshot.value)
        else StepRows(h, p.session) == StepRows(g, p.session))
    && (forall sid | sid != p.session :: StepRows(h, sid) == StepRows(g, sid))
    && h.approvals == g.approvals
  }

  lemma InsertAdds(g: PgTables, p: Payload, id: string, now: int)
    ensures AddsRowsPg(g, InsertRows(g, p, EventOf(p, id, now)), p, id, now)
  {
    hide KeyOf, Upsert, StepsRise, RowWritten;
    if p.snapshot.Some? && p.step.Some? && StepsRise(StepRows(g, p.session)) {
      UpsertWrites(StepRows(g, p.session), p.step.value, p.snapshot.value);
      UpsertRises(StepRows(g, p.session), p.step.value, p.snapshot.value);
    }
    var h := InsertRows(g, p, EventOf(p, id, now));
    assert h.outbox[..|g.outbox|] == g.outbox;
    assert g.decisions + [] == g.decisions && g.effects + [] == g.effects && g.transitions + [] == g.transitions;
  }

  lemma BaselinesApart(g: PgTables, h: PgTables, p: Payload, id: string, now: int, k: PgTables)
    requires AddsRowsPg(g, h, p, id, now) && k == h.(baselines := k.baselines)
    ensures AddsRowsPg(g, k, p, id, now)
  {
    hide KeyOf, StepsRise, RowWritten, NewEvent;
  }

  /** A call under a new key adds its rows, also when its close is refused; a duplicate adds none. */
  lemma CallEffectsPg(g: PgTables, p: Payload, id: string, now: int)
    ensures var h := PersistPg(g, p, id, now).0;
            && ((forall e | e in g.outbox :: e.key != KeyOf(p)) ==> AddsRowsPg(g, h, p, id, now))
            && ((exists e | e in g.outbox :: e.key == KeyOf(p)) ==> h == g.(baselines := h.baselines))
            && (forall sid | sid in g.baselines ::
                  sid in h.baselines && h.baselines[sid].correlation == g.baselines[sid].correlation)
  {
    hide KeyOf, F.ReplayOf, F.Fingerprint, FindByKey, Queried, AddsRowsPg, EventOf, Upsert, InsertDecision;
    hide InsertEffect;
    InsertAdds(g, p, id, now);
    if FindByKey(g.outbox, KeyOf(p)).None? {
      BaselinesApart(g, InsertRows(g, p, EventOf(p, id, now)), p, id, now, PersistPg(g, p, id, now).0);
    }
  }

  class PostgresStore {
    var rows: PgTables

    constructor ()
      ensures rows == PgTables([], [], [], [], map[], map[], [])
    {
      rows := PgTables([], [], [], [], map[], map[], []);
    }

    method CompleteSessionClose(p: Payload) returns (ok: bool)
      modifies this
      ensures ok == ClosePg(old(rows), p).Some?
      ensures rows == if ok then ClosePg(old(rows), p).value else old(rows)
    {
      var outcome := F.RunFromSession(Queried(rows), p.session, p.correlation);
      match outcome {
        case Err(_) => return false;
        case Ok(o) =>
          var b := Baseline(p.correlation, F.Fingerprint(o), F.ORCHESTRATOR_VERSION);
          rows := rows.(baselines := UpsertBaseline(rows.baselines, p.session, b));
          return true;
      }
    }

    /** The INSERT statements of a call whose key is new. */
    method InsertAll(p: Payload, event: Event)
      modifies this
      ensures rows == InsertRows(old(rows), p, event)
    {
      hide InsertDecision, InsertEffect, Upsert;
      if p.decision.Some? {
        rows := rows.(decisions := InsertDecision(rows.decisions, p.decision.value));
      }
      if p.effect.Some? {
        rows := rows.(effects := InsertEffect(rows.effects, p.effect.value));
      }
      rows := rows.(outbox := rows.outbox + [event]);
      if p.snapshot.Some? && p.step.Some? {
        var written := Upsert(StepRows(rows, p.session), p.step.value, p.snapshot.value);
        rows := rows.(snapshots := rows.snapshots[p.session := written]);
      }
      if p.transition.Some? {
        rows := rows.(transitions := rows.transitions + [TimedRow(p.transition.value, event.createdAt)]);
      }
    }

    /** The Postgres branch of `persist_runtime_tx`; `ok` is false when the close raised. */
    method PersistRuntimeTx(p: Payload, id: string, now: int) returns (ok: bool, r: Persisted)
      modifies this
      ensures rows == PersistPg(old(rows), p, id, now).0
      ensures ok == PersistPg(old(rows), p, id, now).1.Some?
      ensures ok ==> Some(r) == PersistPg(old(rows), p, id, now).1
      ensures (forall e | e in old(rows).outbox :: e.key != KeyOf(p)) ==> AddsRowsPg(old(rows), rows, p, id, now)
      ensures (exists e | e in old(rows).outbox :: e.key == KeyOf(p)) ==>
                rows == old(rows).(baselines := rows.baselines)
    {
      CallEffectsPg(rows, p, id, now);
      hide ClosePg, KeyOf, InsertRows, FindByKey;
      var existing := FindByKey(rows.outbox, KeyOf(p));
      var event := EventOf(p, id, now);
      r := Persisted(event, true);
      if existing.Some? {
        r := Persisted(existing.value, false);
      } else {
        InsertAll(p, event);
      }
      ok := true;
      if IsClose(p) {
        ok := CompleteSessionClose(p);
      }
    }
  }

  // ---- Agreement ----------------------------------------------------------

  predicate Rising<T(!new)>(key: T -> real, xs: seq<T>) { forall i | 0 < i < |xs| :: key(xs[i - 1]) < key(xs[i]) }

  predicate Contiguous(rows: seq<StepRow>) { forall i | 0 <= i < |rows| :: rows[i].step == i }

  predicate SameBaselines(bs: map<string, Baseline>, cs: map<string, Baseline>) {
    && bs.Keys == cs.Keys
    && forall sid | sid in bs :: bs[sid].fingerprint == cs[sid].fingerprint && bs[sid].version == cs[sid].version
  }

  ghost predicate SnapshotsAgree(memory: map<string, seq<Snapshot>>, rows: map<string, seq<StepRow>>) {
    forall sid: string ::
      && (if sid in memory then memory[sid] else []) == DataOf(if sid in rows then rows[sid] else [])
      && Contiguous(if sid in rows then rows[sid] else [])
  }

  /** The memory tables and the Postgres rows hold the same core data, recorded at rising times. */
  ghost predicate Agrees(t: Tables, g: PgTables) {
    && t.outbox == g.outbox && Rising(CreatedAt(), g.outbox)
    && t.decisions == g.decisions && Rising(DecidedAt(), g.decisions)
    && t.effects == g.effects && Rising(EffectAt(), g.effects)
    && t.transitions == RowsOf(g.transitions) && Rising(RecordedAt(), g.transitions)
    && SnapshotsAgree(t.snapshots, g.snapshots)
    && SameBaselines(t.baselines, g.baselines) && t.approvals == g.approvals
  }

  /** Fresh record ids, the next or an earlier snapshot step, and later times. */
  predicate Regular(g: PgTables, op: Op) {
    var p := op.p;
    && (p.decision.Some? ==> forall x | x in g.decisions ::
        x.id != p.decision.value.id && x.createdAt < p.decision.value.createdAt)
    && (p.effect.Some? ==> forall x | x in g.effects ::
        x.id != p.effect.value.id && x.createdAt < p.effect.value.createdAt)
    && (forall e | e in g.outbox :: e.createdAt < op.now)
    && (forall r | r in g.transitions :: r.at < op.now)
    && (p.step.Some? ==> p.step.value <= |StepRows(g, p.session)|)
  }

  lemma RisingSorted<T(!new)>(key: T -> real, xs: seq<T>)
    requires Rising(key, xs)
    ensures SortBy(key, xs) == xs
  {
    SortByFixed(key, xs);
  }

  /** In agreement, the queries return what the memory projections return. */
  lemma SameQueries(t: Tables, g: PgTables)
    requires Agrees(t, g)
    ensures var q := Queried(g);
            && q.outbox == t.outbox && q.decisions == t.decisions && q.effects == t.effects
            && q.transitions == t.transitions && q.approvals == t.approvals && q.baselines == g.baselines
            && forall sid :: SnapshotsOf(q, sid) == SnapshotsOf(t, sid)
  {
    hide SortBy, Rising;
    RisingSorted(DecidedAt(), g.decisions);
    RisingSorted(EffectAt(), g.effects);
    RisingSorted(RecordedAt(), g.transitions);
  }

  predicate NumberedFrom(rows: seq<StepRow>, first: nat) { forall i | 0 <= i < |rows| :: rows[i].step == first + i }

  /** Overwriting a numbered row, or adding the next one. */
  function Placed(rows: seq<StepRow>, k: nat, x: StepRow): seq<StepRow>
    requires k <= |rows|
  {
    if k < |rows| then rows[k := x] else rows + [x]
  }

  lemma PlacedBelow(rows: seq<StepRow>, k: nat, x: StepRow)
    requires 0 < k <= |rows|
    ensures Placed(rows, k, x) == [rows[0]] + Placed(rows[1..], k - 1, x)
  {
  }

  lemma {:induction false} UpsertNumbered(rows: seq<StepRow>, first: nat, step: nat, data: Snapshot)
    requires NumberedFrom(rows, first) && first <= step <= first + |rows|
    ensures Upsert(rows, step, data) == Placed(rows, step - first, StepRow(step, data))
  {
    hide PutSnapshot, DataOf;
    var x := StepRow(step, data);
    if rows == [] {
      assert [x] + rows == rows + [x];
    } else if step == first {
      assert rows[0 := x] == [x] + rows[1..];
    } else {
      hide Placed;
      UpsertNumbered(rows[1..], first + 1, step, data);
      PlacedBelow(rows, step - first, x);
    }
  }

  /** With contiguous steps the upsert and the padded list are the same thing. */
  lemma UpsertIsPut(rows: seq<StepRow>, step: nat, data: Snapshot)
    requires Contiguous(rows) && step <= |rows|
    ensures Contiguous(Upsert(rows, step, data))
    ensures DataOf(Upsert(rows, step, data)) == PutSnapshot(DataOf(rows), step, data)
  {
    UpsertNumbered(rows, 0, step, data);
  }

  lemma PutAgrees(memory: map<string, seq<Snapshot>>, rows: map<string, seq<StepRow>>, sid: string, step: nat,
      data: Snapshot)
    requires SnapshotsAgree(memory, rows) && step <= |if sid in rows then rows[sid] else []|
    ensures SnapshotsAgree(memory[sid := PutSnapshot(if sid in memory then memory[sid] else [], step, data)],
                           rows[sid := Upsert(if sid in rows then rows[sid] else [], step, data)])
  {
    hide Upsert, PutSnapshot, Contiguous, DataOf;
    UpsertIsPut(if sid in rows then rows[sid] else [], step, data);
  }

  lemma RowsAppend(rows: seq<TimedRow>, r: TimedRow)
    ensures RowsOf(rows + [r]) == RowsOf(rows) + [r.row]
  {
  }

  lemma RisingAppend<T(!new)>(key: T -> real, xs: seq<T>, x: T)
    requires Rising(key, xs) && forall y | y in xs :: key(y) < key(x)
    ensures Rising(key, xs + [x])
  {
  }

  lemma InsertAgrees(t: Tables, g: PgTables, op: Op)
    requires Agrees(t, g) && Regular(g, op)
    ensures Agrees(AppendRows(t, op.p, EventOf(op.p, op.id, op.now)), InsertRows(g, op.p, EventOf(op.p, op.id, op.now)))
  {
    hide IdempotencyKey, Rising, Upsert, PutSnapshot, SnapshotsAgree, SameBaselines, RowsOf;
    var p, e := op.p, EventOf(op.p, op.id, op.now);
    RisingAppend(CreatedAt(), g.outbox, e);
    if p.decision.Some? {
      RisingAppend(DecidedAt(), g.decisions, p.decision.value);
    }
    if p.effect.Some? {
      RisingAppend(EffectAt(), g.effects, p.effect.value);
    }
    if p.transition.Some? {
      RisingAppend(RecordedAt(), g.transitions, TimedRow(p.transition.value, op.now));
      RowsAppend(g.transitions, TimedRow(p.transition.value, op.now));
    }
    if p.snapshot.Some? && p.step.Some? {
      PutAgrees(t.snapshots, g.snapshots, p.session, p.step.value, p.snapshot.value);
    }
  }

  lemma ReplayByView(t: Tables, u: Tables, sid: string, cid: string)
    requires SameReplayView(t, u, sid, cid) && F.BundleVersion(t, sid) == F.BundleVersion(u, sid)
    ensures F.ReplayOf(t, sid, cid) == F.ReplayOf(u, sid, cid)
  {
    var b, c := F.BundleOf(t, sid, cid), F.BundleOf(u, sid, cid);
    assert b.steps == c.steps;
    assert F.ToolSequence(b) == F.ToolSequence(c);
    hide F.StepNames, F.ConnectedPath, EventsByCorrelation, F.IntentTool;
  }

  /** In agreement, both backends replay every session to the same outcome. */
  lemma SameReplays(t: Tables, g: PgTables, sid: string, cid: string)
    requires Agrees(t, g)
    ensures F.ReplayOf(Queried(g), sid, cid) == F.ReplayOf(t, sid, cid)
  {
    hide Agrees, F.IntentTool, EventsByCorrelation, F.ReplayOf, SortBy;
    SameQueries(t, g);
    IntentByFilter(t, Queried(g), cid);
    VersionsAgree(t, g, sid);
    ReplayByView(t, Queried(g), sid, cid);
  }

  lemma VersionsAgree(t: Tables, g: PgTables, sid: string)
    requires Agrees(t, g)
    ensures sid in t.baselines <==> sid in g.baselines
    ensures sid in t.baselines ==> t.baselines[sid].version == g.baselines[sid].version
  {
  }

  /** The tables agree only if the outboxes do. */
  lemma AgreeingOutboxes(t: Tables, g: PgTables)
    requires Agrees(t, g)
    ensures t.outbox == g.outbox
  {
  }

  predicate SameEntry(b: Baseline, c: Baseline) { b.fingerprint == c.fingerprint && b.version == c.version }

  /** Writing a baseline on both backends keeps agreement exactly when the two entries match. */
  lemma BothWrite(t: Tables, g: PgTables, sid: string, b: Baseline, c: Baseline)
    requires Agrees(t, g)
    ensures Agrees(t.(baselines := t.baselines[sid := b]), g.(baselines := UpsertBaseline(g.baselines, sid, c)))
            <==> SameEntry(b, c)
  {
    hide Rising, SnapshotsAgree, RowsOf;
    var bs, cs := t.baselines[sid := b], UpsertBaseline(g.baselines, sid, c);
    assert bs.Keys == t.baselines.Keys + {sid} == cs.Keys;
    assert sid in bs && bs[sid] == b && SameEntry(cs[sid], c);
  }

  /** Writing one in memory alone does when it repeats the one already there. */
  lemma MemoryWrites(t: Tables, g: PgTables, sid: string, b: Baseline)
    requires Agrees(t, g)
    ensures Agrees(t.(baselines := t.baselines[sid := b]), g)
            <==> sid in t.baselines && SameEntry(t.baselines[sid], b)
  {
    hide Rising, SnapshotsAgree, RowsOf;
    var bs := t.baselines[sid := b];
    assert sid in bs && bs[sid] == b && bs.Keys == t.baselines.Keys + {sid};
  }

  lemma AgreesCore(t: Tables, u: Tables, g: PgTables)
    requires u == t.(spans := u.spans, health := u.health, retryTraces := u.retryTraces)
    ensures Agrees(u, g) <==> Agrees(t, g)
  {
    hide Rising, SnapshotsAgree, RowsOf, SameBaselines;
  }

  predicate IsNew(t: Tables, op: Op) { FindByKey(t.outbox, KeyOf(op.p)).None? }

  /** No close, a duplicate, or a close that goes through and whose rows change nothing the outcome shows. */
  predicate AgreeingCall(t: Tables, op: Op) {
    IsClose(op.p) && IsNew(t, op) ==> GoesThrough(t, op) && KeepsOutcome(t, op.p)
  }

  function ReplayBefore(t: Tables, op: Op): Option<F.Outcome> { F.ReplayOf(t, op.p.session, op.p.correlation) }

  function EntryOf(op: Op, o: F.Outcome): Baseline {
    Baseline(op.p.correlation, F.Fingerprint(o), F.ORCHESTRATOR_VERSION)
  }

  /** A close that only memory accepts, and that stores there the entry both backends already hold. */
  predicate RepeatsEntry(t: Tables, op: Op) {
    && IsClose(op.p) && IsNew(t, op) && ReplayBefore(t, op).Some? && !F.Accepts(BundleAfter(t, op.p))
    && op.p.session in t.baselines && SameEntry(t.baselines[op.p.session], EntryOf(op, ReplayBefore(t, op).value))
  }

  lemma PlainCall(t: Tables, g: PgTables, op: Op)
    requires Agrees(t, g) && Regular(g, op) && !IsClose(op.p)
    ensures var (u, r) := PersistSpec(t, op.p, op.pending, op.id, op.now);
            var (h, q) := PersistPg(g, op.p, op.id, op.now);
            r == q && r.Some? && Agrees(u, h)
  {
    hide Agrees, Regular, IdempotencyKey, AppendSpans, FindByKey, PutSnapshot, Upsert, InsertDecision, InsertEffect;
    AgreeingOutboxes(t, g);
    var u, h := Step(t, op), StepPg(g, op);
    if IsNew(t, op) {
      InsertAgrees(t, g, op);
      AgreesCore(AppendRows(t, op.p, EventOf(op.p, op.id, op.now)), u, h);
    } else {
      AgreesCore(t, u, h);
    }
  }

  lemma DuplicateCall(t: Tables, g: PgTables, op: Op)
    requires Agrees(t, g) && IsClose(op.p) && !IsNew(t, op)
    ensures var (u, r) := PersistSpec(t, op.p, op.pending, op.id, op.now);
            var (h, q) := PersistPg(g, op.p, op.id, op.now);
            r == q && Agrees(u, h)
  {
    hide Agrees, IdempotencyKey, AppendSpans, FindByKey, F.ReplayOf, F.Fingerprint, ReplaceHealth, AppendRows;
    hide InsertRows;
    AgreeingOutboxes(t, g);
    SameReplays(t, g, op.p.session, op.p.correlation);
    var u, h := Step(t, op), StepPg(g, op);
    if ReplayBefore(t, op).Some? {
      var b := EntryOf(op, ReplayBefore(t, op).value);
      BothWrite(t, g, op.p.session, b, b);
      AgreesCore(t.(baselines := u.baselines), u, h);
    }
  }

  /** The two backends on a close under a new key, step by step. */
  lemma NewCloseTables(t: Tables, g: PgTables, op: Op)
    requires Agrees(t, g) && Regular(g, op) && IsClose(op.p) && IsNew(t, op)
    ensures var (u, r) := PersistSpec(t, op.p, op.pending, op.id, op.now);
            var (h, q) := PersistPg(g, op.p, op.id, op.now);
            var w := AppendRows(t, op.p, EventOf(op.p, op.id, op.now));
            var g1 := InsertRows(g, op.p, EventOf(op.p, op.id, op.now));
            var before, after := ReplayBefore(t, op), ReplayBefore(w, op);
            && Agrees(w, g1) && w.baselines == t.baselines
            && (r.Some? <==> before.Some?) && (q.Some? <==> after.Some?)
            && (r.Some? && q.Some? ==> r == q)
            && (if before.None? then u == t
                else u == w.(baselines := w.baselines[op.p.session := EntryOf(op, before.value)],
                             spans := u.spans, health := u.health))
            && h == (if after.None? then g1
                     else g1.(baselines := UpsertBaseline(g1.baselines, op.p.session, EntryOf(op, after.value))))
            && h.outbox == g.outbox + [EventOf(op.p, op.id, op.now)]
  {
    hide Agrees, Regular, IdempotencyKey, AppendSpans, FindByKey, F.ReplayOf, F.Fingerprint, ReplaceHealth;
    hide PutSnapshot, Upsert, InsertDecision, InsertEffect;
    AgreeingOutboxes(t, g);
    InsertAgrees(t, g, op);
    SameReplays(AppendRows(t, op.p, EventOf(op.p, op.id, op.now)), InsertRows(g, op.p, EventOf(op.p, op.id, op.now)),
                op.p.session, op.p.correlation);
  }

  lemma NewCloseAgrees(t: Tables, g: PgTables, op: Op)
    requires Agrees(t, g) && Regular(g, op) && IsClose(op.p) && IsNew(t, op)
    ensures var (u, r) := PersistSpec(t, op.p, op.pending, op.id, op.now);
            var (h, q) := PersistPg(g, op.p, op.id, op.now);
            && (Agrees(u, h) <==> AgreeingCall(t, op) || RepeatsEntry(t, op))
            && (r.Some? <==> ReplayBefore(t, op).Some?) && (q.Some? <==> F.Accepts(BundleAfter(t, op.p)))
            && (AgreeingCall(t, op) ==> r == q)
            && (r.None? ==> u == t && h.outbox == t.outbox + [EventOf(op.p, op.id, op.now)])
  {
    hide Agrees, Regular, KeyOf, FindByKey, F.ReplayOf, F.Fingerprint, F.Accepts, BundleAfter, SameTools;
    hide PersistSpec, PersistPg, AppendRows, InsertRows, F.OutcomeOf, UpsertBaseline;
    var w, g1 := AppendRows(t, op.p, EventOf(op.p, op.id, op.now)), InsertRows(g, op.p, EventOf(op.p, op.id, op.now));
    var u, h, sid := Step(t, op), StepPg(g, op), op.p.session;
    var before, after := ReplayBefore(t, op), ReplayBefore(w, op);
    AgreeingOutboxes(t, g);
    NewCloseTables(t, g, op);
    AppendedReplay(t, op.p, EventOf(op.p, op.id, op.now));
    if before.None? {
      if Agrees(u, h) {
        AgreeingOutboxes(u, h);
      }
    } else {
      var b := EntryOf(op, before.value);
      AgreesCore(w.(baselines := w.baselines[sid := b]), u, h);
      ReplayedOutcome(t, op);
      if after.None? {
        MemoryWrites(w, g1, sid, b);
      } else {
        SameFingerprint(before.value, after.value);
        BothWrite(w, g1, sid, b, EntryOf(op, after.value));
      }
    }
  }

  lemma ReplayedOutcome(t: Tables, op: Op)
    requires ReplayBefore(t, op).Some?
    ensures ReplayBefore(t, op).value == F.OutcomeOf(t, F.BundleOf(t, op.p.session, op.p.correlation))
  {
    hide F.OutcomeOf, F.Accepts;
  }

  /**
   * One call on agreeing tables leaves them in agreement exactly when it is no close under a new key, or one that
   * goes through and keeps the outcome, or one that only memory accepts and that repeats the entry already there.
   * Memory replays the rows before a new close and Postgres the rows after it, and a close refused in memory
   * leaves nothing there but its outbox row on Postgres.
   */
  lemma BackendsAgree(t: Tables, g: PgTables, op: Op)
    requires Agrees(t, g) && Regular(g, op)
    ensures var (u, r) := PersistSpec(t, op.p, op.pending, op.id, op.now);
            var (h, q) := PersistPg(g, op.p, op.id, op.now);
            && (Agrees(u, h) <==> AgreeingCall(t, op) || RepeatsEntry(t, op))
            && (AgreeingCall(t, op) ==> r == q)
            && (IsClose(op.p) && IsNew(t, op) ==>
                  && (r.Some? <==> ReplayBefore(t, op).Some?) && (q.Some? <==> F.Accepts(BundleAfter(t, op.p)))
                  && (r.None? ==> u == t && h.outbox == t.outbox + [EventOf(op.p, op.id, op.now)]))
  {
    hide Agrees, Regular, KeyOf, FindByKey, F.ReplayOf, F.Fingerprint, F.Accepts, BundleAfter, KeepsOutcome;
    hide PersistSpec, PersistPg, GoesThrough, SameEntry;
    if !IsClose(op.p) {
      PlainCall(t, g, op);
    } else if IsNew(t, op) {
      NewCloseAgrees(t, g, op);
    } else {
      DuplicateCall(t, g, op);
    }
  }

  /** A close without rows of its own: the backends agree again unless the replay refused it. */
  lemma QuietClosesAgree(t: Tables, g: PgTables, op: Op)
    requires Agrees(t, g) && Regular(g, op) && QuietClose(op.p)
    ensures var (u, r) := PersistSpec(t, op.p, op.pending, op.id, op.now);
            var (h, q) := PersistPg(g, op.p, op.id, op.now);
            && r == q && (Agrees(u, h) <==> r.Some? || !IsNew(t, op))
  {
    hide Agrees, Regular, KeyOf, FindByKey, F.Fingerprint, F.Accepts, BundleAfter, KeepsOutcome;
    hide PersistSpec, PersistPg, SameEntry;
    BackendsAgree(t, g, op);
    QuietBundle(t, op.p);
    if IsNew(t, op) {
      if GoesThrough(t, op) {
        QuietKeepsOutcome(t, op);
      }
    } else {
      DuplicateCall(t, g, op);
    }
  }

  // ---- Whole runs ---------------------------------------------------------

  function StepPg(g: PgTables, op: Op): PgTables { PersistPg(g, op.p, op.id, op.now).0 }

  function RunPg(g: PgTables, ops: seq<Op>): PgTables
    decreases ops
  {
    if ops == [] then g else RunPg(StepPg(g, ops[0]), ops[1..])
  }

  /** Every call is regular where it happens, and every close under a new key goes through and keeps the outcome. */
  predicate RegularRun(t: Tables, g: PgTables, ops: seq<Op>)
    decreases ops
  {
    ops == [] ||
    (&& Regular(g, ops[0])
     && AgreeingCall(t, ops[0])
     && RegularRun(Step(t, ops[0]), StepPg(g, ops[0]), ops[1..]))
  }

  /** Over every such run the backends hold the same core tables, baselines and replays of every session. */
  lemma {:induction false} RunsAgree(t: Tables, g: PgTables, ops: seq<Op>, sid: string, cid: string)
    requires Agrees(t, g) && RegularRun(t, g, ops)
    ensures var (u, h) := (RunOps(t, ops), RunPg(g, ops));
            && Agrees(u, h)
            && BaselineFp(u, sid) == (if sid in h.baselines then Some(h.baselines[sid].fingerprint) else None)
            && F.ReplayOf(Queried(h), sid, cid) == F.ReplayOf(u, sid, cid)
    decreases ops
  {
    hide Agrees, Regular, PersistSpec, PersistPg, F.ReplayOf, KeyOf, AgreeingCall, RepeatsEntry;
    if ops == [] {
      FingerprintsAgree(t, g, sid);
      SameReplays(t, g, sid, cid);
    } else {
      BackendsAgree(t, g, ops[0]);
      RunsAgree(Step(t, ops[0]), StepPg(g, ops[0]), ops[1..], sid, cid);
    }
  }

  lemma FingerprintsAgree(t: Tables, g: PgTables, sid: string)
    requires Agrees(t, g)
    ensures BaselineFp(t, sid) == (if sid in g.baselines then Some(g.baselines[sid].fingerprint) else None)
  {
  }

  /** Both backends start out empty. */
  lemma EmptyAgree()
    ensures Agrees(Tables([], [], [], [], map[], map[], [], [], [], []), PgTables([], [], [], [], map[], map[], []))
  {
  }
}
