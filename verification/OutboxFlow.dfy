/**
 * From core/transaction.py to workers/outbox_processor.py: whatever is persisted reaches the workers. Persist
 * calls and batches in any order, in memory and on Postgres.
 */
module OutboxFlow {
  import opened Wrappers
  import opened Json
  import opened Canonical
  import opened Seqs
  import opened Persistence
  import opened Transactions
  import opened OutboxDrain
  import W = OutboxWorkers
  import P = PostgresBackend

  // ---- In memory ----------------------------------------------------------

  datatype Act = Persist(op: Op) | RunBatch(handler: Event -> bool, limit: nat)

  /** The tables, the processed set, and the rows that batches have handled so far, in order. */
  datatype Flow = Flow(t: Tables, keys: set<Digest>, done: seq<nat>)

  function Do(s: Flow, a: Act): Flow {
    match a
    case Persist(op) => s.(t := Step(s.t, op))
    case RunBatch(handler, limit) =>
      var b := Batch(handler, s.t.outbox, s.keys, limit);
      Flow(s.t.(outbox := b.outbox), b.keys, s.done + b.done)
  }

  function DoAll(s: Flow, acts: seq<Act>): Flow
    decreases acts
  {
    if acts == [] then s else DoAll(Do(s, acts[0]), acts[1..])
  }

  predicate InOrder(s: Flow) { Settled(Progress(s.t.outbox, s.keys, [])) }

  /** Since the outbox was `base`: nothing but the flag of a row changed, and `done` lists the rows flagged. */
  predicate Accounted(base: seq<Event>, outbox: seq<Event>, done: seq<nat>) {
    && |base| <= |outbox| && W.NoDup(done)
    && (forall i | 0 <= i < |base| :: outbox[i] == base[i].(processed := outbox[i].processed))
    && (forall i | i in done :: i < |outbox| && (i < |base| ==> !base[i].processed))
    && forall i | 0 <= i < |outbox| :: outbox[i].processed <==> (i < |base| && base[i].processed) || i in done
  }

  lemma PersistAccounts(base: seq<Event>, s: Flow, op: Op)
    requires InOrder(s) && Accounted(base, s.t.outbox, s.done)
    ensures var s' := Do(s, Persist(op)); InOrder(s') && Accounted(base, s'.t.outbox, s'.done)
  {
    hide PersistSpec, KeyOf, AddsRows, Settled;
    CallEffects(s.t, op);
    var u := Step(s.t, op);
    if forall e | e in s.t.outbox :: e.key != KeyOf(op.p) {
      if u != s.t {
        NewRow(s.t, u, op);
        assert FindByKey(s.t.outbox, KeyOf(op.p)).None?;
        AppendKeepsAgree(Progress(s.t.outbox, s.keys, []), u.outbox[|s.t.outbox|]);
      }
    }
  }

  /** What the next lemmas need of `AddsRows`. */
  lemma NewRow(t: Tables, u: Tables, op: Op)
    requires AddsRows(t, u, op.p, op.id, op.now)
    ensures |u.outbox| == |t.outbox| + 1 && u.outbox == t.outbox + [u.outbox[|t.outbox|]]
    ensures NewEvent(u.outbox[|t.outbox|], op.p, op.id, op.now)
  {
  }

  lemma BatchAccounts(base: seq<Event>, s: Flow, handler: Event -> bool, limit: nat)
    requires InOrder(s) && Accounted(base, s.t.outbox, s.done)
    ensures var s' := Do(s, RunBatch(handler, limit)); InOrder(s') && Accounted(base, s'.t.outbox, s'.done)
  {
    hide Settled, Batch, Accounted;
    var b := Batch(handler, s.t.outbox, s.keys, limit);
    BatchFlagsPending(s, handler, limit);
    SettledAgain(b, Progress(b.outbox, b.keys, []));
    FlagsAccount(base, s.t.outbox, b.outbox, s.done, b.done);
  }

  /** A batch flags rows that were pending, each once. */
  lemma BatchFlagsPending(s: Flow, handler: Event -> bool, limit: nat)
    requires InOrder(s)
    ensures var b := Batch(handler, s.t.outbox, s.keys, limit);
            && Settled(b) && W.NoDup(b.done) && Flagged(s.t.outbox, b.outbox, b.done)
            && forall i | i in b.done :: i < |s.t.outbox| && !s.t.outbox[i].processed
  {
    hide Settled, Batch, Backlog;
    var b := Batch(handler, s.t.outbox, s.keys, limit);
    var first := Backlog(s.t.outbox)[..Least(limit, |Backlog(s.t.outbox)|)];
    BatchProcesses(handler, s.t.outbox, s.keys, limit);
    PendingRows(Progress(s.t.outbox, s.keys, []));
    FilterNoDup((i: nat) => i < |s.t.outbox| && handler(s.t.outbox[i]), first);
    forall i | i in first ensures i in Backlog(s.t.outbox) {
    }
  }

  lemma FlagsAccount(base: seq<Event>, outbox: seq<Event>, outbox': seq<Event>, done: seq<nat>, more: seq<nat>)
    requires Accounted(base, outbox, done) && Flagged(outbox, outbox', more) && W.NoDup(more)
    requires forall i | i in more :: i < |outbox| && !outbox[i].processed
    ensures Accounted(base, outbox', done + more)
  {
    DisjointConcat(done, more);
  }

  lemma {:induction false} FilterNoDup(p: nat -> bool, xs: seq<nat>)
    requires W.NoDup(xs)
    ensures W.NoDup(Filter(p, xs))
  {
    if xs != [] {
      FilterNoDup(p, xs[1..]);
      var f := Filter(p, xs[1..]);
      forall k | 0 <= k < |f| ensures f[k] != xs[0] {
        assert f[k] in xs[1..];
      }
    }
  }

  lemma DisjointConcat(xs: seq<nat>, ys: seq<nat>)
    requires W.NoDup(xs) && W.NoDup(ys) && forall x | x in xs :: x !in ys
    ensures W.NoDup(xs + ys)
  {
    var all := xs + ys;
    forall i, j | 0 <= i < j < |all| ensures all[i] != all[j] {
      assert i < |xs| ==> all[i] in xs;
      assert j >= |xs| ==> all[j] in ys;
    }
  }

  lemma {:induction false} ActsAccount(base: seq<Event>, s: Flow, acts: seq<Act>)
    requires InOrder(s) && Accounted(base, s.t.outbox, s.done)
    ensures var u := DoAll(s, acts); InOrder(u) && Accounted(base, u.t.outbox, u.done)
    decreases acts
  {
    hide Do, InOrder, Accounted;
    if acts != [] {
      match acts[0]
      case Persist(op) => PersistAccounts(base, s, op); ActsAccount(base, Do(s, acts[0]), acts[1..]);
      case RunBatch(handler, limit) =>
        BatchAccounts(base, s, handler, limit);
        ActsAccount(base, Do(s, acts[0]), acts[1..]);
    }
  }

  /**
   * Over every run of persist calls and batches under any handlers: flags and processed set agree, no stored event
   * changes but for its flag, and every event that was persisted since, or was pending at the start, is either
   * still in the backlog or was handled by exactly one batch, once.
   */
  lemma NothingGetsLost(s: Flow, acts: seq<Act>)
    requires InOrder(s) && s.done == []
    ensures var u := DoAll(s, acts);
            && InOrder(u) && |s.t.outbox| <= |u.t.outbox| && W.NoDup(u.done)
            && (forall i | 0 <= i < |s.t.outbox| ::
                  u.t.outbox[i] == s.t.outbox[i].(processed := u.t.outbox[i].processed))
            && forall i | 0 <= i < |u.t.outbox| && (i < |s.t.outbox| ==> !s.t.outbox[i].processed) ::
                 i in Backlog(u.t.outbox) <==> i !in u.done
  {
    hide InOrder, DoAll, Pending;
    ActsAccount(s.t.outbox, s, acts);
  }

  lemma {:induction false} DoAllConcat(s: Flow, acts: seq<Act>, more: seq<Act>)
    ensures DoAll(s, acts + more) == DoAll(DoAll(s, acts), more)
    decreases acts
  {
    hide Do;
    if acts == [] {
      assert acts + more == more;
    } else {
      assert (acts + more)[1..] == acts[1..] + more;
      DoAllConcat(Do(s, acts[0]), acts[1..], more);
    }
  }

  /**
   * A call that goes through under a new key, anywhere in such a run: its event keeps its id, time, correlation,
   * type and payload, and ends up in the backlog or handled by a batch.
   */
  lemma PersistedReachesWorkers(s: Flow, before: seq<Act>, op: Op, after: seq<Act>)
    requires InOrder(s) && s.done == []
    requires var mid := DoAll(s, before);
             && (forall e | e in mid.t.outbox :: e.key != KeyOf(op.p))
             && PersistSpec(mid.t, op.p, op.pending, op.id, op.now).1.Some?
    ensures var i := |DoAll(s, before).t.outbox|;
            var u := DoAll(s, before + [Persist(op)] + after);
            && i < |u.t.outbox|
            && NewEvent(u.t.outbox[i].(processed := false), op.p, op.id, op.now)
            && (i in Backlog(u.t.outbox) <==> i !in u.done)
            && (after == [] ==> i in Backlog(u.t.outbox))
  {
    hide InOrder, DoAll, PersistSpec, KeyOf, AddsRows, Accounted, Backlog;
    var mid := DoAll(s, before);
    var next := Do(mid, Persist(op));
    NothingYetDone(s);
    ActsAccount(s.t.outbox, s, before);
    AtLeastBase(s.t.outbox, mid);
    CallEffects(mid.t, op);
    NewRow(mid.t, next.t, op);
    DoAllConcat(s, before + [Persist(op)], after);
    DoAllConcat(s, before, [Persist(op)]);
    OneAct(mid, Persist(op));
    var u := DoAll(next, after);
    PersistAccounts(s.t.outbox, mid, op);
    ActsAccount(s.t.outbox, next, after);
    RowKept(next, after, |mid.t.outbox|);
    BacklogOrDone(s.t.outbox, u, |mid.t.outbox|);
    BacklogOrDone(s.t.outbox, next, |mid.t.outbox|);
    NotYetDone(s.t.outbox, next, |mid.t.outbox|);
    if after == [] {
      NoActs(next);
    }
  }

  lemma AtLeastBase(base: seq<Event>, s: Flow)
    requires Accounted(base, s.t.outbox, s.done)
    ensures |base| <= |s.t.outbox|
  {
  }

  lemma NothingYetDone(s: Flow)
    requires s.done == []
    ensures Accounted(s.t.outbox, s.t.outbox, s.done)
  {
  }

  lemma OneAct(s: Flow, a: Act)
    ensures DoAll(s, [a]) == Do(s, a)
  {
    hide Do;
    assert [a][1..] == [];
  }

  lemma NoActs(s: Flow)
    ensures DoAll(s, []) == s
  {
  }

  /** Later acts change nothing of a row but its flag. */
  lemma RowKept(s: Flow, acts: seq<Act>, i: nat)
    requires InOrder(s) && i < |s.t.outbox|
    ensures var u := DoAll(s, acts);
            i < |u.t.outbox| && u.t.outbox[i] == s.t.outbox[i].(processed := u.t.outbox[i].processed)
  {
    hide Settled, DoAll;
    var restarted := s.(done := []);
    NothingYetDone(restarted);
    ActsAccount(s.t.outbox, restarted, acts);
    SameButDone(s, restarted, acts);
  }

  lemma {:induction false} SameButDone(s: Flow, s': Flow, acts: seq<Act>)
    requires s'.t == s.t && s'.keys == s.keys
    ensures DoAll(s', acts).t == DoAll(s, acts).t
    decreases acts
  {
    hide Step, Batch;
    if acts != [] {
      SameButDone(Do(s, acts[0]), Do(s', acts[0]), acts[1..]);
    }
  }

  lemma BacklogOrDone(base: seq<Event>, s: Flow, i: nat)
    requires Accounted(base, s.t.outbox, s.done) && |base| <= i < |s.t.outbox|
    ensures i in Backlog(s.t.outbox) <==> i !in s.done
  {
    hide Pending;
  }

  lemma NotYetDone(base: seq<Event>, s: Flow, i: nat)
    requires Accounted(base, s.t.outbox, s.done) && |base| <= i < |s.t.outbox| && !s.t.outbox[i].processed
    ensures i !in s.done
  {
  }

  /** After any such run, ceil(n / limit) further batches with succeeding handlers process every event there is. */
  lemma EverythingDrains(s: Flow, acts: seq<Act>, handler: Event -> bool, limit: nat, count: nat)
    requires InOrder(s) && s.done == [] && limit >= 1 && forall e :: handler(e)
    requires count >= (|Backlog(DoAll(s, acts).t.outbox)| + limit - 1) / limit
    ensures var u := DoAll(s, acts);
            var r := RunBatches(handler, Progress(u.t.outbox, u.keys, u.done), limit, count);
            forall i | 0 <= i < |r.outbox| :: r.outbox[i].processed
  {
    hide DoAll, Pending, Batch, RunBatches, Settled;
    NothingYetDone(s);
    ActsAccount(s.t.outbox, s, acts);
    var u := DoAll(s, acts);
    SettledAgain(Progress(u.t.outbox, u.keys, []), Progress(u.t.outbox, u.keys, u.done));
    DrainFinishes(handler, Progress(u.t.outbox, u.keys, u.done), limit, count);
  }

  // ---- On Postgres --------------------------------------------------------

  datatype PgAct = PersistPgAct(op: Op) | Work(m: W.Move)

  /** The committed tables, seen by the store and by the workers. */
  datatype PgFlow = PgFlow(g: P.PgTables, pool: W.Pool)

  predicate OneOutbox(s: PgFlow) { s.g.outbox == s.pool.outbox }

  /** Workers append nothing themselves. */
  predicate CanDoPg(s: PgFlow, a: PgAct) { a.Work? ==> !a.m.Append? && W.CanMove(s.pool, a.m) }

  function DoPg(s: PgFlow, a: PgAct): PgFlow
    requires CanDoPg(s, a)
  {
    match a
    case PersistPgAct(op) =>
      var g := P.StepPg(s.g, op);
      PgFlow(g, s.pool.(outbox := g.outbox))
    case Work(m) =>
      var pool := W.Do(s.pool, m);
      PgFlow(s.g.(outbox := pool.outbox), pool)
  }

  predicate CanDoAllPg(s: PgFlow, acts: seq<PgAct>)
    decreases acts
  {
    acts == [] || (CanDoPg(s, acts[0]) && CanDoAllPg(DoPg(s, acts[0]), acts[1..]))
  }

  function DoAllPg(s: PgFlow, acts: seq<PgAct>): PgFlow
    requires CanDoAllPg(s, acts)
    decreases acts
  {
    if acts == [] then s else DoAllPg(DoPg(s, acts[0]), acts[1..])
  }

  lemma NewRowPg(g: P.PgTables, h: P.PgTables, op: Op)
    requires P.AddsRowsPg(g, h, op.p, op.id, op.now)
    ensures |h.outbox| == |g.outbox| + 1 && h.outbox == g.outbox + [h.outbox[|g.outbox|]]
    ensures NewEvent(h.outbox[|g.outbox|], op.p, op.id, op.now)
  {
  }

  /** To the workers, a persist call is no move or the insert of a pending row under a new key. */
  lemma PersistIsAppend(s: PgFlow, op: Op)
    requires OneOutbox(s)
    ensures var u := DoPg(s, PersistPgAct(op));
            if exists e | e in s.g.outbox :: e.key == KeyOf(op.p) then u.pool == s.pool
            else && |u.g.outbox| == |s.g.outbox| + 1 && NewEvent(u.g.outbox[|s.g.outbox|], op.p, op.id, op.now)
                 && W.CanMove(s.pool, W.Append(u.g.outbox[|s.g.outbox|]))
                 && u.pool == W.Do(s.pool, W.Append(u.g.outbox[|s.g.outbox|]))
  {
    hide P.PersistPg, KeyOf, P.AddsRowsPg;
    P.CallEffectsPg(s.g, op.p, op.id, op.now);
    var u := DoPg(s, PersistPgAct(op));
    if forall e | e in s.g.outbox :: e.key != KeyOf(op.p) {
      NewRowPg(s.g, u.g, op);
    }
  }

  /** Such a run is a run of the worker pool. */
  lemma {:induction false} PoolRun(s: PgFlow, acts: seq<PgAct>) returns (ms: seq<W.Move>)
    requires OneOutbox(s) && CanDoAllPg(s, acts)
    ensures OneOutbox(DoAllPg(s, acts))
    ensures W.CanRun(s.pool, ms) && W.Run(s.pool, ms) == DoAllPg(s, acts).pool
    decreases acts
  {
    hide P.PersistPg, KeyOf, W.Do, W.CanMove, NewEvent;
    ms := [];
    if acts != [] {
      var u := DoPg(s, acts[0]);
      var rest := PoolRun(u, acts[1..]);
      if acts[0].Work? {
        ms := [acts[0].m] + rest;
      } else {
        PersistIsAppend(s, acts[0].op);
        ms := if u.pool == s.pool then rest else [W.Append(u.g.outbox[|s.g.outbox|])] + rest;
      }
      assert ms != rest ==> ms[1..] == rest;
    }
  }

  /**
   * Over every interleaving of persist calls with workers, commits and aborts: every event persisted since, or
   * pending at the start, is unprocessed or was updated by exactly one committed batch.
   */
  lemma NothingGetsLostPg(s: PgFlow, acts: seq<PgAct>)
    requires OneOutbox(s) && W.Initial(s.pool) && CanDoAllPg(s, acts)
    ensures var u := DoAllPg(s, acts);
            && OneOutbox(u) && W.NoDup(u.pool.flips) && |s.g.outbox| <= |u.g.outbox|
            && forall i | 0 <= i < |u.g.outbox| && (i < |s.g.outbox| ==> !s.g.outbox[i].processed) ::
                 i in Backlog(u.g.outbox) <==> i !in u.pool.flips
  {
    hide W.Initial, CanDoAllPg, DoAllPg, W.CanRun, W.Run, W.WorkerOk, W.Disjoint, Settled, Pending;
    var ms := PoolRun(s, acts);
    W.InitialInv(s.pool);
    W.RunKeeps(s.pool.outbox, s.pool, ms);
  }
}
