/**
 * workers/outbox_processor.py `process_outbox_batch`: any number of Postgres workers, each batch one
 * transaction with FOR UPDATE SKIP LOCKED, interleaved with commits, aborts and inserts.
 */
module OutboxWorkers {
  import opened Wrappers
  import opened Canonical
  import opened Seqs
  import opened Persistence
  import opened Transactions
  import opened OutboxDrain

  /** A busy worker holds the row locks of `batch`, is about to handle number `next` and has updated `flipped`. */
  datatype Worker = Idle | Busy(batch: seq<nat>, next: nat, flipped: seq<nat>)

  /** Committed tables; `returned` sums the counts of committed batches, `flips` lists their updates. */
  datatype Pool = Pool(outbox: seq<Event>, keys: set<Digest>, workers: seq<Worker>, returned: nat, flips: seq<nat>)

  datatype Move =
    | Select(w: nat, limit: nat)
    | Handle(w: nat, ok: bool)
    | Commit(w: nat)
    | Abort(w: nat)
    | Append(e: Event)

  predicate Holds(w: Worker, i: nat) { w.Busy? && i in w.batch }

  predicate Locked(workers: seq<Worker>, i: nat) { exists k | 0 <= k < |workers| :: Holds(workers[k], i) }

  function SkipLocked(workers: seq<Worker>, rows: seq<nat>): (r: seq<nat>)
    ensures forall i :: i in r <==> i in rows && !Locked(workers, i)
  {
    if rows == [] then []
    else (if Locked(workers, rows[0]) then [] else [rows[0]]) + SkipLocked(workers, rows[1..])
  }

  predicate CanMove(s: Pool, m: Move) {
    match m
    case Select(w, _) => w < |s.workers| && s.workers[w].Idle?
    case Handle(w, _) => w < |s.workers| && s.workers[w].Busy? && s.workers[w].next < |s.workers[w].batch|
    case Commit(w) => w < |s.workers| && s.workers[w].Busy? && s.workers[w].next == |s.workers[w].batch|
    case Abort(w) => w < |s.workers| && s.workers[w].Busy?
    case Append(e) => !e.processed && FindByKey(s.outbox, e.key).None?
  }

  function FlagAll(outbox: seq<Event>, rows: seq<nat>): (r: seq<Event>)
    ensures Flagged(outbox, r, rows)
  {
    seq(|outbox|, i requires 0 <= i < |outbox| => if i in rows then outbox[i].(processed := true) else outbox[i])
  }

  function KeysOf(outbox: seq<Event>, rows: seq<nat>): set<Digest> {
    set i | i in rows && i < |outbox| :: outbox[i].key
  }

  function Do(s: Pool, m: Move): Pool
    requires CanMove(s, m)
  {
    match m
    case Select(w, limit) =>
      s.(workers := s.workers[w := Busy(Prefix(SkipLocked(s.workers, Backlog(s.outbox)), limit), 0, [])])
    case Handle(w, ok) =>
      var b := s.workers[w];
      s.(workers := s.workers[w := b.(next := b.next + 1,
                                      flipped := if ok then b.flipped + [b.batch[b.next]] else b.flipped)])
    case Commit(w) =>
      var b := s.workers[w];
      Pool(FlagAll(s.outbox, b.flipped), s.keys + KeysOf(s.outbox, b.flipped), s.workers[w := Idle],
           s.returned + |b.flipped|, s.flips + b.flipped)
    case Abort(w) => s.(workers := s.workers[w := Idle])
    case Append(e) => s.(outbox := s.outbox + [e])
  }

  predicate CanRun(s: Pool, ms: seq<Move>)
    decreases ms
  {
    ms == [] || (CanMove(s, ms[0]) && CanRun(Do(s, ms[0]), ms[1..]))
  }

  function Run(s: Pool, ms: seq<Move>): Pool
    requires CanRun(s, ms)
    decreases ms
  {
    if ms == [] then s else Run(Do(s, ms[0]), ms[1..])
  }

  // ---- Invariant ----------------------------------------------------------

  predicate NoDup(xs: seq<nat>) { forall i, j | 0 <= i < j < |xs| :: xs[i] != xs[j] }

  predicate Waiting(outbox: seq<Event>, rows: seq<nat>) {
    forall k | 0 <= k < |rows| :: rows[k] < |outbox| && !outbox[rows[k]].processed
  }

  predicate WorkerOk(outbox: seq<Event>, w: Worker) {
    w.Busy? ==>
      && Waiting(outbox, w.batch) && NoDup(w.batch) && w.next <= |w.batch| && NoDup(w.flipped)
      && forall i | i in w.flipped :: i in w.batch[..w.next]
  }

  /** No row is locked by two workers. */
  ghost predicate Disjoint(workers: seq<Worker>) {
    forall a, b, i: nat | 0 <= a < b < |workers| && Holds(workers[a], i) :: !Holds(workers[b], i)
  }

  /** `flips` lists every row processed since the outbox was `base`, each once. */
  predicate Recorded(base: seq<Event>, outbox: seq<Event>, flips: seq<nat>, returned: nat) {
    && |base| <= |outbox| && NoDup(flips) && |flips| == returned
    && (forall i | i in flips :: i < |outbox| && (i < |base| ==> !base[i].processed))
    && forall i | 0 <= i < |outbox| :: outbox[i].processed <==> (i < |base| && base[i].processed) || i in flips
  }

  ghost predicate Inv(base: seq<Event>, s: Pool) {
    && Settled(Progress(s.outbox, s.keys, []))
    && (forall w | 0 <= w < |s.workers| :: WorkerOk(s.outbox, s.workers[w]))
    && Disjoint(s.workers)
    && Recorded(base, s.outbox, s.flips, s.returned)
  }

  predicate Initial(s: Pool) {
    && Settled(Progress(s.outbox, s.keys, [])) && s.returned == 0 && s.flips == []
    && forall w | w in s.workers :: w.Idle?
  }

  lemma InitialInv(s: Pool)
    requires Initial(s)
    ensures Inv(s.outbox, s)
  {
    hide Settled;
    assert forall k | 0 <= k < |s.workers| :: s.workers[k] in s.workers && s.workers[k].Idle?;
  }

  // ---- Every move keeps it ------------------------------------------------

  lemma {:induction false} SkipLockedNoDup(workers: seq<Worker>, rows: seq<nat>)
    requires NoDup(rows)
    ensures NoDup(SkipLocked(workers, rows))
  {
    hide Locked;
    if rows != [] {
      SkipLockedNoDup(workers, rows[1..]);
      var rest := SkipLocked(workers, rows[1..]);
      forall k | 0 <= k < |rest| ensures rest[k] != rows[0] {
        assert rest[k] in rows[1..];
      }
    }
  }

  lemma SelectKeeps(base: seq<Event>, s: Pool, w: nat, limit: nat)
    requires Inv(base, s) && CanMove(s, Select(w, limit))
    ensures Inv(base, Do(s, Select(w, limit)))
  {
    hide Settled, Recorded, Locked, Backlog, SkipLocked;
    var backlog := Backlog(s.outbox);
    var free := SkipLocked(s.workers, backlog);
    var batch := Prefix(free, limit);
    PendingFresh(Progress(s.outbox, {}, []), 0);
    BacklogWaits(s.outbox);
    SkipLockedNoDup(s.workers, backlog);
    forall k | 0 <= k < |batch|
      ensures batch[k] < |s.outbox| && !s.outbox[batch[k]].processed && !Locked(s.workers, batch[k])
    {
      assert batch[k] == free[k];
      assert free[k] in free;
    }
    assert NoDup(batch);
    SelectDisjoint(s.workers, w, batch);
  }

  lemma BacklogWaits(outbox: seq<Event>)
    ensures forall i | i in Backlog(outbox) :: i < |outbox| && !outbox[i].processed
  {
  }

  lemma SelectDisjoint(workers: seq<Worker>, w: nat, batch: seq<nat>)
    requires Disjoint(workers) && w < |workers| && forall k | 0 <= k < |batch| :: !Locked(workers, batch[k])
    ensures Disjoint(workers[w := Busy(batch, 0, [])])
  {
    forall a, i: nat | 0 <= a < |workers| && Holds(workers[a], i) ensures i !in batch {
      assert Locked(workers, i);
    }
  }

  lemma HandleKeeps(base: seq<Event>, s: Pool, w: nat, ok: bool)
    requires Inv(base, s) && CanMove(s, Handle(w, ok))
    ensures Inv(base, Do(s, Handle(w, ok)))
  {
    hide Settled;
    var b := s.workers[w];
    var u := Do(s, Handle(w, ok));
    assert b.batch[..b.next + 1] == b.batch[..b.next] + [b.batch[b.next]];
    forall a, i: nat | 0 <= a < |s.workers| ensures Holds(u.workers[a], i) == Holds(s.workers[a], i) {
    }
    assert WorkerOk(s.outbox, b);
    forall i | i in b.flipped ensures i != b.batch[b.next] {
      var k :| 0 <= k < b.next && b.batch[k] == i;
    }
    forall i | i in u.workers[w].flipped ensures i in b.batch[..b.next + 1] {
      assert i in b.flipped || i == b.batch[b.next];
    }
    var f := u.workers[w].flipped;
    forall i, j | 0 <= i < j < |f| ensures f[i] != f[j] {
      assert i < |b.flipped| && b.flipped[i] in b.flipped;
    }
    assert NoDup(f);
  }

  lemma AbortKeeps(base: seq<Event>, s: Pool, w: nat)
    requires Inv(base, s) && CanMove(s, Abort(w))
    ensures Inv(base, Do(s, Abort(w)))
    ensures Do(s, Abort(w)).outbox == s.outbox && Do(s, Abort(w)).keys == s.keys
    ensures var u := Do(s, Abort(w));
            && CanMove(u, Select(w, 1)) && (forall i | i in s.workers[w].batch :: !Locked(u.workers, i))
            && forall k | 0 <= k < |s.workers| && k != w :: u.workers[k] == s.workers[k]
  {
    hide Settled, Recorded;
  }

  lemma AppendKeeps(base: seq<Event>, s: Pool, e: Event)
    requires Inv(base, s) && CanMove(s, Append(e))
    ensures Inv(base, Do(s, Append(e)))
  {
    hide Settled;
    AppendKeepsAgree(Progress(s.outbox, s.keys, []), e);
    var u := Do(s, Append(e));
    forall w | 0 <= w < |s.workers| ensures WorkerOk(u.outbox, s.workers[w]) {
      assert WorkerOk(s.outbox, s.workers[w]);
    }
  }

  lemma CommitKeeps(base: seq<Event>, s: Pool, w: nat)
    requires Inv(base, s) && CanMove(s, Commit(w))
    ensures Inv(base, Do(s, Commit(w)))
  {
    hide Settled, Recorded, Disjoint;
    var b := s.workers[w];
    var u := Do(s, Commit(w));
    assert WorkerOk(s.outbox, b);
    assert b.batch[..b.next] == b.batch;
    forall k | 0 <= k < |b.flipped| ensures b.flipped[k] < |s.outbox| && !s.outbox[b.flipped[k]].processed {
      assert b.flipped[k] in b.batch;
    }
    CommitSettled(s.outbox, s.keys, b.flipped);
    CommitRecorded(base, s, b.flipped, u);
    IdleDisjoint(s.workers, w);
    forall k | 0 <= k < |u.workers| ensures WorkerOk(u.outbox, u.workers[k]) {
      if k != w && s.workers[k].Busy? {
        assert WorkerOk(s.outbox, s.workers[k]);
        OthersUntouched(s, w, k);
      }
    }
  }

  lemma IdleDisjoint(workers: seq<Worker>, w: nat)
    requires Disjoint(workers) && w < |workers|
    ensures Disjoint(workers[w := Idle])
  {
  }

  lemma OthersUntouched(s: Pool, w: nat, k: nat)
    requires Disjoint(s.workers) && w < |s.workers| && k < |s.workers| && k != w
    requires s.workers[w].Busy? && s.workers[k].Busy?
    requires WorkerOk(s.outbox, s.workers[w]) && WorkerOk(s.outbox, s.workers[k])
    ensures Waiting(FlagAll(s.outbox, s.workers[w].flipped), s.workers[k].batch)
  {
    var b := s.workers[w];
    forall n | 0 <= n < |s.workers[k].batch| ensures s.workers[k].batch[n] !in b.flipped {
      var i := s.workers[k].batch[n];
      assert Holds(s.workers[k], i);
      assert !Holds(b, i);
    }
  }

  lemma CommitSettled(outbox: seq<Event>, keys: set<Digest>, rows: seq<nat>)
    requires Settled(Progress(outbox, keys, [])) && forall i | i in rows :: i < |outbox|
    ensures Settled(Progress(FlagAll(outbox, rows), keys + KeysOf(outbox, rows), []))
  {
    hide FindByKey, Stored;
    CommitStored(outbox, keys, rows);
    var after, all := FlagAll(outbox, rows), keys + KeysOf(outbox, rows);
    forall i | 0 <= i < |outbox| ensures after[i].processed <==> after[i].key in all {
      if outbox[i].key in KeysOf(outbox, rows) {
        var k :| k in rows && k < |outbox| && outbox[k].key == outbox[i].key;
        assert k == i;
      }
    }
  }

  lemma CommitStored(outbox: seq<Event>, keys: set<Digest>, rows: seq<nat>)
    requires Stored(outbox, keys)
    ensures Stored(FlagAll(outbox, rows), keys + KeysOf(outbox, rows))
  {
    hide FindByKey;
    var after, all := FlagAll(outbox, rows), keys + KeysOf(outbox, rows);
    forall key | key in all ensures FindByKey(after, key).Some? {
      if key in keys {
        var e := FindByKey(outbox, key).value;
        var i :| 0 <= i < |outbox| && outbox[i] == e;
        StillStored(outbox, after, i, key);
      } else {
        var i :| i in rows && i < |outbox| && outbox[i].key == key;
        StillStored(outbox, after, i, key);
      }
    }
  }

  lemma CommitRecorded(base: seq<Event>, s: Pool, rows: seq<nat>, u: Pool)
    requires Recorded(base, s.outbox, s.flips, s.returned) && NoDup(rows) && Waiting(s.outbox, rows)
    requires u.outbox == FlagAll(s.outbox, rows) && u.returned == s.returned + |rows| && u.flips == s.flips + rows
    ensures Recorded(base, u.outbox, u.flips, u.returned)
  {
    forall i | i in rows ensures i < |s.outbox| && !s.outbox[i].processed && i !in s.flips {
    }
  }

  lemma MoveKeeps(base: seq<Event>, s: Pool, m: Move)
    requires Inv(base, s) && CanMove(s, m)
    ensures Inv(base, Do(s, m))
  {
    match m
    case Select(w, limit) => SelectKeeps(base, s, w, limit);
    case Handle(w, ok) => HandleKeeps(base, s, w, ok);
    case Commit(w) => CommitKeeps(base, s, w);
    case Abort(w) => AbortKeeps(base, s, w);
    case Append(e) => AppendKeeps(base, s, e);
  }

  lemma {:induction false} RunKeeps(base: seq<Event>, s: Pool, ms: seq<Move>)
    requires Inv(base, s) && CanRun(s, ms)
    ensures Inv(base, Run(s, ms))
    decreases ms
  {
    hide Inv, Do, CanMove;
    if ms != [] {
      MoveKeeps(base, s, ms[0]);
      RunKeeps(base, Do(s, ms[0]), ms[1..]);
    }
  }

  // ---- What every interleaving shows --------------------------------------

  function ProcessedRows(outbox: seq<Event>): set<nat> { set i | 0 <= i < |outbox| && outbox[i].processed }

  function ProcessedKeys(outbox: seq<Event>): set<Digest> {
    set i | 0 <= i < |outbox| && outbox[i].processed :: outbox[i].key
  }

  function Elements(xs: seq<nat>): set<nat> { set x | x in xs }

  lemma {:induction false} CountNoDup(xs: seq<nat>)
    requires NoDup(xs)
    ensures |Elements(xs)| == |xs|
  {
    hide Elements;
    NoElements();
    if xs != [] {
      CountNoDup(xs[..|xs| - 1]);
      LastElement(xs);
    }
  }

  lemma NoElements()
    ensures Elements([]) == {}
  {
  }

  lemma LastElement(xs: seq<nat>)
    requires NoDup(xs) && xs != []
    ensures var front, last := Elements(xs[..|xs| - 1]), xs[|xs| - 1]; last !in front && Elements(xs) == front + {last}
  {
    var front, last := xs[..|xs| - 1], xs[|xs| - 1];
    forall x | x in front ensures x != last {
      var k :| 0 <= k < |front| && front[k] == x;
      assert xs[k] == x;
    }
    assert xs == front + [last];
  }

  /**
   * Over every interleaving: locked batches are disjoint, no row is updated twice, the committed return
   * counts sum to the number of rows processed since the start, and `processed_idempotency` holds exactly
   * the keys of processed rows.
   */
  lemma EachRowOnce(s: Pool, ms: seq<Move>)
    requires Initial(s) && CanRun(s, ms)
    ensures var u := Run(s, ms);
            && Disjoint(u.workers)
            && NoDup(u.flips)
            && Elements(u.flips) == ProcessedRows(u.outbox) - ProcessedRows(s.outbox)
            && ProcessedRows(s.outbox) <= ProcessedRows(u.outbox)
            && u.returned == |ProcessedRows(u.outbox) - ProcessedRows(s.outbox)|
            && u.keys == ProcessedKeys(u.outbox)
  {
    hide Disjoint, Run, CanRun, Settled, WorkerOk;
    InitialInv(s);
    RunKeeps(s.outbox, s, ms);
    var u := Run(s, ms);
    CountNoDup(u.flips);
    KeysAreProcessed(u.outbox, u.keys);
    assert Elements(u.flips) == ProcessedRows(u.outbox) - ProcessedRows(s.outbox);
  }

  lemma KeysAreProcessed(outbox: seq<Event>, keys: set<Digest>)
    requires Settled(Progress(outbox, keys, []))
    ensures keys == ProcessedKeys(outbox)
  {
    forall key | key in keys ensures key in ProcessedKeys(outbox) {
      var e := FindByKey(outbox, key).value;
      var i :| 0 <= i < |outbox| && outbox[i] == e;
      assert outbox[i].processed;
    }
  }

  /** Worker `w` is at the batch `batch` and has passed over row number `k` without updating it. */
  predicate PassedOver(s: Pool, w: nat, batch: seq<nat>, k: nat) {
    && w < |s.workers| && s.workers[w].Busy? && s.workers[w].batch == batch
    && k < s.workers[w].next && k < |batch| && batch[k] !in s.workers[w].flipped
  }

  predicate Unprocessed(s: Pool, i: nat) { i < |s.outbox| && !s.outbox[i].processed }

  predicate EndsBatch(m: Move, w: nat) { (m.Commit? || m.Abort?) && m.w == w }

  lemma PassedOverMove(base: seq<Event>, s: Pool, w: nat, batch: seq<nat>, k: nat, m: Move)
    requires Inv(base, s) && CanMove(s, m) && PassedOver(s, w, batch, k)
    ensures Unprocessed(s, batch[k]) && Unprocessed(Do(s, m), batch[k])
    ensures !EndsBatch(m, w) ==> PassedOver(Do(s, m), w, batch, k)
  {
    hide Settled, Recorded;
    var i := batch[k];
    assert WorkerOk(s.outbox, s.workers[w]);
    assert Holds(s.workers[w], i);
    if m.Commit? && m.w != w {
      assert WorkerOk(s.outbox, s.workers[m.w]);
      OthersUntouched(s, m.w, w);
    }
  }

  lemma HandlerFails(base: seq<Event>, s: Pool, w: nat)
    requires Inv(base, s) && CanMove(s, Handle(w, false))
    ensures PassedOver(Do(s, Handle(w, false)), w, s.workers[w].batch, s.workers[w].next)
  {
    hide Settled, Recorded;
    var b := s.workers[w];
    assert WorkerOk(s.outbox, b);
    forall i | i in b.flipped ensures i != b.batch[b.next] {
      var n :| 0 <= n < b.next && b.batch[..b.next][n] == i;
      assert b.batch[n] == i;
    }
  }

  lemma {:induction false} PassedOverRun(base: seq<Event>, s: Pool, ms: seq<Move>, w: nat, batch: seq<nat>, k: nat)
    requires Inv(base, s) && CanRun(s, ms) && PassedOver(s, w, batch, k)
    requires forall n | 0 <= n < |ms| - 1 :: !EndsBatch(ms[n], w)
    ensures Unprocessed(Run(s, ms), batch[k])
    decreases ms
  {
    hide Inv, Do, CanMove, PassedOver, EndsBatch, Unprocessed;
    if ms == [] {
      StillWaiting(base, s, w, batch, k);
    } else {
      PassedOverMove(base, s, w, batch, k, ms[0]);
      if |ms| == 1 {
        assert ms[1..] == [];
      } else {
        MoveKeeps(base, s, ms[0]);
        assert forall n | 0 <= n < |ms[1..]| - 1 :: ms[1..][n] == ms[n + 1];
        PassedOverRun(base, Do(s, ms[0]), ms[1..], w, batch, k);
      }
    }
  }

  lemma StillWaiting(base: seq<Event>, s: Pool, w: nat, batch: seq<nat>, k: nat)
    requires Inv(base, s) && PassedOver(s, w, batch, k)
    ensures Unprocessed(s, batch[k])
  {
    hide Settled, Recorded;
    assert WorkerOk(s.outbox, s.workers[w]);
  }

  /**
   * From the moment a handler fails for a row, nothing that any worker or request does processes it, through
   * the rest of that batch and including the commit or abort that ends it.
   */
  lemma FailedStaysUnprocessed(s: Pool, before: seq<Move>, w: nat, after: seq<Move>)
    requires Initial(s) && CanRun(s, before)
    requires var u := Run(s, before); CanMove(u, Handle(w, false)) && CanRun(Do(u, Handle(w, false)), after)
    requires forall n | 0 <= n < |after| - 1 :: !EndsBatch(after[n], w)
    ensures var u := Run(s, before);
            Unprocessed(Run(Do(u, Handle(w, false)), after), u.workers[w].batch[u.workers[w].next])
  {
    hide Run, CanRun, Inv, PassedOver, Initial, EndsBatch;
    var u := Run(s, before);
    InitialInv(s);
    RunKeeps(s.outbox, s, before);
    HandlerFails(s.outbox, u, w);
    MoveKeeps(s.outbox, u, Handle(w, false));
    PassedOverRun(s.outbox, Do(u, Handle(w, false)), after, w, u.workers[w].batch, u.workers[w].next);
  }

  // ---- One batch on its own -----------------------------------------------

  /** Not locked by any busy worker. */
  function Unlocked(workers: seq<Worker>): nat -> bool {
    (i: nat) => forall k | 0 <= k < |workers| :: workers[k].Busy? ==> i !in workers[k].batch
  }

  lemma {:induction false} SkipLockedFilters(workers: seq<Worker>, rows: seq<nat>)
    ensures SkipLocked(workers, rows) == Filter(Unlocked(workers), rows)
  {
    if rows != [] {
      SkipLockedFilters(workers, rows[1..]);
      assert Locked(workers, rows[0]) <==> !Unlocked(workers)(rows[0]);
    }
  }

  /** What an idle worker locks: the first `limit` rows of the backlog that no other worker holds. */
  function FirstFree(s: Pool, limit: nat): seq<nat> {
    var free := Filter(Unlocked(s.workers), Backlog(s.outbox));
    free[..Least(limit, |free|)]
  }

  lemma SelectExactly(s: Pool, w: nat, limit: nat)
    requires CanMove(s, Select(w, limit))
    ensures Do(s, Select(w, limit)) == s.(workers := s.workers[w := Busy(FirstFree(s, limit), 0, [])])
  {
    hide Backlog, SkipLocked, Filter, Unlocked;
    SkipLockedFilters(s.workers, Backlog(s.outbox));
    assert Prefix(Filter(Unlocked(s.workers), Backlog(s.outbox)), limit) == FirstFree(s, limit);
  }

  /** The answers of one handler, row by row. */
  function Handlings(handler: Event -> bool, outbox: seq<Event>, w: nat, rows: seq<nat>): seq<Move>
    requires InOutbox(outbox, rows)
  {
    seq(|rows|, k requires 0 <= k < |rows| => Handle(w, handler(outbox[rows[k]])))
  }

  /** The worker has handled the first `n` rows. */
  function HandledUpTo(handler: Event -> bool, s: Pool, w: nat, batch: seq<nat>, n: nat): Pool
    requires w < |s.workers| && n <= |batch|
  {
    s.(workers := s.workers[w := Busy(batch, n, Handled(handler, s.outbox, batch[..n]))])
  }

  lemma HandlingStep(handler: Event -> bool, s: Pool, w: nat, batch: seq<nat>, n: nat)
    requires w < |s.workers| && InOutbox(s.outbox, batch) && n < |batch|
    ensures var m := Handle(w, handler(s.outbox[batch[n]]));
            var u := HandledUpTo(handler, s, w, batch, n);
            CanMove(u, m) && Do(u, m) == HandledUpTo(handler, s, w, batch, n + 1)
  {
    hide Backlog, SkipLocked, FlagAll, KeysOf, Handled;
    OneMoreHandled(handler, s.outbox, batch, n);
  }

  lemma OneMoreHandled(handler: Event -> bool, outbox: seq<Event>, batch: seq<nat>, n: nat)
    requires InOutbox(outbox, batch) && n < |batch|
    ensures Handled(handler, outbox, batch[..n + 1])
         == if handler(outbox[batch[n]]) then Handled(handler, outbox, batch[..n]) + [batch[n]]
            else Handled(handler, outbox, batch[..n])
  {
    hide Filter;
    assert batch[..n + 1] == batch[..n] + [batch[n]];
    FilterAppend((i: nat) => i < |outbox| && handler(outbox[i]), batch[..n], batch[n]);
  }

  lemma {:induction false} HandlingsRun(handler: Event -> bool, s: Pool, w: nat, batch: seq<nat>, n: nat)
    requires w < |s.workers| && InOutbox(s.outbox, batch) && n <= |batch|
    ensures var ms := Handlings(handler, s.outbox, w, batch[n..]);
            var u := HandledUpTo(handler, s, w, batch, n);
            CanRun(u, ms) && Run(u, ms) == HandledUpTo(handler, s, w, batch, |batch|)
    decreases |batch| - n
  {
    hide Do, CanMove, HandledUpTo, Handled;
    var ms := Handlings(handler, s.outbox, w, batch[n..]);
    if n < |batch| {
      HandlingStep(handler, s, w, batch, n);
      HandlingsRun(handler, s, w, batch, n + 1);
      assert ms[0] == Handle(w, handler(s.outbox[batch[n]]));
      assert ms[1..] == Handlings(handler, s.outbox, w, batch[n + 1..]);
    }
  }

  lemma {:induction false} RunConcat(s: Pool, ms: seq<Move>, more: seq<Move>)
    requires CanRun(s, ms) && CanRun(Run(s, ms), more)
    ensures CanRun(s, ms + more) && Run(s, ms + more) == Run(Run(s, ms), more)
    decreases ms
  {
    hide Do, CanMove;
    if ms == [] {
      assert ms + more == more;
    } else {
      assert (ms + more)[1..] == ms[1..] + more;
      RunConcat(Do(s, ms[0]), ms[1..], more);
    }
  }

  lemma OneMove(s: Pool, m: Move)
    requires CanMove(s, m)
    ensures CanRun(s, [m]) && Run(s, [m]) == Do(s, m)
  {
    hide Do, CanMove;
    assert [m][1..] == [];
  }

  lemma FirstFreeStored(s: Pool, limit: nat)
    ensures InOutbox(s.outbox, FirstFree(s, limit))
  {
    hide Backlog, Unlocked;
    BacklogWaits(s.outbox);
    var first := FirstFree(s, limit);
    forall k | 0 <= k < |first| ensures first[k] < |s.outbox| {
      assert first[k] in Filter(Unlocked(s.workers), Backlog(s.outbox));
    }
  }

  function Transaction(handler: Event -> bool, s: Pool, w: nat, limit: nat): seq<Move>
    requires InOutbox(s.outbox, FirstFree(s, limit))
  {
    [Select(w, limit)] + Handlings(handler, s.outbox, w, FirstFree(s, limit)) + [Commit(w)]
  }

  /**
   * One worker's transaction, whatever locks the others hold: of the first `limit` free rows it processes exactly
   * those whose handler succeeds, and gives its locks back.
   */
  lemma TransactionExactly(handler: Event -> bool, s: Pool, w: nat, limit: nat)
    requires CanMove(s, Select(w, limit)) && InOutbox(s.outbox, FirstFree(s, limit))
    ensures var ms := Transaction(handler, s, w, limit);
            var rows := Handled(handler, s.outbox, FirstFree(s, limit));
            && CanRun(s, ms)
            && var u := Run(s, ms);
               && Flagged(s.outbox, u.outbox, rows) && u.keys == s.keys + KeysOf(s.outbox, rows)
               && u.returned == s.returned + |rows| && u.flips == s.flips + rows && u.workers == s.workers
  {
    hide CanRun, Run, Filter, Unlocked, Backlog, FirstFree;
    var first := FirstFree(s, limit);
    var selected := Do(s, Select(w, limit));
    SelectExactly(s, w, limit);
    OneMove(s, Select(w, limit));
    NothingHandled(handler, s.outbox, first);
    assert first[..0] == [] && first[0..] == first;
    assert selected == HandledUpTo(handler, selected, w, first, 0);
    HandlingsRun(handler, selected, w, first, 0);
    assert first[..|first|] == first;
    var handled := Handlings(handler, s.outbox, w, first);
    RunConcat(s, [Select(w, limit)], handled);
    var done := Run(selected, handled);
    OneMove(done, Commit(w));
    RunConcat(s, [Select(w, limit)] + handled, [Commit(w)]);
    assert s.workers[w] == Idle;
    assert Do(done, Commit(w)).workers == s.workers;
  }

  lemma NothingHandled(handler: Event -> bool, outbox: seq<Event>, rows: seq<nat>)
    ensures Handled(handler, outbox, []) == []
  {
  }

  /** With no other worker busy, a Postgres transaction does what one batch does in memory. */
  lemma TransactionIsBatch(handler: Event -> bool, s: Pool, w: nat, limit: nat)
    requires Settled(Progress(s.outbox, s.keys, [])) && CanMove(s, Select(w, limit))
    requires forall k | 0 <= k < |s.workers| :: s.workers[k].Idle?
    ensures InOutbox(s.outbox, FirstFree(s, limit))
    ensures CanRun(s, Transaction(handler, s, w, limit))
    ensures var u := Run(s, Transaction(handler, s, w, limit));
            var b := Batch(handler, s.outbox, s.keys, limit);
            && u.outbox == b.outbox && u.keys == b.keys && u.flips == s.flips + b.done
            && u.returned == s.returned + |b.done|
  {
    hide CanRun, Run, Backlog, Settled, Batch, Transaction, Handled, FirstFree;
    FirstFreeStored(s, limit);
    AllFree(s, limit);
    TransactionExactly(handler, s, w, limit);
    BatchProcesses(handler, s.outbox, s.keys, limit);
    var u, b := Run(s, Transaction(handler, s, w, limit)), Batch(handler, s.outbox, s.keys, limit);
    HandledMeans(handler, s.outbox, FirstFree(s, limit));
    assert u.outbox == b.outbox;
    CommitSettled(s.outbox, s.keys, b.done);
    assert FlagAll(s.outbox, b.done) == b.outbox;
    SettledAgain(b, Progress(b.outbox, b.keys, []));
    KeysAreProcessed(b.outbox, b.keys);
    KeysAreProcessed(b.outbox, u.keys);
  }

  lemma HandledMeans(handler: Event -> bool, outbox: seq<Event>, rows: seq<nat>)
    ensures forall i :: i in Handled(handler, outbox, rows) <==> i in rows && i < |outbox| && handler(outbox[i])
  {
  }

  lemma AllFree(s: Pool, limit: nat)
    requires forall k | 0 <= k < |s.workers| :: s.workers[k].Idle?
    ensures FirstFree(s, limit) == Backlog(s.outbox)[..Least(limit, |Backlog(s.outbox)|)]
  {
    hide Backlog;
    FilterAll(Unlocked(s.workers), Backlog(s.outbox));
  }
}
