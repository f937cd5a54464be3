/**
 * workers/outbox_processor.py `process_outbox_batch_memory`: one batch as a loop over the in-memory outbox,
 * and what repeated batches amount to. An event object is its position in the outbox.
 */
module OutboxDrain {
  import opened Wrappers
  import opened Text
  import opened Canonical
  import opened Seqs
  import opened Persistence
  import opened Transactions

  // ---- The order of a batch -----------------------------------------------

  /** By correlation and time; equal keys keep their outbox order, as Python's stable sort leaves them. */
  predicate Earlier(outbox: seq<Event>, i: nat, j: nat)
    requires i < |outbox| && j < |outbox|
  {
    var a, b := outbox[i], outbox[j];
    StrLess(a.correlation, b.correlation)
    || (a.correlation == b.correlation && (a.createdAt < b.createdAt || (a.createdAt == b.createdAt && i < j)))
  }

  predicate InOutbox(outbox: seq<Event>, batch: seq<nat>) { forall k | 0 <= k < |batch| :: batch[k] < |outbox| }

  function Insert(outbox: seq<Event>, i: nat, batch: seq<nat>): (r: seq<nat>)
    requires i < |outbox| && InOutbox(outbox, batch)
    ensures InOutbox(outbox, r) && forall x :: x in r <==> x == i || x in batch
  {
    if batch == [] || Earlier(outbox, i, batch[0]) then [i] + batch
    else [batch[0]] + Insert(outbox, i, batch[1..])
  }

  /** The unprocessed events from position `from` on, sorted. */
  function Pending(outbox: seq<Event>, from: nat): (r: seq<nat>)
    requires from <= |outbox|
    ensures InOutbox(outbox, r) && forall i :: i in r <==> from <= i < |outbox| && !outbox[i].processed
    decreases |outbox| - from
  {
    if from == |outbox| then []
    else if outbox[from].processed then Pending(outbox, from + 1)
    else Insert(outbox, from, Pending(outbox, from + 1))
  }

  function Backlog(outbox: seq<Event>): seq<nat> { Pending(outbox, 0) }

  /** Python's `xs[:limit]`. */
  function Prefix(xs: seq<nat>, limit: int): seq<nat> {
    if limit >= |xs| then xs else if limit >= 0 then xs[..limit]
    else if |xs| + limit >= 0 then xs[..|xs| + limit] else []
  }

  // ---- One batch ----------------------------------------------------------

  /** `done` lists the events the batch handled, in order. */
  datatype Progress = Progress(outbox: seq<Event>, keys: set<Digest>, done: seq<nat>)

  function HandleOne(handler: Event -> bool, g: Progress, i: nat): Progress
    requires i < |g.outbox|
  {
    var e := g.outbox[i];
    if e.key in g.keys || !handler(e) then g
    else Progress(g.outbox[i := e.(processed := true)], g.keys + {e.key}, g.done + [i])
  }

  function HandleAll(handler: Event -> bool, g: Progress, batch: seq<nat>): (r: Progress)
    requires InOutbox(g.outbox, batch)
    ensures |r.outbox| == |g.outbox|
    decreases batch
  {
    if batch == [] then g else HandleAll(handler, HandleOne(handler, g, batch[0]), batch[1..])
  }

  function Batch(handler: Event -> bool, outbox: seq<Event>, keys: set<Digest>, limit: int): Progress {
    HandleAll(handler, Progress(outbox, keys, []), Prefix(Backlog(outbox), limit))
  }

  class OutboxProcessor {
    var outbox: seq<Event>
    var processedKeys: set<Digest>
    const handler: Event -> bool

    constructor (handler: Event -> bool, outbox: seq<Event>)
      ensures this.handler == handler && this.outbox == outbox && processedKeys == {}
    {
      this.handler, this.outbox, processedKeys := handler, outbox, {};
    }

    method ProcessBatch(limit: int) returns (processed: nat)
      modifies this
      ensures var g := Batch(handler, old(outbox), old(processedKeys), limit);
              outbox == g.outbox && processedKeys == g.keys && processed == |g.done|
      ensures Settled(Progress(old(outbox), old(processedKeys), [])) && limit >= 0 ==>
                var first := Backlog(old(outbox))[..Least(limit, |Backlog(old(outbox))|)];
                && |outbox| == |old(outbox)|
                && (forall i | 0 <= i < |outbox| ::
                      outbox[i].processed <==> old(outbox)[i].processed || (i in first && handler(old(outbox)[i])))
                && processed == |Filter((i: nat) => i < |old(outbox)| && handler(old(outbox)[i]), first)|
    {
      hide Settled, Pending;
      if Settled(Progress(outbox, processedKeys, [])) && limit >= 0 {
        BatchProcesses(handler, outbox, processedKeys, limit);
      }
      var events := Prefix(Backlog(outbox), limit);
      processed := 0;
      ghost var done: seq<nat> := [];
      for k := 0 to |events|
        invariant InOutbox(outbox, events) && processed == |done|
        invariant HandleAll(handler, Progress(outbox, processedKeys, done), events[k..])
               == Batch(handler, old(outbox), old(processedKeys), limit)
      {
        assert events[k..][1..] == events[k + 1..];
        var event := outbox[events[k]];
        if event.key in processedKeys || !handler(event) {
          continue;
        }
        outbox := outbox[events[k] := event.(processed := true)];
        processedKeys := processedKeys + {event.key};
        processed := processed + 1;
        done := done + [events[k]];
      }
      assert events[|events|..] == [];
    }
  }

  // ---- The sort is the only sorted list of the pending events --------------

  predicate SortedBatch(outbox: seq<Event>, batch: seq<nat>)
    requires InOutbox(outbox, batch)
  {
    forall i, j | 0 <= i < j < |batch| :: Earlier(outbox, batch[i], batch[j])
  }

  lemma EarlierTrans(outbox: seq<Event>, i: nat, j: nat, k: nat)
    requires i < |outbox| && j < |outbox| && k < |outbox|
    requires Earlier(outbox, i, j) && Earlier(outbox, j, k)
    ensures Earlier(outbox, i, k)
  {
    var a, b, c := outbox[i].correlation, outbox[j].correlation, outbox[k].correlation;
    if StrLess(a, b) && StrLess(b, c) {
      StrLessTrans(a, b, c);
    }
  }

  lemma EarlierTotal(outbox: seq<Event>, i: nat, j: nat)
    requires i < |outbox| && j < |outbox| && i != j
    ensures Earlier(outbox, i, j) <==> !Earlier(outbox, j, i)
  {
    var a, b := outbox[i].correlation, outbox[j].correlation;
    StrLessTotal(a, b);
    if StrLess(a, b) {
      StrLessAsym(a, b);
    }
    if StrLess(b, a) {
      StrLessAsym(b, a);
    }
  }

  lemma NotEarlierSelf(outbox: seq<Event>, i: nat)
    requires i < |outbox|
    ensures !Earlier(outbox, i, i)
  {
    if StrLess(outbox[i].correlation, outbox[i].correlation) {
      StrLessAsym(outbox[i].correlation, outbox[i].correlation);
    }
  }

  lemma {:induction false} InsertSorted(outbox: seq<Event>, i: nat, batch: seq<nat>)
    requires i < |outbox| && InOutbox(outbox, batch) && SortedBatch(outbox, batch) && i !in batch
    ensures SortedBatch(outbox, Insert(outbox, i, batch))
  {
    hide Earlier;
    var r := Insert(outbox, i, batch);
    if batch != [] {
      if Earlier(outbox, i, batch[0]) {
        forall k | 0 < k < |batch| ensures Earlier(outbox, i, batch[k]) {
          EarlierTrans(outbox, i, batch[0], batch[k]);
        }
      } else {
        EarlierTotal(outbox, i, batch[0]);
        InsertSorted(outbox, i, batch[1..]);
        var rest := Insert(outbox, i, batch[1..]);
        forall k | 0 <= k < |rest| ensures Earlier(outbox, batch[0], rest[k]) {
          assert rest[k] in rest;
          if rest[k] != i {
            var m :| 0 <= m < |batch[1..]| && batch[1..][m] == rest[k];
            assert batch[m + 1] == rest[k];
          }
        }
      }
    }
  }

  lemma {:induction false} PendingSorted(outbox: seq<Event>, from: nat)
    requires from <= |outbox|
    ensures SortedBatch(outbox, Pending(outbox, from))
    decreases |outbox| - from
  {
    if from < |outbox| {
      PendingSorted(outbox, from + 1);
      if !outbox[from].processed {
        InsertSorted(outbox, from, Pending(outbox, from + 1));
      }
    }
  }

  /** Two sorted lists of the same events are the same list. */
  lemma {:induction false} SortedUnique(outbox: seq<Event>, xs: seq<nat>, ys: seq<nat>)
    requires InOutbox(outbox, xs) && InOutbox(outbox, ys) && SortedBatch(outbox, xs) && SortedBatch(outbox, ys)
    requires forall i :: i in xs <==> i in ys
    ensures xs == ys
  {
    hide Earlier;
    assert ys != [] ==> ys[0] in ys && ys[0] in xs;
    if xs != [] {
      assert xs[0] in xs;
      assert ys != [];
      assert ys[0] in ys;
      FirstIsLeast(outbox, xs, ys[0]);
      FirstIsLeast(outbox, ys, xs[0]);
      if xs[0] != ys[0] {
        EarlierTotal(outbox, xs[0], ys[0]);
      }
      RestWithoutFirst(outbox, xs);
      RestWithoutFirst(outbox, ys);
      SortedUnique(outbox, xs[1..], ys[1..]);
    }
  }

  lemma FirstIsLeast(outbox: seq<Event>, xs: seq<nat>, i: nat)
    requires InOutbox(outbox, xs) && SortedBatch(outbox, xs) && i in xs && i < |outbox|
    ensures i == xs[0] || Earlier(outbox, xs[0], i)
  {
  }

  lemma RestWithoutFirst(outbox: seq<Event>, xs: seq<nat>)
    requires xs != [] && InOutbox(outbox, xs) && SortedBatch(outbox, xs)
    ensures forall i :: i in xs[1..] <==> i in xs && i != xs[0]
  {
    hide Earlier;
    forall k | 1 <= k < |xs| ensures xs[k] != xs[0] {
      assert Earlier(outbox, xs[0], xs[k]);
      NotEarlierSelf(outbox, xs[0]);
    }
    forall i | i in xs && i != xs[0] ensures i in xs[1..] {
      var k :| 0 <= k < |xs| && xs[k] == i;
      assert xs[1..][k - 1] == i;
    }
  }

  // ---- Draining -----------------------------------------------------------

  /** An event is processed iff its key is in the processed set. */
  predicate Agree(outbox: seq<Event>, keys: set<Digest>) {
    forall i | 0 <= i < |outbox| :: outbox[i].processed <==> outbox[i].key in keys
  }

  /** The processed set holds keys of stored events only. */
  predicate Stored(outbox: seq<Event>, keys: set<Digest>) {
    forall key | key in keys :: FindByKey(outbox, key).Some?
  }

  predicate Settled(g: Progress) { DistinctKeysIn(g.outbox) && Agree(g.outbox, g.keys) && Stored(g.outbox, g.keys) }

  /** The agreement holds through any batch under any handler. */
  lemma {:induction false} BatchKeepsAgree(handler: Event -> bool, g: Progress, batch: seq<nat>)
    requires Settled(g) && InOutbox(g.outbox, batch)
    ensures Settled(HandleAll(handler, g, batch))
    decreases batch
  {
    hide Settled;
    if batch != [] {
      OneKeepsAgree(handler, g, batch[0]);
      BatchKeepsAgree(handler, HandleOne(handler, g, batch[0]), batch[1..]);
    }
  }

  lemma OneKeepsAgree(handler: Event -> bool, g: Progress, i: nat)
    requires Settled(g) && i < |g.outbox|
    ensures Settled(HandleOne(handler, g, i))
  {
    hide FindByKey;
    var g' := HandleOne(handler, g, i);
    forall key | key in g'.keys ensures FindByKey(g'.outbox, key).Some? {
      StillStored(g.outbox, g'.outbox, i, key);
    }
  }

  lemma StillStored(outbox: seq<Event>, outbox': seq<Event>, i: nat, key: Digest)
    requires i < |outbox| && |outbox'| == |outbox| && forall k | 0 <= k < |outbox| :: outbox'[k].key == outbox[k].key
    requires FindByKey(outbox, key).Some? || key == outbox[i].key
    ensures FindByKey(outbox', key).Some?
  {
    var e := if key == outbox[i].key then outbox[i] else FindByKey(outbox, key).value;
    var k :| 0 <= k < |outbox| && outbox[k] == e;
    assert outbox'[k] in outbox' && outbox'[k].key == key;
  }

  /** It also holds when a request appends an event under a new key meanwhile. */
  lemma AppendKeepsAgree(g: Progress, e: Event)
    requires Settled(g) && !e.processed && FindByKey(g.outbox, e.key).None?
    ensures Settled(g.(outbox := g.outbox + [e]))
  {
    forall i | 0 <= i < |g.outbox| ensures g.outbox[i].key != e.key {
      assert g.outbox[i] in g.outbox;
    }
    forall key | key in g.keys ensures FindByKey(g.outbox + [e], key).Some? {
      var stored := FindByKey(g.outbox, key).value;
      assert stored in g.outbox + [e];
    }
  }

  predicate Fresh(g: Progress, batch: seq<nat>)
    requires InOutbox(g.outbox, batch)
  {
    && (forall k | 0 <= k < |batch| :: !g.outbox[batch[k]].processed)
    && (forall i, j | 0 <= i < j < |batch| :: batch[i] != batch[j])
  }

  /** Only the events of the batch changed, and only their flag. */
  predicate Flagged(outbox: seq<Event>, outbox': seq<Event>, batch: seq<nat>) {
    && |outbox'| == |outbox|
    && forall i | 0 <= i < |outbox| :: outbox'[i] == if i in batch then outbox[i].(processed := true) else outbox[i]
  }

  /** The rows of the batch whose handler succeeds. */
  function Handled(handler: Event -> bool, outbox: seq<Event>, batch: seq<nat>): seq<nat> {
    Filter((i: nat) => i < |outbox| && handler(outbox[i]), batch)
  }

  /** For any handler, a batch handles exactly the rows whose handler succeeds, in batch order. */
  lemma {:induction false} BatchExactly(handler: Event -> bool, g: Progress, batch: seq<nat>)
    requires Settled(g) && InOutbox(g.outbox, batch) && Fresh(g, batch)
    ensures var r, rows := HandleAll(handler, g, batch), Handled(handler, g.outbox, batch);
            r.done == g.done + rows && Flagged(g.outbox, r.outbox, rows) && Settled(r)
    decreases batch
  {
    hide Settled, HandleOne;
    if batch != [] {
      var g' := HandleOne(handler, g, batch[0]);
      OneExactly(handler, g, batch[0]);
      RestFresh(g, g', batch);
      BatchExactly(handler, g', batch[1..]);
      SameHandled(handler, g.outbox, g'.outbox, batch);
      var rows := Handled(handler, g'.outbox, batch[1..]);
      assert if handler(g.outbox[batch[0]]) then Handled(handler, g.outbox, batch) == [batch[0]] + rows
             else Handled(handler, g.outbox, batch) == rows;
    }
  }

  lemma OneExactly(handler: Event -> bool, g: Progress, i: nat)
    requires Settled(g) && i < |g.outbox| && !g.outbox[i].processed
    ensures var r := HandleOne(handler, g, i);
            Settled(r) && if handler(g.outbox[i]) then
                            r.done == g.done + [i] && r.outbox == g.outbox[i := g.outbox[i].(processed := true)]
                          else r == g
  {
    OneKeepsAgree(handler, g, i);
  }

  /** The first row of a batch does not decide about the others. */
  lemma SameHandled(handler: Event -> bool, outbox: seq<Event>, outbox': seq<Event>, batch: seq<nat>)
    requires batch != [] && InOutbox(outbox, batch) && |outbox'| == |outbox|
    requires forall i, j | 0 <= i < j < |batch| :: batch[i] != batch[j]
    requires forall i | 0 <= i < |outbox| && i != batch[0] :: outbox'[i] == outbox[i]
    ensures Handled(handler, outbox', batch[1..]) == Handled(handler, outbox, batch[1..])
  {
    SameFilter((i: nat) => i < |outbox'| && handler(outbox'[i]), (i: nat) => i < |outbox| && handler(outbox[i]),
               batch[1..]);
  }

  lemma BatchFlags(handler: Event -> bool, g: Progress, batch: seq<nat>)
    requires Settled(g) && InOutbox(g.outbox, batch) && Fresh(g, batch) && forall e :: handler(e)
    ensures var r := HandleAll(handler, g, batch); r.done == g.done + batch && Flagged(g.outbox, r.outbox, batch)
  {
    hide Settled, Fresh, HandleAll;
    BatchExactly(handler, g, batch);
    FilterAll((i: nat) => i < |g.outbox| && handler(g.outbox[i]), batch);
  }

  lemma RestFresh(g: Progress, g': Progress, batch: seq<nat>)
    requires batch != [] && InOutbox(g.outbox, batch) && Fresh(g, batch)
    requires g'.outbox == g.outbox || g'.outbox == g.outbox[batch[0] := g.outbox[batch[0]].(processed := true)]
    ensures Fresh(g', batch[1..])
  {
  }

  lemma PendingFresh(g: Progress, m: nat)
    requires m <= |Backlog(g.outbox)|
    ensures Fresh(g, Backlog(g.outbox)) && Fresh(g, Backlog(g.outbox)[..m])
  {
    var b := Backlog(g.outbox);
    PendingSorted(g.outbox, 0);
    forall k | 0 <= k < |b| ensures !g.outbox[b[k]].processed {
      assert b[k] in b;
    }
    forall i, j | 0 <= i < j < |b| ensures b[i] != b[j] {
      assert Earlier(g.outbox, b[i], b[j]);
      NotEarlierSelf(g.outbox, b[i]);
    }
  }

  function Others(rows: seq<nat>): nat -> bool { (i: nat) => i !in rows }

  /** Handling some rows leaves the rest of the backlog, in the same order. */
  lemma BacklogWithout(outbox: seq<Event>, outbox': seq<Event>, rows: seq<nat>)
    requires Flagged(outbox, outbox', rows)
    ensures Backlog(outbox') == Filter(Others(rows), Backlog(outbox))
  {
    hide Pending, Earlier;
    var rest := Filter(Others(rows), Backlog(outbox));
    PendingSorted(outbox, 0);
    PendingSorted(outbox', 0);
    SameOrder(outbox, outbox', rows);
    FilterSortedBatch(outbox, Others(rows), Backlog(outbox));
    assert SortedBatch(outbox', rest);
    SortedUnique(outbox', Backlog(outbox'), rest);
  }

  lemma {:induction false} FilterSortedBatch(outbox: seq<Event>, p: nat -> bool, batch: seq<nat>)
    requires InOutbox(outbox, batch) && SortedBatch(outbox, batch)
    ensures InOutbox(outbox, Filter(p, batch)) && SortedBatch(outbox, Filter(p, batch))
  {
    hide Earlier;
    if batch != [] {
      FilterSortedBatch(outbox, p, batch[1..]);
      var f := Filter(p, batch[1..]);
      forall k | 0 <= k < |f| ensures f[k] < |outbox| && Earlier(outbox, batch[0], f[k]) {
        assert f[k] in batch[1..];
        var m :| 0 <= m < |batch[1..]| && batch[1..][m] == f[k];
        assert batch[m + 1] == f[k];
      }
    }
  }

  /** Handling a prefix of the backlog leaves the rest. */
  lemma BacklogAfter(outbox: seq<Event>, outbox': seq<Event>, m: nat)
    requires m <= |Backlog(outbox)| && Flagged(outbox, outbox', Backlog(outbox)[..m])
    ensures Backlog(outbox') == Backlog(outbox)[m..]
  {
    hide Pending, Flagged;
    var b := Backlog(outbox);
    BacklogWithout(outbox, outbox', b[..m]);
    PendingFresh(Progress(outbox, {}, []), m);
    DropPrefix(b, m);
  }

  lemma DropPrefix(b: seq<nat>, m: nat)
    requires m <= |b| && forall i, j | 0 <= i < j < |b| :: b[i] != b[j]
    ensures Filter(Others(b[..m]), b) == b[m..]
  {
    hide Filter;
    assert b == b[..m] + b[m..];
    FilterConcat(Others(b[..m]), b[..m], b[m..]);
    FilterNone(Others(b[..m]), b[..m]);
    forall i | i in b[m..] ensures i !in b[..m] {
      var k :| 0 <= k < |b[m..]| && b[m..][k] == i;
      assert b[m + k] == i;
    }
    FilterAll(Others(b[..m]), b[m..]);
  }

  /** The processed flag does not enter the order. */
  lemma SameOrder(outbox: seq<Event>, outbox': seq<Event>, batch: seq<nat>)
    requires Flagged(outbox, outbox', batch)
    ensures |outbox'| == |outbox|
    ensures forall i: nat, j: nat | i < |outbox| && j < |outbox| :: Earlier(outbox', i, j) == Earlier(outbox, i, j)
  {
  }

  function RunBatches(handler: Event -> bool, g: Progress, limit: int, count: nat): Progress
    decreases count
  {
    if count == 0 then g
    else
      var b := Batch(handler, g.outbox, g.keys, limit);
      RunBatches(handler, Progress(b.outbox, b.keys, g.done + b.done), limit, count - 1)
  }

  function Taken(n: nat, limit: nat, count: nat): nat {
    if count * limit < n then count * limit else n
  }

  lemma OneBatch(handler: Event -> bool, g: Progress, limit: nat)
    requires Settled(g) && forall e :: handler(e)
    ensures var b := Batch(handler, g.outbox, g.keys, limit);
            var backlog := Backlog(g.outbox);
            var m := if limit < |backlog| then limit else |backlog|;
            && b.done == backlog[..m] && Backlog(b.outbox) == backlog[m..]
            && Settled(b)
  {
    hide Settled, Pending, Agree, DistinctKeysIn, HandleAll, Fresh, Flagged;
    var backlog := Backlog(g.outbox);
    var m := if limit < |backlog| then limit else |backlog|;
    assert Prefix(backlog, limit) == backlog[..m];
    var start := Progress(g.outbox, g.keys, []);
    SettledAgain(g, start);
    PendingFresh(start, m);
    BatchFlags(handler, start, backlog[..m]);
    BatchKeepsAgree(handler, start, backlog[..m]);
    BacklogAfter(g.outbox, Batch(handler, g.outbox, g.keys, limit).outbox, m);
    assert [] + backlog[..m] == backlog[..m];
  }

  lemma SettledAgain(g: Progress, h: Progress)
    requires Settled(g) && h.outbox == g.outbox && h.keys == g.keys
    ensures Settled(h)
  {
  }

  /**
   * With succeeding handlers and no new events, `count` batches of any limit have handled exactly the first
   * count * limit events of one stable sort of the backlog, in that order; the rest is still pending.
   */
  lemma {:induction false} DrainInOrder(handler: Event -> bool, g: Progress, limit: nat, count: nat)
    requires Settled(g) && forall e :: handler(e)
    ensures var r := RunBatches(handler, g, limit, count);
            var backlog := Backlog(g.outbox);
            var m := Taken(|backlog|, limit, count);
            && r.done == g.done + backlog[..m] && Backlog(r.outbox) == backlog[m..] && Settled(r)
    decreases count
  {
    hide Settled, Pending, Batch, Backlog;
    var backlog := Backlog(g.outbox);
    if count == 0 {
      assert g.done + backlog[..0] == g.done && backlog[0..] == backlog;
    } else {
      OneBatch(handler, g, limit);
      var b := Batch(handler, g.outbox, g.keys, limit);
      var next := Progress(b.outbox, b.keys, g.done + b.done);
      SettledAgain(b, next);
      DrainInOrder(handler, next, limit, count - 1);
      var m := if limit < |backlog| then limit else |backlog|;
      var rest := backlog[m..];
      var k := Taken(|rest|, limit, count - 1);
      TakenSplits(|backlog|, limit, count);
      assert m + k == Taken(|backlog|, limit, count);
      assert backlog[..m] + rest[..k] == backlog[..m + k];
      assert rest[k..] == backlog[m + k..];
      assert g.done + backlog[..m] + rest[..k] == g.done + (backlog[..m] + rest[..k]);
    }
  }

  lemma TakenSplits(n: nat, limit: nat, count: nat)
    requires count > 0
    ensures var m := if limit < n then limit else n;
            m + Taken(n - m, limit, count - 1) == Taken(n, limit, count)
  {
    assert count * limit == limit + (count - 1) * limit;
    assert (count - 1) * limit >= 0;
  }

  /** The backlog is empty after exactly ceil(n / limit) batches, each of its events handled once. */
  lemma DrainFinishes(handler: Event -> bool, g: Progress, limit: nat, count: nat)
    requires Settled(g) && limit >= 1 && forall e :: handler(e)
    ensures var r := RunBatches(handler, g, limit, count);
            var n := |Backlog(g.outbox)|;
            && (Backlog(r.outbox) == [] <==> count >= (n + limit - 1) / limit)
            && (Backlog(r.outbox) == [] ==> r.done == g.done + Backlog(g.outbox))
            && forall i, j | 0 <= i < j < n :: Backlog(g.outbox)[i] != Backlog(g.outbox)[j]
  {
    hide Settled, Pending, Batch, RunBatches, Backlog;
    var backlog := Backlog(g.outbox);
    DrainInOrder(handler, g, limit, count);
    PendingFresh(g, 0);
    Ceiling(|backlog|, limit, count);
    assert backlog[..|backlog|] == backlog;
  }

  lemma Ceiling(n: nat, limit: nat, count: nat)
    requires limit >= 1
    ensures count * limit >= n <==> count >= (n + limit - 1) / limit
  {
    var q, r := (n + limit - 1) / limit, (n + limit - 1) % limit;
    assert n + limit - 1 == q * limit + r;
    if count >= q {
      MulMonotone(q, count, limit);
    } else {
      MulMonotone(count + 1, q, limit);
    }
  }

  lemma MulMonotone(a: nat, b: nat, k: nat)
    requires a <= b
    ensures a * k <= b * k
  {
  }

  // ---- Under any handler --------------------------------------------------

  /** The backlog goes by correlation, within one correlation by time, and within one time by arrival. */
  lemma BacklogFifo(outbox: seq<Event>)
    ensures var b := Backlog(outbox);
            && (forall i | 0 <= i < |outbox| :: !outbox[i].processed <==> i in b)
            && forall i, j | 0 <= i < j < |b| ::
                 var x, y := outbox[b[i]], outbox[b[j]];
                 && !StrLess(y.correlation, x.correlation)
                 && (x.correlation == y.correlation ==>
                       x.createdAt <= y.createdAt && (x.createdAt == y.createdAt ==> b[i] < b[j]))
  {
    hide Pending, Earlier;
    var b := Backlog(outbox);
    PendingSorted(outbox, 0);
    forall i, j | 0 <= i < j < |b|
      ensures var x, y := outbox[b[i]], outbox[b[j]];
              && !StrLess(y.correlation, x.correlation)
              && (x.correlation == y.correlation ==>
                    x.createdAt <= y.createdAt && (x.createdAt == y.createdAt ==> b[i] < b[j]))
    {
      EarlierMeans(outbox, b[i], b[j]);
    }
  }

  lemma EarlierMeans(outbox: seq<Event>, i: nat, j: nat)
    requires i < |outbox| && j < |outbox| && Earlier(outbox, i, j)
    ensures var x, y := outbox[i], outbox[j];
            && !StrLess(y.correlation, x.correlation)
            && (x.correlation == y.correlation ==>
                  x.createdAt <= y.createdAt && (x.createdAt == y.createdAt ==> i < j))
  {
    if StrLess(outbox[i].correlation, outbox[j].correlation) {
      StrLessAsym(outbox[i].correlation, outbox[j].correlation);
    } else {
      StrLessTotal(outbox[i].correlation, outbox[i].correlation);
      NotEarlierSelf(outbox, i);
    }
  }

  function Least(a: nat, b: nat): nat { if a < b then a else b }

  /** One batch under any handler: of the first `limit` pending rows, those whose handler succeeds. */
  lemma BatchProcesses(handler: Event -> bool, outbox: seq<Event>, keys: set<Digest>, limit: nat)
    requires Settled(Progress(outbox, keys, []))
    ensures var b := Batch(handler, outbox, keys, limit);
            var first := Backlog(outbox)[..Least(limit, |Backlog(outbox)|)];
            && |b.outbox| == |outbox| && b.done == Handled(handler, outbox, first)
            && (forall i | 0 <= i < |outbox| ::
                  b.outbox[i] == outbox[i].(processed := outbox[i].processed || (i in first && handler(outbox[i]))))
            && Settled(b) && Backlog(b.outbox) == Filter(Others(b.done), Backlog(outbox))
  {
    hide Settled, Pending, HandleAll, Fresh;
    var start := Progress(outbox, keys, []);
    var m := Least(limit, |Backlog(outbox)|);
    var first := Backlog(outbox)[..m];
    assert Prefix(Backlog(outbox), limit) == first;
    PendingFresh(start, m);
    BatchExactly(handler, start, first);
    BacklogWithout(outbox, Batch(handler, outbox, keys, limit).outbox, Handled(handler, outbox, first));
    assert [] + Handled(handler, outbox, first) == Handled(handler, outbox, first);
  }

  /** The rows whose handler fails. */
  function Failing(handler: Event -> bool, outbox: seq<Event>, rows: seq<nat>): seq<nat> {
    Filter((i: nat) => i < |outbox| && !handler(outbox[i]), rows)
  }

  /** Failing rows stay, so a batch only takes away succeeding ones: the failing rows ahead are the same. */
  lemma FailingStay(handler: Event -> bool, outbox: seq<Event>, outbox': seq<Event>, ahead: seq<nat>, done: seq<nat>)
    requires InOutbox(outbox, ahead) && |outbox'| == |outbox|
    requires forall i | i in done :: i < |outbox| && handler(outbox[i])
    requires forall i | 0 <= i < |outbox| && i !in done :: outbox'[i] == outbox[i]
    ensures Failing(handler, outbox', Filter(Others(done), ahead)) == Failing(handler, outbox, ahead)
  {
    var p := (i: nat) => i < |outbox| && !handler(outbox[i]);
    var rest := Filter(Others(done), ahead);
    SameFilter((i: nat) => i < |outbox'| && !handler(outbox'[i]), p, rest);
    FilterFilter(Others(done), p, ahead);
  }

  /** A row before which fewer than `limit` rows fail either is among the first `limit` or sees one go. */
  lemma {:induction false} SomeSucceed(handler: Event -> bool, outbox: seq<Event>, rows: seq<nat>)
    requires InOutbox(outbox, rows)
    ensures |Handled(handler, outbox, rows)| + |Failing(handler, outbox, rows)| == |rows|
  {
    if rows != [] {
      SomeSucceed(handler, outbox, rows[1..]);
    }
  }

  lemma {:induction false} FilterPrefixLength(p: nat -> bool, xs: seq<nat>, m: nat)
    requires m <= |xs|
    ensures |Filter(p, xs[..m])| <= |Filter(p, xs)|
  {
    FilterConcat(p, xs[..m], xs[m..]);
    assert xs == xs[..m] + xs[m..];
  }

  /** A pending row `e`, the pending rows `ahead` of it and those `behind`. */
  predicate Queued(outbox: seq<Event>, ahead: seq<nat>, e: nat, behind: seq<nat>) {
    Backlog(outbox) == ahead + [e] + behind
  }

  /** One batch brings `e` to its turn, or leaves it waiting behind what is left ahead. */
  lemma TurnOrWait(handler: Event -> bool, g: Progress, limit: nat, ahead: seq<nat>, e: nat, behind: seq<nat>)
    requires Settled(g) && Queued(g.outbox, ahead, e, behind) && e < |g.outbox| && handler(g.outbox[e])
    ensures var b := Batch(handler, g.outbox, g.keys, limit);
            && |b.outbox| == |g.outbox|
            && (b.outbox[e].processed <==> |ahead| < limit)
            && (!b.outbox[e].processed ==>
                  b.outbox[e] == g.outbox[e]
                  && Queued(b.outbox, Filter(Others(b.done), ahead), e, Filter(Others(b.done), behind)))
  {
    hide Settled, Pending, HandleAll, Batch, Backlog, Filter;
    var b := Batch(handler, g.outbox, g.keys, limit);
    var backlog := Backlog(g.outbox);
    var m := Least(limit, |backlog|);
    SettledAgain(g, Progress(g.outbox, g.keys, []));
    BatchProcesses(handler, g.outbox, g.keys, limit);
    PendingRows(g);
    assert backlog[|ahead|] == e;
    FirstHas(backlog, m, |ahead|);
    FilterAround(Others(b.done), ahead, e, behind);
  }

  lemma FilterAround(p: nat -> bool, xs: seq<nat>, x: nat, ys: seq<nat>)
    ensures Filter(p, xs + [x] + ys) == Filter(p, xs) + (if p(x) then [x] else []) + Filter(p, ys)
  {
    FilterConcat(p, xs + [x], ys);
    FilterAppend(p, xs, x);
  }

  /** The failing rows ahead of `e` stay ahead of it. */
  lemma FailingAheadStay(handler: Event -> bool, g: Progress, limit: nat, ahead: seq<nat>, e: nat, behind: seq<nat>)
    requires Settled(g) && Queued(g.outbox, ahead, e, behind)
    ensures var b := Batch(handler, g.outbox, g.keys, limit);
            Failing(handler, b.outbox, Filter(Others(b.done), ahead)) == Failing(handler, g.outbox, ahead)
  {
    hide Settled, Pending, HandleAll, Batch, Backlog, Failing;
    var b := Batch(handler, g.outbox, g.keys, limit);
    SettledAgain(g, Progress(g.outbox, g.keys, []));
    BatchProcesses(handler, g.outbox, g.keys, limit);
    PendingRows(g);
    forall k | 0 <= k < |ahead| ensures ahead[k] < |g.outbox| {
      assert ahead[k] == Backlog(g.outbox)[k];
      assert ahead[k] in Backlog(g.outbox);
    }
    FailingStay(handler, g.outbox, b.outbox, ahead, b.done);
  }

  /** A full batch ahead of `e` with fewer than `limit` failing rows takes some row away. */
  lemma AheadShrinks(handler: Event -> bool, g: Progress, limit: nat, ahead: seq<nat>, e: nat, behind: seq<nat>)
    requires Settled(g) && Queued(g.outbox, ahead, e, behind)
    requires |Failing(handler, g.outbox, ahead)| < limit <= |ahead|
    ensures |Filter(Others(Batch(handler, g.outbox, g.keys, limit).done), ahead)| < |ahead|
  {
    hide Settled, Pending, HandleAll, Batch, Backlog;
    var b := Batch(handler, g.outbox, g.keys, limit);
    SettledAgain(g, Progress(g.outbox, g.keys, []));
    BatchProcesses(handler, g.outbox, g.keys, limit);
    PendingRows(g);
    assert Backlog(g.outbox)[..Least(limit, |Backlog(g.outbox)|)] == ahead[..limit];
    forall k | 0 <= k < |ahead| ensures ahead[k] < |g.outbox| {
      assert ahead[k] == Backlog(g.outbox)[k];
      assert ahead[k] in Backlog(g.outbox);
    }
    SomeSucceed(handler, g.outbox, ahead[..limit]);
    FilterPrefixLength((i: nat) => i < |g.outbox| && !handler(g.outbox[i]), ahead, limit);
    assert b.done != [] && b.done[0] in b.done;
    FilterShorter(Others(b.done), ahead, b.done[0]);
  }

  lemma PendingRows(g: Progress)
    ensures var b := Backlog(g.outbox);
            && (forall i | i in b :: i < |g.outbox| && !g.outbox[i].processed)
            && forall i, j | 0 <= i < j < |b| :: b[i] != b[j]
  {
    hide Pending;
    PendingFresh(g, 0);
  }

  lemma FirstHas(xs: seq<nat>, m: nat, k: nat)
    requires m <= |xs| && k < |xs| && forall i, j | 0 <= i < j < |xs| :: xs[i] != xs[j]
    ensures xs[k] in xs[..m] <==> k < m
  {
    if k < m {
      assert xs[..m][k] == xs[k];
    }
  }

  lemma {:induction false} FilterShorter(p: nat -> bool, xs: seq<nat>, x: nat)
    requires x in xs && !p(x)
    ensures |Filter(p, xs)| < |xs|
  {
    if xs[0] != x {
      FilterShorter(p, xs[1..], x);
    }
  }

  /**
   * Whether a pending row ever gets its turn: with at least as many batches as rows up to it, a row whose handler
   * succeeds is processed if and only if fewer than `limit` rows before it fail.
   */
  lemma {:induction false} StuckExactly(handler: Event -> bool, g: Progress, limit: nat, count: nat,
                                        ahead: seq<nat>, e: nat, behind: seq<nat>)
    requires Settled(g) && Queued(g.outbox, ahead, e, behind) && e < |g.outbox| && handler(g.outbox[e])
    ensures var r := RunBatches(handler, g, limit, count);
            && |r.outbox| == |g.outbox|
            && (|Failing(handler, g.outbox, ahead)| >= limit ==> !r.outbox[e].processed)
            && (|Failing(handler, g.outbox, ahead)| < limit && count > |ahead| ==> r.outbox[e].processed)
    decreases count
  {
    hide Settled, Backlog, Batch, Queued, Failing, Filter;
    if count == 0 {
      StillQueued(g.outbox, ahead, e, behind);
    } else {
      var b := Batch(handler, g.outbox, g.keys, limit);
      var next := Progress(b.outbox, b.keys, g.done + b.done);
      var ahead', behind' := Filter(Others(b.done), ahead), Filter(Others(b.done), behind);
      NextSettled(handler, g, limit);
      TurnOrWait(handler, g, limit, ahead, e, behind);
      FailingAhead(handler, g.outbox, ahead);
      if b.outbox[e].processed {
        StaysProcessed(handler, next, limit, count - 1, e);
      } else {
        FailingAheadStay(handler, g, limit, ahead, e, behind);
        if |Failing(handler, g.outbox, ahead)| < limit {
          AheadShrinks(handler, g, limit, ahead, e, behind);
        }
        StuckExactly(handler, next, limit, count - 1, ahead', e, behind');
      }
    }
  }

  lemma NextSettled(handler: Event -> bool, g: Progress, limit: nat)
    requires Settled(g)
    ensures var b := Batch(handler, g.outbox, g.keys, limit); Settled(Progress(b.outbox, b.keys, g.done + b.done))
  {
    hide Settled, Backlog, Batch;
    var b := Batch(handler, g.outbox, g.keys, limit);
    SettledAgain(g, Progress(g.outbox, g.keys, []));
    BatchProcesses(handler, g.outbox, g.keys, limit);
    SettledAgain(b, Progress(b.outbox, b.keys, g.done + b.done));
  }

  lemma FailingAhead(handler: Event -> bool, outbox: seq<Event>, ahead: seq<nat>)
    ensures |Failing(handler, outbox, ahead)| <= |ahead|
  {
  }

  lemma StillQueued(outbox: seq<Event>, ahead: seq<nat>, e: nat, behind: seq<nat>)
    requires Queued(outbox, ahead, e, behind)
    ensures e < |outbox| && !outbox[e].processed
  {
    hide Pending;
    assert e in ahead + [e] + behind;
  }

  lemma {:induction false} StaysProcessed(handler: Event -> bool, g: Progress, limit: nat, count: nat, e: nat)
    requires Settled(g) && e < |g.outbox| && g.outbox[e].processed
    ensures var r := RunBatches(handler, g, limit, count); |r.outbox| == |g.outbox| && r.outbox[e].processed
    decreases count
  {
    hide Settled, Backlog, Batch;
    if count > 0 {
      var b := Batch(handler, g.outbox, g.keys, limit);
      SettledAgain(g, Progress(g.outbox, g.keys, []));
      BatchProcesses(handler, g.outbox, g.keys, limit);
      SettledAgain(b, Progress(b.outbox, b.keys, g.done + b.done));
      StaysProcessed(handler, Progress(b.outbox, b.keys, g.done + b.done), limit, count - 1, e);
    }
  }
}
