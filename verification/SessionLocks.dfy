/**
 * core/runtime_session.py: requests interleaved at every await. The lock serialises the writers of one
 * session, so its transition log is the concatenation of its requests' logs in lock order.
 */
module SessionLocks {
  import opened Wrappers
  import opened Text
  import opened Json
  import opened Canonical
  import opened Seqs
  import opened RuntimeStates
  import opened Persistence
  import F = FrozenReplay
  import opened Transactions
  import opened RunLogs

  /** Taking the lock of `sid`: the locks held afterwards, and whether it was free. */
  function TryLock(held: set<string>, sid: string): (set<string>, bool) {
    if sid in held then (held, false) else (held + {sid}, true)
  }

  function Unlock(held: set<string>, sid: string): set<string> { held - {sid} }

  /** `_memory_session_locks`. */
  class MemoryLocks {
    var held: set<string>

    constructor ()
      ensures held == {}
    {
      held := {};
    }

    /** Entering `mutative_session`; false is SessionLockError. */
    method Enter(sid: string) returns (ok: bool)
      modifies this
      ensures (held, ok) == TryLock(old(held), sid)
      ensures ok == (sid !in old(held)) && held == old(held) + {sid}
    {
      if sid in held {
        assert held == held + {sid};
        return false;
      }
      held := held + {sid};
      return true;
    }

    /** The `finally` clause. */
    method Leave(sid: string)
      modifies this
      ensures held == Unlock(old(held), sid) && sid !in held && forall x | x != sid :: x in held <==> x in old(held)
    {
      held := held - {sid};
    }
  }

  // ---- Interleavings ------------------------------------------------------

  datatype Phase = Outside | Inside | Left | Refused

  /** `sent` is every transition the request recorded; `used` the last history length in a key. */
  datatype Request = Request(sid: string, cid: string, phase: Phase, sent: seq<Edge>, used: nat)

  /** `order` lists the requests that got the lock, first to last. */
  datatype System = System(t: Tables, locks: set<string>, requests: seq<Request>, order: seq<nat>)

  datatype Move =
    | Enter(i: nat)
    | Record(i: nat, e: Edge, n: nat, op: Op)
    | Other(i: nat, op: Op)
    | Leave(i: nat)

  predicate CanMove(s: System, m: Move) {
    m.i < |s.requests| &&
    var r := s.requests[m.i];
    match m
    case Enter(_) => r.phase == Outside
    case Record(_, e, n, op) => r.phase == Inside && n > r.used && op.p == TransitionPayload(r.sid, r.cid, e, n)
    case Other(_, op) =>
      r.phase == Inside && op.p.session == r.sid && op.p.correlation == r.cid && op.p.transition.None?
      && op.p.eventType != "runtime.transition"
    case Leave(_) => r.phase == Inside
  }

  /** The lock test and the lock are one step: there is no await between them. */
  function Do(s: System, m: Move): System
    requires CanMove(s, m)
  {
    var r := s.requests[m.i];
    match m
    case Enter(i) =>
      var (locks, ok) := TryLock(s.locks, r.sid);
      if ok then s.(requests := s.requests[i := r.(phase := Inside)], locks := locks, order := s.order + [i])
      else s.(requests := s.requests[i := r.(phase := Refused)])
    case Record(i, e, n, op) =>
      s.(requests := s.requests[i := r.(sent := r.sent + [e], used := n)], t := Step(s.t, op))
    case Other(i, op) => s.(t := Step(s.t, op))
    case Leave(i) => s.(requests := s.requests[i := r.(phase := Left)], locks := Unlock(s.locks, r.sid))
  }

  predicate CanRun(s: System, ms: seq<Move>)
    decreases ms
  {
    ms == [] || (CanMove(s, ms[0]) && CanRun(Do(s, ms[0]), ms[1..]))
  }

  function Run(s: System, ms: seq<Move>): System
    requires CanRun(s, ms)
    decreases ms
  {
    if ms == [] then s else Run(Do(s, ms[0]), ms[1..])
  }

  predicate Known(requests: seq<Request>, order: seq<nat>) { forall k | 0 <= k < |order| :: order[k] < |requests| }

  /** The rows of `sid` that its requests recorded, one request after the other in lock order. */
  function LogInOrder(requests: seq<Request>, order: seq<nat>, sid: string): seq<TransitionRow>
    requires Known(requests, order)
  {
    if order == [] then []
    else
      var front, last := order[..|order| - 1], order[|order| - 1];
      LogInOrder(requests, front, sid) + (if requests[last].sid == sid then Sent(requests[last]) else [])
  }

  function Sent(r: Request): seq<TransitionRow> { Map((e: Edge) => RowOf(r.sid, r.cid, e), r.sent) }

  // ---- Invariant ----------------------------------------------------------

  ghost predicate UnusedKeys(outbox: seq<Event>, r: Request) {
    forall e: Edge, n: nat | n > r.used :: KeyFree(outbox, TransitionKey(r.cid, e, n))
  }

  /** Lock order: requests that got the lock, each once, and a request inside is the last of its session. */
  predicate Ordered(requests: seq<Request>, order: seq<nat>) {
    && Known(requests, order)
    && (forall i, j | 0 <= i < j < |order| :: order[i] != order[j])
    && (forall k | 0 <= k < |order| :: requests[order[k]].phase in {Inside, Left})
    && (forall i, j | 0 <= i < j < |order| :: LastInside(requests[order[i]], requests[order[j]]))
  }

  predicate LastInside(earlier: Request, later: Request) { earlier.phase == Inside ==> later.sid != earlier.sid }

  predicate Serialised(s: System) {
    && (forall i, j | 0 <= i < j < |s.requests| :: s.requests[i].cid != s.requests[j].cid)
    && Ordered(s.requests, s.order)
    && (forall i | 0 <= i < |s.requests| && s.requests[i].phase == Inside ::
        s.requests[i].sid in s.locks && i in s.order)
    && (forall i | 0 <= i < |s.requests| && s.requests[i].phase in {Outside, Refused} :: s.requests[i].sent == [])
    && (forall sid | sid in s.locks :: Holder(s, sid))
  }

  predicate Holder(s: System, sid: string) {
    exists i | 0 <= i < |s.requests| :: s.requests[i].phase == Inside && s.requests[i].sid == sid
  }

  ghost predicate Logged(s: System, base: Tables)
    requires Serialised(s)
  {
    forall sid :: TransitionsOf(s.t, sid) == TransitionsOf(base, sid) + LogInOrder(s.requests, s.order, sid)
  }

  ghost predicate AllUnused(s: System) {
    forall k | 0 <= k < |s.requests| :: UnusedKeys(s.t.outbox, s.requests[k])
  }

  ghost predicate Inv(s: System, base: Tables) { Serialised(s) && Logged(s, base) && AllUnused(s) }

  predicate Initial(s: System) {
    && (forall r | r in s.requests :: r.phase == Outside && r.sent == [] && r.used == 0)
    && (forall i, j | 0 <= i < j < |s.requests| :: s.requests[i].cid != s.requests[j].cid)
    && (forall r, e | r in s.requests && e in s.t.outbox :: e.correlation != r.cid)
    && s.locks == {} && s.order == []
  }

  lemma InitialInv(s: System)
    requires Initial(s) && WellKeyed(s.t.outbox)
    ensures Inv(s, s.t)
  {
    hide IdempotencyKey;
    forall r, e: Edge, n: nat | r in s.requests ensures KeyFree(s.t.outbox, TransitionKey(r.cid, e, n)) {
      FreshKey(s.t.outbox, r.cid, "runtime.transition", TransitionBody(e), Some(TransitionName(e) + ":" + PrintNat(n)));
    }
    forall sid ensures TransitionsOf(s.t, sid) == TransitionsOf(s.t, sid) + LogInOrder(s.requests, s.order, sid) {
    }
  }

  // ---- Every move keeps it ------------------------------------------------

  /** Changing requests that stay outside the order, or only their phase, leaves the ordered log alone. */
  lemma {:induction false} SameLog(requests: seq<Request>, requests': seq<Request>, order: seq<nat>, sid: string)
    requires |requests'| == |requests| && Known(requests, order)
    requires forall k | 0 <= k < |order| :: SameSender(requests[order[k]], requests'[order[k]])
    ensures LogInOrder(requests', order, sid) == LogInOrder(requests, order, sid)
  {
    hide Sent;
    if order != [] {
      var last := order[|order| - 1];
      assert SameSender(requests[last], requests'[last]);
      SameSent(requests[last], requests'[last]);
      SameLog(requests, requests', order[..|order| - 1], sid);
    }
  }

  predicate SameSender(r: Request, r': Request) { r.sid == r'.sid && r.cid == r'.cid && r.sent == r'.sent }

  lemma SameSent(r: Request, r': Request)
    requires SameSender(r, r')
    ensures Sent(r) == Sent(r')
  {
  }

  lemma NothingSent(r: Request)
    requires r.sent == []
    ensures Sent(r) == []
  {
  }

  /** A request inside appends at the end of its own session's log and to no other. */
  lemma {:induction false} SentGrows(requests: seq<Request>, order: seq<nat>, i: nat, r': Request, e: Edge, sid: string)
    requires i < |requests| && i in order && requests[i].phase == Inside && Ordered(requests, order)
    requires r'.sid == requests[i].sid && r'.cid == requests[i].cid && r'.sent == requests[i].sent + [e]
    ensures LogInOrder(requests[i := r'], order, sid)
         == LogInOrder(requests, order, sid) + if sid == r'.sid then [RowOf(r'.sid, r'.cid, e)] else []
  {
    var n := |order| - 1;
    var front, last := order[..n], order[n];
    if last == i {
      assert forall k | 0 <= k < n :: front[k] != i;
      SameLog(requests, requests[i := r'], front, sid);
      assert Sent(r') == Sent(requests[i]) + [RowOf(r'.sid, r'.cid, e)];
    } else {
      var k :| 0 <= k < |order| && order[k] == i;
      assert front[k] == i;
      assert LastInside(requests[i], requests[last]);
      assert requests[last].sid != r'.sid;
      SentGrows(requests, front, i, r', e, sid);
    }
  }

  /** One more event takes no key that a request may still use. */
  lemma UnusedAfter(outbox: seq<Event>, e: Event, p: Payload, r: Request, used: nat)
    requires UnusedKeys(outbox, r) && e.key == KeyOf(p) && used >= r.used
    requires p.eventType == "runtime.transition" && p.correlation == r.cid ==>
               exists d: Edge, n: nat :: KeyOf(p) == TransitionKey(r.cid, d, n) && n <= used
    ensures UnusedKeys(outbox + [e], r.(used := used))
  {
    hide IdempotencyKey, Normalize, TransitionBody, TransitionName, BusinessKey;
    forall d: Edge, n: nat | n > used ensures KeyFree(outbox + [e], TransitionKey(r.cid, d, n)) {
      var key := TransitionKey(r.cid, d, n);
      assert KeyFree(outbox, key);
      if e.key == key {
        IdempotencyKeyExact(p.correlation, p.eventType, p.eventPayload, p.businessKey,
                            r.cid, "runtime.transition", TransitionBody(d),
                            Some(TransitionName(d) + ":" + PrintNat(n)));
        var d': Edge, n': nat :| KeyOf(p) == TransitionKey(r.cid, d', n') && n' <= used;
        TransitionKeyNumber(r.cid, d, n, d', n');
      }
    }
  }

  lemma EnterKeeps(s: System, base: Tables, i: nat)
    requires Inv(s, base) && CanMove(s, Enter(i))
    ensures Inv(Do(s, Enter(i)), base)
  {
    hide UnusedKeys, Logged, Ordered, LogInOrder, TransitionsOf;
    EnterSerialises(s, i);
    EnterLogged(s, base, i);
    PhaseUnused(s, Do(s, Enter(i)));
  }

  lemma EnterLogged(s: System, base: Tables, i: nat)
    requires Serialised(s) && Logged(s, base) && CanMove(s, Enter(i)) && Serialised(Do(s, Enter(i)))
    ensures Logged(Do(s, Enter(i)), base)
  {
    hide TransitionsOf, Sent, Serialised, Ordered;
    var s' := Do(s, Enter(i));
    OrderKnown(s);
    NothingYet(s, i);
    forall sid ensures LogInOrder(s'.requests, s'.order, sid) == LogInOrder(s.requests, s.order, sid) {
      SameLog(s.requests, s'.requests, s.order, sid);
      if s'.order != s.order {
        assert s'.order[..|s'.order| - 1] == s.order;
        NothingSent(s'.requests[i]);
      }
    }
  }

  lemma OrderKnown(s: System)
    requires Serialised(s)
    ensures Known(s.requests, s.order)
  {
  }

  lemma NothingYet(s: System, i: nat)
    requires Serialised(s) && i < |s.requests| && s.requests[i].phase == Outside
    ensures s.requests[i].sent == []
  {
  }

  lemma PhaseUnused(s: System, s': System)
    requires AllUnused(s) && s'.t == s.t && |s'.requests| == |s.requests|
    requires forall k | 0 <= k < |s.requests| ::
               s.requests[k].cid == s'.requests[k].cid && s.requests[k].used == s'.requests[k].used
    ensures AllUnused(s')
  {
    hide UnusedKeys;
    forall k | 0 <= k < |s'.requests| ensures UnusedKeys(s.t.outbox, s'.requests[k]) {
      SameUnused(s.t.outbox, s.requests[k], s'.requests[k]);
    }
  }

  lemma SameUnused(outbox: seq<Event>, r: Request, r': Request)
    requires UnusedKeys(outbox, r) && r.cid == r'.cid && r.used == r'.used
    ensures UnusedKeys(outbox, r')
  {
  }

  lemma EnterSerialises(s: System, i: nat)
    requires Serialised(s) && CanMove(s, Enter(i))
    ensures Serialised(Do(s, Enter(i)))
  {
    hide Ordered, Holder;
    NotInOrder(s, i);
    if s.requests[i].sid in s.locks {
      StaysOrdered(s.requests, s.order, i, Refused);
      HoldersStay(s, Do(s, Enter(i)), i);
    } else {
      EnterOrders(s, i);
      HoldersStay(s, Do(s, Enter(i)), i);
      EntersAsHolder(s, i);
    }
  }

  lemma NotInOrder(s: System, i: nat)
    requires Serialised(s) && i < |s.requests| && s.requests[i].phase == Outside
    ensures i !in s.order
  {
  }

  /** A new phase for a request that holds no place in the order, or only ends being inside, keeps the order. */
  lemma StaysOrdered(requests: seq<Request>, order: seq<nat>, i: nat, phase: Phase)
    requires Ordered(requests, order) && i < |requests|
    requires i !in order || phase == Left
    ensures Ordered(requests[i := requests[i].(phase := phase)], order)
  {
    var r := requests[i := requests[i].(phase := phase)];
    forall a, b | 0 <= a < b < |order| ensures LastInside(r[order[a]], r[order[b]]) {
      assert LastInside(requests[order[a]], requests[order[b]]);
    }
  }

  lemma EnterOrders(s: System, i: nat)
    requires Serialised(s) && CanMove(s, Enter(i)) && s.requests[i].sid !in s.locks && i !in s.order
    ensures Ordered(Do(s, Enter(i)).requests, s.order + [i])
  {
    hide Holder;
    var r := Do(s, Enter(i)).requests;
    var all := s.order + [i];
    forall a, b | 0 <= a < b < |all| ensures LastInside(r[all[a]], r[all[b]]) && all[a] != all[b] {
      assert s.order[a] in s.order;
      if b < |s.order| {
        assert s.order[b] in s.order;
        assert LastInside(s.requests[s.order[a]], s.requests[s.order[b]]);
      }
    }
  }

  predicate BothInside(r: Request, q: Request) { r.phase == Inside && q.phase == Inside }

  predicate HeldBy(s: System, i: nat, sid: string) {
    i < |s.requests| && s.requests[i].phase == Inside && s.requests[i].sid == sid
  }

  /** Requests other than `i` that hold a lock keep holding it. */
  lemma HoldersStay(s: System, s': System, i: nat)
    requires |s'.requests| == |s.requests| && forall k | 0 <= k < |s.requests| && k != i ::
        s'.requests[k] == s.requests[k]
    ensures forall sid | Holder(s, sid) && !HeldBy(s, i, sid) :: Holder(s', sid)
  {
    forall sid | Holder(s, sid) && !HeldBy(s, i, sid)
      ensures Holder(s', sid)
    {
      var j :| 0 <= j < |s.requests| && s.requests[j].phase == Inside && s.requests[j].sid == sid;
      assert s'.requests[j] == s.requests[j];
    }
  }

  lemma EntersAsHolder(s: System, i: nat)
    requires CanMove(s, Enter(i)) && s.requests[i].sid !in s.locks
    ensures Holder(Do(s, Enter(i)), s.requests[i].sid)
  {
    assert Do(s, Enter(i)).requests[i].phase == Inside;
  }

  lemma LeaveKeeps(s: System, base: Tables, i: nat)
    requires Inv(s, base) && CanMove(s, Leave(i))
    ensures Inv(Do(s, Leave(i)), base)
  {
    hide UnusedKeys, Ordered, TransitionsOf;
    var s' := Do(s, Leave(i));
    LeaveSerialises(s, i);
    OrderKnown(s);
    forall sid ensures LogInOrder(s'.requests, s.order, sid) == LogInOrder(s.requests, s.order, sid) {
      SameLog(s.requests, s'.requests, s.order, sid);
    }
    PhaseUnused(s, s');
  }

  lemma LeaveSerialises(s: System, i: nat)
    requires Serialised(s) && CanMove(s, Leave(i))
    ensures Serialised(Do(s, Leave(i)))
  {
    hide Ordered, Holder;
    forall j | 0 <= j < |s.requests| && j != i && s.requests[j].phase == Inside
      ensures s.requests[j].sid != s.requests[i].sid
    {
      OneInside(s, i, j);
    }
    StaysOrdered(s.requests, s.order, i, Left);
    HoldersStay(s, Do(s, Leave(i)), i);
  }

  /** At most one request per session is inside `mutative_session`. */
  lemma OneInside(s: System, i: nat, j: nat)
    requires Serialised(s) && i < |s.requests| && j < |s.requests| && i != j
    requires s.requests[i].phase == Inside && s.requests[j].phase == Inside
    ensures s.requests[i].sid != s.requests[j].sid
  {
    var a :| 0 <= a < |s.order| && s.order[a] == i;
    var b :| 0 <= b < |s.order| && s.order[b] == j;
    assert if a < b then LastInside(s.requests[s.order[a]], s.requests[s.order[b]])
           else LastInside(s.requests[s.order[b]], s.requests[s.order[a]]);
  }

  lemma RecordKeeps(s: System, base: Tables, i: nat, e: Edge, n: nat, op: Op)
    requires Inv(s, base) && CanMove(s, Record(i, e, n, op))
    ensures Inv(Do(s, Record(i, e, n, op)), base)
  {
    hide UnusedKeys, Logged, Ordered, Step, TransitionPayload;
    RecordSerialises(s, i, e, n, op);
    RecordInserts(s, i, e, n, op);
    RecordLogged(s, base, i, e, n, op);
    RecordUnused(s, i, e, n, op);
  }

  /** A recorded transition is never taken for a duplicate. */
  lemma RecordInserts(s: System, i: nat, e: Edge, n: nat, op: Op)
    requires AllUnused(s) && CanMove(s, Record(i, e, n, op))
    ensures Step(s.t, op).transitions == s.t.transitions + [RowOf(s.requests[i].sid, s.requests[i].cid, e)]
    ensures Step(s.t, op).outbox == s.t.outbox + [EventOf(op.p, op.id, op.now)]
  {
    hide UnusedKeys, IdempotencyKey, Step, TransitionName, TransitionBody;
    var r := s.requests[i];
    assert KeyOf(op.p) == TransitionKey(r.cid, e, n);
    NextKeyFree(s.t.outbox, r, e, n);
    InsertedTables(s.t, op);
  }

  lemma RecordLogged(s: System, base: Tables, i: nat, e: Edge, n: nat, op: Op)
    requires Serialised(s) && Logged(s, base) && AllUnused(s) && CanMove(s, Record(i, e, n, op))
    requires Serialised(Do(s, Record(i, e, n, op)))
    ensures Logged(Do(s, Record(i, e, n, op)), base)
  {
    hide AllUnused, Step, TransitionPayload, LogInOrder, TransitionsOf, Serialised, Sent;
    RecordInserts(s, i, e, n, op);
    var r := s.requests[i];
    var s' := Do(s, Record(i, e, n, op));
    OrderKnown(s);
    OrderKnown(s');
    InOrder(s, i);
    forall sid ensures TransitionsOf(s'.t, sid) == TransitionsOf(base, sid) + LogInOrder(s'.requests, s'.order, sid) {
      RowAdded(s.t, s'.t, RowOf(r.sid, r.cid, e), sid);
      SentGrows(s.requests, s.order, i, s'.requests[i], e, sid);
    }
  }

  lemma RowAdded(t: Tables, u: Tables, row: TransitionRow, sid: string)
    requires u.transitions == t.transitions + [row]
    ensures TransitionsOf(u, sid) == TransitionsOf(t, sid) + if sid == row.session then [row] else []
  {
    FilterAppend(RowIn(sid), t.transitions, row);
  }

  lemma InOrder(s: System, i: nat)
    requires Serialised(s) && i < |s.requests| && s.requests[i].phase == Inside
    ensures i in s.order && Ordered(s.requests, s.order)
  {
  }

  lemma RecordUnused(s: System, i: nat, e: Edge, n: nat, op: Op)
    requires Serialised(s) && AllUnused(s) && CanMove(s, Record(i, e, n, op))
    ensures AllUnused(Do(s, Record(i, e, n, op)))
  {
    hide UnusedKeys, IdempotencyKey, Step, TransitionName, TransitionBody, Ordered;
    RecordInserts(s, i, e, n, op);
    assert KeyOf(op.p) == TransitionKey(s.requests[i].cid, e, n);
    var s' := Do(s, Record(i, e, n, op));
    forall k | 0 <= k < |s'.requests| ensures UnusedKeys(s'.t.outbox, s'.requests[k]) {
      assert k != i ==> s.requests[k].cid != s.requests[i].cid;
      UnusedAfter(s.t.outbox, EventOf(op.p, op.id, op.now), op.p, s.requests[k], s'.requests[k].used);
      SameUnused(s'.t.outbox, s.requests[k].(used := s'.requests[k].used), s'.requests[k]);
    }
  }

  lemma NextKeyFree(outbox: seq<Event>, r: Request, e: Edge, n: nat)
    requires UnusedKeys(outbox, r) && n > r.used
    ensures KeyFree(outbox, TransitionKey(r.cid, e, n))
  {
  }

  lemma SamePlacesOrdered(requests: seq<Request>, order: seq<nat>, i: nat, r': Request)
    requires Ordered(requests, order) && i < |requests| && r'.sid == requests[i].sid && r'.phase == requests[i].phase
    ensures Ordered(requests[i := r'], order)
  {
    forall a, b | 0 <= a < b < |order| ensures LastInside(requests[i := r'][order[a]], requests[i := r'][order[b]]) {
      assert LastInside(requests[order[a]], requests[order[b]]);
    }
  }

  lemma RecordSerialises(s: System, i: nat, e: Edge, n: nat, op: Op)
    requires Serialised(s) && CanMove(s, Record(i, e, n, op))
    ensures Serialised(Do(s, Record(i, e, n, op)))
  {
    hide Step, TransitionPayload, Ordered;
    var s' := Do(s, Record(i, e, n, op));
    SamePlacesOrdered(s.requests, s.order, i, s'.requests[i]);
    forall sid | sid in s'.locks ensures Holder(s', sid) {
      var j :| 0 <= j < |s.requests| && s.requests[j].phase == Inside && s.requests[j].sid == sid;
      assert s'.requests[j].phase == Inside && s'.requests[j].sid == sid;
    }
  }

  lemma OtherKeeps(s: System, base: Tables, i: nat, op: Op)
    requires Inv(s, base) && CanMove(s, Other(i, op))
    ensures Inv(Do(s, Other(i, op)), base)
  {
    hide UnusedKeys, Sent, IdempotencyKey, Step, Ordered, LogInOrder;
    var s' := Do(s, Other(i, op));
    StepOutbox(s.t, op);
    forall sid | sid in s'.locks ensures Holder(s', sid) {
      assert Holder(s, sid);
    }
    forall sid ensures TransitionsOf(s'.t, sid) == TransitionsOf(s.t, sid) {
    }
    forall k | 0 <= k < |s.requests| ensures UnusedKeys(s'.t.outbox, s.requests[k]) {
      var r := s.requests[k];
      UnusedAfter(s.t.outbox, EventOf(op.p, op.id, op.now), op.p, r, r.used);
    }
  }

  lemma MoveKeeps(s: System, base: Tables, m: Move)
    requires Inv(s, base) && CanMove(s, m)
    ensures Inv(Do(s, m), base)
  {
    match m
    case Enter(i) => EnterKeeps(s, base, i);
    case Record(i, e, n, op) => RecordKeeps(s, base, i, e, n, op);
    case Other(i, op) => OtherKeeps(s, base, i, op);
    case Leave(i) => LeaveKeeps(s, base, i);
  }

  lemma {:induction false} RunKeeps(s: System, base: Tables, ms: seq<Move>)
    requires Inv(s, base) && CanRun(s, ms)
    ensures Inv(Run(s, ms), base)
    decreases ms
  {
    hide Inv, Do, CanMove;
    if ms != [] {
      MoveKeeps(s, base, ms[0]);
      RunKeeps(Do(s, ms[0]), base, ms[1..]);
    }
  }

  // ---- What every interleaving shows --------------------------------------

  /** Every transition that request `i` set out to record, in order. */
  function RecordedBy(ms: seq<Move>, i: nat): seq<Edge> {
    if ms == [] then []
    else (if ms[0].Record? && ms[0].i == i then [ms[0].e] else []) + RecordedBy(ms[1..], i)
  }

  lemma {:induction false} SentIsRecorded(s: System, ms: seq<Move>, i: nat)
    requires CanRun(s, ms) && i < |s.requests|
    ensures |Run(s, ms).requests| == |s.requests|
    ensures Run(s, ms).requests[i].sent == s.requests[i].sent + RecordedBy(ms, i)
    decreases ms
  {
    hide Step, TransitionPayload;
    if ms != [] {
      SentIsRecorded(Do(s, ms[0]), ms[1..], i);
    }
  }

  /**
   * Over every interleaving of requests with distinct correlation ids: one request per session is inside
   * at a time, and each session's log is what its requests recorded, request after request in lock order,
   * with no transition lost to deduplication. A refused request recorded nothing.
   */
  lemma LogsInLockOrder(s: System, ms: seq<Move>)
    requires Initial(s) && WellKeyed(s.t.outbox) && CanRun(s, ms)
    ensures var u := Run(s, ms);
            && Known(u.requests, u.order)
            && (forall sid :: TransitionsOf(u.t, sid) == TransitionsOf(s.t, sid) + LogInOrder(u.requests, u.order, sid))
            && |u.requests| == |s.requests|
            && (forall i | 0 <= i < |s.requests| :: u.requests[i].sent == RecordedBy(ms, i))
            && (forall i | 0 <= i < |u.requests| && u.requests[i].phase == Refused ::
                u.requests[i].sent == [] && i !in u.order)
            && (forall i, j | 0 <= i < j < |u.requests| && BothInside(u.requests[i], u.requests[j]) ::
                u.requests[i].sid != u.requests[j].sid)
  {
    hide TransitionsOf, LogInOrder, AllUnused, Run, CanRun, RecordedBy, WellKeyed, Serialised;
    InitialInv(s);
    RunKeeps(s, s.t, ms);
    var u := Run(s, ms);
    OrderKnown(u);
    SameRequests(s, ms);
    forall i | 0 <= i < |s.requests| ensures u.requests[i].sent == RecordedBy(ms, i) {
      SentIsRecorded(s, ms, i);
      assert s.requests[i] in s.requests;
    }
    forall i | 0 <= i < |u.requests| && u.requests[i].phase == Refused
      ensures u.requests[i].sent == [] && i !in u.order
    {
      RefusedSilent(u, i);
    }
    forall i, j | 0 <= i < j < |u.requests| && BothInside(u.requests[i], u.requests[j])
      ensures u.requests[i].sid != u.requests[j].sid
    {
      OneInside(u, i, j);
    }
  }

  /**
   * In every reachable state a request that enters gets in exactly when no other request of its session is inside,
   * and then it is the newest in lock order; a request that leaves lets the next one in.
   */
  lemma EntersExactly(s: System, ms: seq<Move>, i: nat)
    requires Initial(s) && WellKeyed(s.t.outbox) && CanRun(s, ms) && CanMove(Run(s, ms), Enter(i))
    ensures var u := Run(s, ms);
            var v := Do(u, Enter(i));
            var busy := exists j | 0 <= j < |u.requests| ::
                          u.requests[j].phase == Inside && u.requests[j].sid == u.requests[i].sid;
            && v.requests[i].phase == (if busy then Refused else Inside)
            && v.order == (if busy then u.order else u.order + [i]) && v.t == u.t
            && forall k | 0 <= k < |u.requests| && k != i :: v.requests[k] == u.requests[k]
  {
    hide Run, CanRun, Logged, AllUnused, Ordered;
    InitialInv(s);
    RunKeeps(s, s.t, ms);
    var u := Run(s, ms);
    assert u.requests[i].sid in u.locks ==> Holder(u, u.requests[i].sid);
  }

  /** The persist calls of the moves, in the order they were made. */
  function Calls(ms: seq<Move>): seq<Op> {
    if ms == [] then []
    else (if ms[0].Record? || ms[0].Other? then [ms[0].op] else []) + Calls(ms[1..])
  }

  /** Over every interleaving the tables are those of all persist calls, one after the other. */
  lemma {:induction false} TablesFollowCalls(s: System, ms: seq<Move>)
    requires CanRun(s, ms)
    ensures Run(s, ms).t == RunOps(s.t, Calls(ms))
    decreases ms
  {
    hide Step, TransitionPayload;
    if ms != [] {
      TablesFollowCalls(Do(s, ms[0]), ms[1..]);
      if ms[0].Record? || ms[0].Other? {
        assert Calls(ms)[0] == ms[0].op && Calls(ms)[1..] == Calls(ms[1..]);
      } else {
        assert Calls(ms) == Calls(ms[1..]);
      }
    }
  }

  lemma RefusedSilent(s: System, i: nat)
    requires Serialised(s) && i < |s.requests| && s.requests[i].phase == Refused
    ensures s.requests[i].sent == [] && i !in s.order
  {
  }

  lemma {:induction false} SameRequests(s: System, ms: seq<Move>)
    requires CanRun(s, ms)
    ensures |Run(s, ms).requests| == |s.requests|
    decreases ms
  {
    hide Step, TransitionPayload;
    if ms != [] {
      SameRequests(Do(s, ms[0]), ms[1..]);
    }
  }

  /** A refused request changes no table and no lock, and has no further move: it frees nobody's lock. */
  lemma RefusedIsInert(s: System, i: nat, m: Move)
    requires Serialised(s) && CanMove(s, Enter(i)) && s.requests[i].sid in s.locks && m.i == i
    ensures var u := Do(s, Enter(i));
            u.t == s.t && u.locks == s.locks && u.order == s.order && !CanMove(u, m) && Holder(u, s.requests[i].sid)
  {
    EnterSerialises(s, i);
  }

  /** A second request in one session leaves a log no replay accepts. */
  lemma SecondRequestBreaksReplay(first: seq<TransitionRow>, second: seq<TransitionRow>)
    requires first != [] && F.EndState(first) != "perceiving"
    requires second != [] && second[0].fromState == "perceiving"
    ensures !F.ConnectedPath(first + second)
  {
    var rows := first + second;
    assert rows[|first|] == second[0] && rows[..|first|] == first;
  }
}
