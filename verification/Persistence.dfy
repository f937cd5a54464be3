/**
 * core/persistence.py, core/replay_store.py, core/intelligence_store.py: the in-memory tables as one
 * value, the projections the replay reads, and core/transaction.py's idempotency key.
 */
module Persistence {
  import opened Wrappers
  import opened Text
  import opened Json
  import opened Canonical
  import opened Seqs

  datatype Event = Event(id: string, key: Digest, correlation: string, eventType: string, payload: Py,
                         createdAt: int, processed: bool)

  datatype Decision = Decision(id: string, correlation: string, createdAt: int)

  datatype Effect = Effect(id: string, correlation: string, createdAt: int)

  datatype TransitionRow = TransitionRow(correlation: string, session: string, fromState: string, toState: string)

  /** One entry of a snapshot's tool_results; a missing name or agent is "". */
  datatype ToolRecord = NotADict | ToolDict(toolName: string, agentId: string, params: Option<Py>, data: Py)

  /** Of a replay snapshot: the state, the tool results and `response["delegations"]`. */
  datatype Snapshot = Snapshot(runtimeState: Option<string>, toolResults: seq<ToolRecord>, delegations: seq<string>)

  datatype Baseline = Baseline(correlation: string, fingerprint: Digest, version: string)

  datatype ApprovalRef = ApprovalRef(id: string, correlation: string)

  datatype RetryTrace = RetryTrace(agent: string, step: nat)

  datatype Span = Span(id: string, parent: Option<string>)

  datatype Health = Health(session: string, correlation: string, replayConfidence: real)

  datatype Tables = Tables(
    outbox: seq<Event>,
    decisions: seq<Decision>,
    effects: seq<Effect>,
    transitions: seq<TransitionRow>,
    snapshots: map<string, seq<Snapshot>>,
    baselines: map<string, Baseline>,
    approvals: seq<ApprovalRef>,
    retryTraces: seq<RetryTrace>,
    spans: seq<Span>,
    health: seq<Health>)

  // ---- Projections --------------------------------------------------------

  function EventIn(cid: string): Event -> bool { (e: Event) => e.correlation == cid }

  function DecisionIn(cid: string): Decision -> bool { (d: Decision) => d.correlation == cid }

  function EffectIn(cid: string): Effect -> bool { (e: Effect) => e.correlation == cid }

  function ApprovalIn(cid: string): ApprovalRef -> bool { (a: ApprovalRef) => a.correlation == cid }

  function RowIn(sid: string): TransitionRow -> bool { (r: TransitionRow) => r.session == sid }

  function CreatedAt(): Event -> real { (e: Event) => e.createdAt as real }

  function EventsByCorrelation(t: Tables, cid: string): seq<Event> {
    SortBy(CreatedAt(), Filter(EventIn(cid), t.outbox))
  }

  function TransitionsOf(t: Tables, sid: string): seq<TransitionRow> { Filter(RowIn(sid), t.transitions) }

  function SnapshotsOf(t: Tables, sid: string): seq<Snapshot> {
    if sid in t.snapshots then t.snapshots[sid] else []
  }

  function DecisionIds(ds: seq<Decision>): seq<string> { Map((d: Decision) => d.id, ds) }

  function EffectIds(es: seq<Effect>): seq<string> { Map((e: Effect) => e.id, es) }

  function ApprovalIds(rs: seq<ApprovalRef>): seq<string> { Map((a: ApprovalRef) => a.id, rs) }

  /** `get_memory_outbox_by_idempotency`: the newest event with this key. */
  function FindByKey(outbox: seq<Event>, key: Digest): (r: Option<Event>)
    ensures r.None? <==> forall e | e in outbox :: e.key != key
    ensures r.Some? ==> r.value in outbox && r.value.key == key
  {
    if outbox == [] then None
    else if outbox[|outbox| - 1].key == key then Some(outbox[|outbox| - 1])
    else FindByKey(outbox[..|outbox| - 1], key)
  }

  const EMPTY_SNAPSHOT := Snapshot(None, [], [])

  /** `save_replay_snapshot_memory`: pad with empty dicts, then write the slot. */
  function PutSnapshot(list: seq<Snapshot>, step: nat, data: Snapshot): (r: seq<Snapshot>)
    ensures |r| == if step < |list| then |list| else step + 1
    ensures forall i | 0 <= i < |r| ::
              r[i] == if i == step then data else if i < |list| then list[i] else EMPTY_SNAPSHOT
  {
    var padded := if step < |list| then list else list + seq(step + 1 - |list|, _ => EMPTY_SNAPSHOT);
    padded[step := data]
  }

  /** `replace_health`: at most one row per session and correlation. */
  function ReplaceHealth(rows: seq<Health>, h: Health): (r: seq<Health>)
    ensures forall x :: x in r <==> x == h || (x in rows && !(x.session == h.session && x.correlation == h.correlation))
  {
    Filter((x: Health) => !(x.session == h.session && x.correlation == h.correlation), rows) + [h]
  }

  predicate FirstWithId(rows: seq<Span>, i: nat)
    requires i < |rows|
  {
    forall j | 0 <= j < i :: rows[j].id != rows[i].id
  }

  /** `append_spans`: keyed by id; a known id keeps its place and takes the new value. */
  function PutSpan(rows: seq<Span>, s: Span): (r: seq<Span>)
    ensures |rows| <= |r| <= |rows| + 1
    ensures forall i | 0 <= i < |rows| :: r[i].id == rows[i].id
    ensures |r| == |rows| <==> exists x | x in rows :: x.id == s.id
    ensures |r| > |rows| ==> r[|rows|] == s
    ensures forall i | 0 <= i < |rows| && rows[i].id != s.id :: r[i] == rows[i]
    ensures forall i | 0 <= i < |rows| && rows[i].id == s.id && FirstWithId(rows, i) :: r[i] == s
  {
    if rows == [] then [s]
    else if rows[0].id == s.id then [s] + rows[1..]
    else [rows[0]] + PutSpan(rows[1..], s)
  }

  function AppendSpans(rows: seq<Span>, spans: seq<Span>): seq<Span>
    decreases spans
  {
    if spans == [] then rows else AppendSpans(PutSpan(rows, spans[0]), spans[1..])
  }

  // ---- Idempotency key ----------------------------------------------------

  function Txt(s: string): Py { PyScalar(Str(s)) }

  /** An empty business key counts as none. */
  function BusinessKey(eventType: string, businessKey: Option<string>): string {
    if businessKey.Some? && businessKey.value != "" then businessKey.value else eventType
  }

  function KeyMaterial(cid: string, eventType: string, payload: Py, businessKey: Option<string>): seq<PyItem> {
    [PyItem("correlation_id", Txt(cid)),
     PyItem("event_type", Txt(eventType)),
     PyItem("business_key", Txt(BusinessKey(eventType, businessKey))),
     PyItem("payload", payload)]
  }

  function IdempotencyKey(cid: string, eventType: string, payload: Py, businessKey: Option<string>): Digest {
    StableHash(PyDict(KeyMaterial(cid, eventType, payload, businessKey)))
  }

  /** Two dicts with one normal form agree on every kept key they both hold once. */
  lemma SameFormSameMember(xs: seq<PyItem>, ys: seq<PyItem>, i: nat)
    requires Normalize(PyDict(xs), true) == Normalize(PyDict(ys), true)
    requires DistinctItems(xs) && DistinctItems(ys) && i < |xs| && i < |ys|
    requires xs[i].key == ys[i].key && xs[i].key !in VOLATILE_KEYS
    ensures Normalize(xs[i].val, true) == Normalize(ys[i].val, true)
  {
    hide DictOf, SortByName, Get, DistinctItems;
    var k := xs[i].key;
    ItemsGet(xs, true, i);
    ItemsGet(ys, true, i);
    NormalDictGet(NormalizeItems(xs, true), k);
    NormalDictGet(NormalizeItems(ys, true), k);
  }

  lemma SameHashSameMember(xs: seq<PyItem>, ys: seq<PyItem>, i: nat)
    requires StableHash(PyDict(xs)) == StableHash(PyDict(ys))
    requires DistinctItems(xs) && DistinctItems(ys) && i < |xs| && i < |ys|
    requires xs[i].key == ys[i].key && xs[i].key !in VOLATILE_KEYS
    ensures Normalize(xs[i].val, true) == Normalize(ys[i].val, true)
  {
    SameHashSameTree(PyDict(xs), PyDict(ys));
    SameFormSameMember(xs, ys, i);
  }

  lemma SameMembersSameHash(xs: seq<PyItem>, ys: seq<PyItem>)
    requires |xs| == |ys|
    requires forall i | 0 <= i < |xs| ::
               xs[i].key == ys[i].key && Normalize(xs[i].val, true) == Normalize(ys[i].val, true)
    ensures StableHash(PyDict(xs)) == StableHash(PyDict(ys))
  {
    SameItems(xs, ys);
  }

  lemma {:induction false} SameItems(xs: seq<PyItem>, ys: seq<PyItem>)
    requires |xs| == |ys|
    requires forall i | 0 <= i < |xs| ::
               xs[i].key == ys[i].key && Normalize(xs[i].val, true) == Normalize(ys[i].val, true)
    ensures NormalizeItems(xs, true) == NormalizeItems(ys, true)
  {
    hide Normalize;
    if xs != [] {
      forall i | 0 <= i < |xs[1..]|
        ensures xs[1..][i].key == ys[1..][i].key && Normalize(xs[1..][i].val, true) == Normalize(ys[1..][i].val, true)
      {
        assert xs[1..][i] == xs[i + 1] && ys[1..][i] == ys[i + 1];
      }
      SameItems(xs[1..], ys[1..]);
    }
  }

  /** The key names exactly the correlation, the type, the business key and the payload's normal form. */
  lemma IdempotencyKeyExact(c: string, e: string, p: Py, b: Option<string>,
                            c': string, e': string, p': Py, b': Option<string>)
    ensures IdempotencyKey(c, e, p, b) == IdempotencyKey(c', e', p', b') <==>
            c == c' && e == e' && BusinessKey(e, b) == BusinessKey(e', b')
            && Normalize(p, true) == Normalize(p', true)
  {
    hide StableHash, BusinessKey;
    var xs, ys := KeyMaterial(c, e, p, b), KeyMaterial(c', e', p', b');
    if IdempotencyKey(c, e, p, b) == IdempotencyKey(c', e', p', b') {
      forall i | 0 <= i < 4 ensures Normalize(xs[i].val, true) == Normalize(ys[i].val, true) {
        SameHashSameMember(xs, ys, i);
      }
      assert Normalize(xs[0].val, true) == Leaf(Str(c)) && Normalize(ys[0].val, true) == Leaf(Str(c'));
      assert Normalize(xs[1].val, true) == Leaf(Str(e)) && Normalize(ys[1].val, true) == Leaf(Str(e'));
      assert Normalize(xs[2].val, true) == Leaf(Str(BusinessKey(e, b)));
      assert Normalize(ys[2].val, true) == Leaf(Str(BusinessKey(e', b')));
      assert Normalize(xs[3].val, true) == Normalize(ys[3].val, true);
    }
    if c == c' && e == e' && BusinessKey(e, b) == BusinessKey(e', b') && Normalize(p, true) == Normalize(p', true) {
      SameMembersSameHash(xs, ys);
    }
  }

  /** No business key, an empty one and the event type itself are the same key. */
  lemma DefaultBusinessKey(c: string, e: string, p: Py)
    ensures IdempotencyKey(c, e, p, None) == IdempotencyKey(c, e, p, Some("")) == IdempotencyKey(c, e, p, Some(e))
    ensures forall b | b != "" && b != e :: IdempotencyKey(c, e, p, Some(b)) != IdempotencyKey(c, e, p, None)
  {
    hide IdempotencyKey, Normalize;
    IdempotencyKeyExact(c, e, p, None, c, e, p, Some(""));
    IdempotencyKeyExact(c, e, p, Some(""), c, e, p, Some(e));
    forall b | b != "" && b != e ensures IdempotencyKey(c, e, p, Some(b)) != IdempotencyKey(c, e, p, None) {
      IdempotencyKeyExact(c, e, p, Some(b), c, e, p, None);
    }
  }

  // ---- Sorting ids --------------------------------------------------------

  function ByText(): (string, string) -> bool { (a: string, b: string) => !StrLess(b, a) }

  function SortTexts(xs: seq<string>): seq<string> { SortWith(ByText(), xs) }

  /** An ascending permutation. */
  lemma SortTextsSorts(xs: seq<string>)
    ensures multiset(SortTexts(xs)) == multiset(xs)
    ensures forall i, j | 0 <= i < j < |SortTexts(xs)| :: !StrLess(SortTexts(xs)[j], SortTexts(xs)[i])
  {
    ByTextPreorder();
    SortWithSorts(ByText(), xs);
    var r := SortTexts(xs);
    forall i, j | 0 <= i < j < |r| ensures !StrLess(r[j], r[i]) {
      assert ByText()(r[i], r[j]);
    }
  }

  lemma ByTextPreorder()
    ensures Preorder(ByText())
  {
    forall a: string, b: string ensures ByText()(a, b) || ByText()(b, a) {
      if StrLess(a, b) {
        StrLessAsym(a, b);
      }
    }
    forall a: string, b: string, c: string | ByText()(a, b) && ByText()(b, c) ensures ByText()(a, c) {
      NotLessTrans(a, b, c);
    }
  }
}
