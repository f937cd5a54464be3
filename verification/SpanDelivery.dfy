/**
 * How pending spans reach the store: over every sequence of one request's span starts and persist calls since
 * `begin_session`, interleaved with the persist calls of other requests, exactly the spans not caught in a
 * refused close are stored, each once.
 */
module SpanDelivery {
  import opened Wrappers
  import opened Json
  import opened Canonical
  import opened Persistence
  import opened Spans
  import opened FrozenReplay
  import opened Transactions

  /** ForeignAct is a persist call of another request, with its own pending spans. */
  datatype Act =
    | StartAct(kind: SpanType, id: string)
    | PersistAct(p: Payload, id: string, now: int)
    | ForeignAct(p: Payload, theirs: seq<Span>, id: string, now: int)

  /**
   * `started`, `lost` and `others` record what happened; the runtime does not keep them. `others` are the ids
   * of spans that other requests stored, before or since.
   */
  datatype Trace = Trace(t: Tables, pending: seq<Span>, orchestration: Option<string>, started: seq<Span>,
                         lost: set<string>, others: set<string>)

  function Ids(xs: seq<Span>): set<string> { set x | x in xs :: x.id }

  predicate DistinctIds(xs: seq<Span>) { forall i, j | 0 <= i < j < |xs| :: xs[i].id != xs[j].id }

  function Begin(t: Tables): Trace { Trace(t, [], None, [], {}, Ids(t.spans)) }

  /** Uuids are fresh, and this request's persist calls drain, as every caller's do. */
  predicate FreshAct(s: Trace, a: Act) {
    match a
    case StartAct(_, id) => id !in Ids(s.t.spans) && id !in Ids(s.started)
    case PersistAct(p, _, _) => p.drainSpans && p.spans == []
    case ForeignAct(p, theirs, _, _) =>
      var spans := MergedSpans(p, theirs);
      DistinctIds(spans) && Ids(spans) !! Ids(s.t.spans) && Ids(spans) !! Ids(s.started)
  }

  predicate Refused(s: Trace, a: Act) {
    a.PersistAct? && PersistSpec(s.t, a.p, s.pending, a.id, a.now).1.None?
  }

  function Do(s: Trace, a: Act): Trace {
    match a
    case StartAct(kind, id) =>
      var span := Span(id, ParentFor(kind, s.orchestration));
      s.(pending := s.pending + [span], started := s.started + [span],
         orchestration := if kind == Orchestration then Some(id) else s.orchestration)
    case PersistAct(p, id, now) =>
      s.(t := PersistSpec(s.t, p, s.pending, id, now).0, pending := [],
         lost := if Refused(s, a) then s.lost + Ids(s.pending) else s.lost)
    case ForeignAct(p, theirs, id, now) =>
      var (t, r) := PersistSpec(s.t, p, theirs, id, now);
      s.(t := t, others := if r.Some? then s.others + Ids(MergedSpans(p, theirs)) else s.others)
  }

  predicate FreshActs(s: Trace, acts: seq<Act>)
    decreases acts
  {
    acts == [] || (FreshAct(s, acts[0]) && FreshActs(Do(s, acts[0]), acts[1..]))
  }

  function DoAll(s: Trace, acts: seq<Act>): Trace
    decreases acts
  {
    if acts == [] then s else DoAll(Do(s, acts[0]), acts[1..])
  }

  predicate Delivered(s: Trace) {
    && DistinctIds(s.t.spans + s.pending)
    && Ids(s.t.spans) + Ids(s.pending) == s.others + (Ids(s.started) - s.lost)
    && Ids(s.pending) <= Ids(s.started) && s.lost <= Ids(s.started)
    && s.others <= Ids(s.t.spans) && s.others !! Ids(s.started)
    && (forall x | x in s.started && x.id !in s.lost :: x in s.t.spans || x in s.pending)
    && (forall x | x in s.started && x.parent.Some? :: x.parent.value in Ids(s.started))
    && (s.orchestration.Some? ==> s.orchestration.value in Ids(s.started))
  }

  lemma {:induction false} AppendFresh(rows: seq<Span>, spans: seq<Span>)
    requires DistinctIds(rows + spans)
    ensures AppendSpans(rows, spans) == rows + spans
    decreases spans
  {
    if spans == [] {
      assert rows + spans == rows;
    } else {
      var all := rows + spans;
      forall x | x in rows ensures x.id != spans[0].id {
        var i :| 0 <= i < |rows| && rows[i] == x;
        assert all[i] == x && all[|rows|] == spans[0];
      }
      PutFresh(rows, spans[0]);
      assert rows + [spans[0]] + spans[1..] == all;
      AppendFresh(rows + [spans[0]], spans[1..]);
    }
  }

  lemma {:induction false} PutFresh(rows: seq<Span>, s: Span)
    requires forall x | x in rows :: x.id != s.id
    ensures PutSpan(rows, s) == rows + [s]
  {
    if rows != [] {
      assert rows[0] in rows;
      PutFresh(rows[1..], s);
    }
  }

  lemma PersistSpans(t: Tables, p: Payload, pending: seq<Span>, id: string, now: int)
    ensures var (u, r) := PersistSpec(t, p, pending, id, now);
            u.spans == if r.Some? then AppendSpans(t.spans, MergedSpans(p, pending)) else t.spans
  {
    hide ReplayOf, IdempotencyKey, AppendSpans, Fingerprint, MergedSpans;
  }

  lemma IdsConcat(xs: seq<Span>, ys: seq<Span>)
    ensures Ids(xs + ys) == Ids(xs) + Ids(ys)
  {
    forall x | x in xs ensures x in xs + ys {
    }
    forall y | y in ys ensures y in xs + ys {
    }
  }

  lemma DistinctConcat(xs: seq<Span>, ys: seq<Span>)
    ensures DistinctIds(xs + ys) <==> DistinctIds(xs) && DistinctIds(ys) && Ids(xs) !! Ids(ys)
  {
    var all := xs + ys;
    if DistinctIds(all) {
      forall i, j | 0 <= i < j < |xs| ensures xs[i].id != xs[j].id {
        assert all[i] == xs[i] && all[j] == xs[j];
      }
      forall i, j | 0 <= i < j < |ys| ensures ys[i].id != ys[j].id {
        assert all[|xs| + i] == ys[i] && all[|xs| + j] == ys[j];
      }
      forall x, y | x in xs && y in ys ensures x.id != y.id {
        var i :| 0 <= i < |xs| && xs[i] == x;
        var j :| 0 <= j < |ys| && ys[j] == y;
        assert all[i] == x && all[|xs| + j] == y;
      }
    }
    if DistinctIds(xs) && DistinctIds(ys) && Ids(xs) !! Ids(ys) {
      forall i, j | 0 <= i < j < |all| ensures all[i].id != all[j].id {
        if i < |xs| <= j {
          assert xs[i].id in Ids(xs) && ys[j - |xs|].id in Ids(ys);
        }
      }
    }
  }

  lemma StepDelivers(s: Trace, a: Act)
    requires Delivered(s) && FreshAct(s, a)
    ensures Delivered(Do(s, a)) && s.others <= Do(s, a).others
  {
    hide Delivered, Do, FreshAct;
    match a
    case StartAct(kind, id) => StartDelivers(s, kind, id);
    case PersistAct(p, id, now) => PersistDelivers(s, p, id, now);
    case ForeignAct(p, theirs, id, now) => ForeignDelivers(s, p, theirs, id, now);
  }

  lemma StartDelivers(s: Trace, kind: SpanType, id: string)
    requires Delivered(s) && FreshAct(s, StartAct(kind, id))
    ensures Delivered(Do(s, StartAct(kind, id))) && Do(s, StartAct(kind, id)).others == s.others
  {
    hide PersistSpec, DistinctIds;
    var s' := Do(s, StartAct(kind, id));
    var span := Span(id, ParentFor(kind, s.orchestration));
    OneId(span);
    IdsConcat(s.pending, [span]);
    IdsConcat(s.started, [span]);
    DistinctConcat(s.t.spans, s.pending);
    DistinctConcat(s.pending, [span]);
    DistinctConcat(s.t.spans, s.pending + [span]);
    forall x | x in s'.started && x.parent.Some? ensures x.parent.value in Ids(s'.started) {
      assert x in s.started || x == span;
    }
    assert Ids(s'.started) - s'.lost == (Ids(s.started) - s.lost) + {id};
  }

  lemma OneId(span: Span)
    ensures Ids([span]) == {span.id} && DistinctIds([span])
  {
    assert span in [span];
  }

  lemma PersistDelivers(s: Trace, p: Payload, id: string, now: int)
    requires Delivered(s) && FreshAct(s, PersistAct(p, id, now))
    ensures Delivered(Do(s, PersistAct(p, id, now))) && Do(s, PersistAct(p, id, now)).others == s.others
  {
    hide PersistSpec, AppendSpans, DistinctIds;
    var s' := Do(s, PersistAct(p, id, now));
    PersistSpans(s.t, p, s.pending, id, now);
    assert p.spans + s.pending == s.pending;
    AppendFresh(s.t.spans, s.pending);
    IdsConcat(s.t.spans, s.pending);
    DistinctConcat(s.t.spans, s.pending);
    assert s'.t.spans + s'.pending == s'.t.spans;
    NoIds();
  }

  lemma NoIds()
    ensures Ids([]) == {}
  {
  }

  lemma ForeignDelivers(s: Trace, p: Payload, theirs: seq<Span>, id: string, now: int)
    requires Delivered(s) && FreshAct(s, ForeignAct(p, theirs, id, now))
    ensures var s' := Do(s, ForeignAct(p, theirs, id, now)); Delivered(s') && s.others <= s'.others
  {
    hide PersistSpec, AppendSpans, DistinctIds, MergedSpans;
    var s' := Do(s, ForeignAct(p, theirs, id, now));
    var spans := MergedSpans(p, theirs);
    PersistSpans(s.t, p, theirs, id, now);
    DistinctConcat(s.t.spans, s.pending);
    DistinctConcat(s.t.spans, spans);
    AppendFresh(s.t.spans, spans);
    IdsConcat(s.t.spans, spans);
    DistinctConcat(s.t.spans + spans, s.pending);
  }

  lemma {:induction false} ActsDeliver(s: Trace, acts: seq<Act>)
    requires Delivered(s) && FreshActs(s, acts)
    ensures Delivered(DoAll(s, acts)) && s.others <= DoAll(s, acts).others
    decreases acts
  {
    hide Delivered, Do, FreshAct;
    if acts != [] {
      StepDelivers(s, acts[0]);
      ActsDeliver(Do(s, acts[0]), acts[1..]);
    }
  }

  lemma BeginDelivered(t: Tables)
    requires DistinctIds(t.spans)
    ensures Delivered(Begin(t))
  {
    assert t.spans + [] == t.spans;
  }

  /**
   * Since `begin_session`, and once a persist call has gone through: every stored id occurs once, the stored
   * ids are those of other requests and every started span but those a refused close had drained, and if none
   * was lost every recorded parent is stored too.
   */
  lemma SpansReachTheStore(t: Tables, acts: seq<Act>, last: Act)
    requires DistinctIds(t.spans) && FreshActs(Begin(t), acts)
    requires var s := DoAll(Begin(t), acts); FreshAct(s, last) && last.PersistAct? && !Refused(s, last)
    ensures var s := Do(DoAll(Begin(t), acts), last);
            && DistinctIds(s.t.spans)
            && Ids(s.t.spans) == s.others + (Ids(s.started) - s.lost)
            && Ids(t.spans) <= s.others && s.others !! Ids(s.started)
            && (s.lost == {} ==> forall x | x in s.started && x.parent.Some? :: x.parent.value in Ids(s.t.spans))
  {
    hide FreshAct, PersistSpec, FreshActs, DoAll;
    var mid := DoAll(Begin(t), acts);
    BeginDelivered(t);
    ActsDeliver(Begin(t), acts);
    StepDelivers(mid, last);
    var s := Do(mid, last);
    assert s.pending == [];
    assert s.t.spans + [] == s.t.spans;
  }

  // ---- Lost spans ---------------------------------------------------------

  /** A refused close really loses what it had drained: those ids never reach the store later. */
  lemma LostSpansStayLost(t: Tables, acts: seq<Act>)
    requires DistinctIds(t.spans) && FreshActs(Begin(t), acts)
    ensures var s := DoAll(Begin(t), acts); s.lost !! Ids(s.t.spans) + Ids(s.pending)
  {
    hide FreshActs, DoAll;
    BeginDelivered(t);
    ActsDeliver(Begin(t), acts);
  }

  /** An act loses spans exactly when it is a refused close that finds spans pending. */
  lemma LosesExactly(s: Trace, a: Act)
    requires Delivered(s)
    ensures Do(s, a).lost == s.lost <==> !(Refused(s, a) && s.pending != [])
  {
    hide PersistSpec, DistinctIds;
    if Refused(s, a) && s.pending != [] {
      assert s.pending[0] in s.pending;
      assert s.pending[0].id in Ids(s.pending);
    }
  }

  /** On empty tables: a span, then a close without any transition, and the span is lost. */
  lemma SpanLost(id: string, close: Payload, uuid: string, now: int)
    requires IsClose(close) && close.drainSpans && close.spans == []
    ensures var empty := Tables([], [], [], [], map[], map[], [], [], [], []);
            var acts := [StartAct(Orchestration, id), PersistAct(close, uuid, now)];
            FreshActs(Begin(empty), acts) && DoAll(Begin(empty), acts).lost == {id}
  {
    hide IdempotencyKey, ToolSequence;
    var empty := Tables([], [], [], [], map[], map[], [], [], [], []);
    var acts := [StartAct(Orchestration, id), PersistAct(close, uuid, now)];
    var started := Do(Begin(empty), acts[0]);
    OneId(Span(id, None));
    assert started.pending == [Span(id, None)] == started.started && started.t == empty;
    NothingToReplay(empty, close.session, close.correlation);
    assert Refused(started, acts[1]);
    assert acts[1..] == [acts[1]] && acts[1..][1..] == [];
    OneAct(started, acts[1]);
    assert DoAll(Begin(empty), acts) == DoAll(started, acts[1..]);
  }

  lemma OneAct(s: Trace, a: Act)
    ensures FreshActs(s, [a]) <==> FreshAct(s, a)
    ensures DoAll(s, [a]) == Do(s, a)
  {
    hide Do, FreshAct;
    assert [a][1..] == [];
  }

  lemma NothingToReplay(t: Tables, sid: string, cid: string)
    requires TransitionsOf(t, sid) == []
    ensures ReplayOf(t, sid, cid) == None
  {
    hide ToolSequence;
  }

  // ---- The tree of spans --------------------------------------------------

  predicate StartsOrchestration(a: Act) { a.StartAct? && a.kind == Orchestration }

  /** Act `j` is the last of the first `k` acts to start an orchestration span, with this id. */
  predicate LatestAt(acts: seq<Act>, k: nat, id: string, j: nat)
    requires k <= |acts|
  {
    j < k && acts[j] == StartAct(Orchestration, id) && forall m | j < m < k :: !StartsOrchestration(acts[m])
  }

  /** `o` is the id of the last orchestration span that the first `k` acts start, or None if they start none. */
  ghost predicate Latest(acts: seq<Act>, k: nat, o: Option<string>)
    requires k <= |acts|
  {
    match o
    case None => forall j | 0 <= j < k :: !StartsOrchestration(acts[j])
    case Some(id) => exists j: nat :: LatestAt(acts, k, id, j)
  }

  /** How many spans the acts start. */
  function Starts(acts: seq<Act>): nat {
    if acts == [] then 0 else Starts(acts[..|acts| - 1]) + if acts[|acts| - 1].StartAct? then 1 else 0
  }

  lemma {:induction false} DoAllAppend(s: Trace, acts: seq<Act>, a: Act)
    ensures DoAll(s, acts + [a]) == Do(DoAll(s, acts), a)
    decreases acts
  {
    hide Do;
    if acts == [] {
      assert [a][1..] == [];
    } else {
      assert (acts + [a])[1..] == acts[1..] + [a];
      DoAllAppend(Do(s, acts[0]), acts[1..], a);
    }
  }

  lemma LatestStep(acts: seq<Act>, a: Act, o: Option<string>)
    requires Latest(acts, |acts|, o)
    ensures Latest(acts + [a], |acts| + 1, if StartsOrchestration(a) then Some(a.id) else o)
  {
    var all := acts + [a];
    if StartsOrchestration(a) {
      assert LatestAt(all, |all|, a.id, |acts|);
    } else if o.Some? {
      var j: nat :| LatestAt(acts, |acts|, o.value, j);
      assert LatestAt(all, |all|, o.value, j);
    }
  }

  /** The manager's entry is the latest orchestration span, and one span was added per start. */
  lemma {:induction false} LatestKept(t: Tables, acts: seq<Act>)
    ensures Latest(acts, |acts|, DoAll(Begin(t), acts).orchestration)
    ensures |DoAll(Begin(t), acts).started| == Starts(acts)
  {
    hide PersistSpec, Latest;
    if acts == [] {
      NothingLatest();
    } else {
      var front, last := acts[..|acts| - 1], acts[|acts| - 1];
      assert acts == front + [last];
      LatestKept(t, front);
      DoAllAppend(Begin(t), front, last);
      LatestStep(front, last, DoAll(Begin(t), front).orchestration);
    }
  }

  lemma NothingLatest()
    ensures Latest([], 0, None)
  {
  }

  lemma {:induction false} StartedGrows(s: Trace, acts: seq<Act>)
    ensures s.started <= DoAll(s, acts).started
    decreases acts
  {
    hide PersistSpec;
    if acts != [] {
      StartedGrows(Do(s, acts[0]), acts[1..]);
    }
  }

  lemma {:induction false} DoAllSplit(s: Trace, acts: seq<Act>, k: nat)
    requires k <= |acts|
    ensures DoAll(s, acts) == DoAll(DoAll(s, acts[..k]), acts[k..])
    decreases k
  {
    hide Do;
    if k == 0 {
      assert acts[..0] == [] && acts[0..] == acts;
    } else {
      DoAllSplit(Do(s, acts[0]), acts[1..], k - 1);
      assert acts[..k][1..] == acts[1..][..k - 1] && acts[1..][k - 1..] == acts[k..];
    }
  }

  /**
   * Over every sequence of acts: the span that act `k` starts is kept with its id and, for the six inner kinds,
   * the latest orchestration span before it as parent. Orchestration and retry spans have none.
   */
  lemma ParentIsLatestOrchestration(t: Tables, acts: seq<Act>, k: nat)
    requires k < |acts| && acts[k].StartAct?
    ensures var u := DoAll(Begin(t), acts);
            && Starts(acts[..k]) < |u.started|
            && var x := u.started[Starts(acts[..k])];
               && x.id == acts[k].id
               && (acts[k].kind in {Orchestration, Retry} ==> x.parent == None)
               && (acts[k].kind in {TransitionSpan, ToolExecution, ContextBuild, AgentReasoning, Replay, ApprovalSpan}
                   ==> Latest(acts, k, x.parent))
  {
    hide PersistSpec, Latest;
    var before := DoAll(Begin(t), acts[..k]);
    LatestKept(t, acts[..k]);
    LatestPrefix(acts, k, before.orchestration);
    DoAllSplit(Begin(t), acts, k);
    assert acts[k..][0] == acts[k] && acts[k..][1..] == acts[k + 1..];
    StartedGrows(Do(before, acts[k]), acts[k + 1..]);
    assert Do(before, acts[k]).started[|before.started|].id == acts[k].id;
  }

  lemma LatestPrefix(acts: seq<Act>, k: nat, o: Option<string>)
    requires k <= |acts| && Latest(acts[..k], k, o)
    ensures Latest(acts, k, o)
  {
    if o.Some? {
      var j: nat :| LatestAt(acts[..k], k, o.value, j);
      forall m | j < m < k ensures !StartsOrchestration(acts[m]) {
        assert acts[..k][m] == acts[m];
      }
      assert LatestAt(acts, k, o.value, j);
    } else {
      forall j | 0 <= j < k ensures !StartsOrchestration(acts[j]) {
        assert acts[..k][j] == acts[j];
      }
    }
  }

  /** `x` is stored under the stored root that act `j`, the last such act before act `k`, started. */
  predicate HangsUnder(rows: seq<Span>, acts: seq<Act>, k: nat, x: Span, root: Span, j: nat)
    requires k <= |acts|
  {
    x in rows && root in rows && x.parent == Some(root.id) && root.parent == None && LatestAt(acts, k, root.id, j)
  }

  /**
   * Once a persist call has gone through with nothing lost, every span of an inner kind that was started under an
   * orchestration span is stored, and its parent is a stored root.
   */
  lemma StoredSpansHaveRoots(t: Tables, acts: seq<Act>, last: Act, k: nat)
    requires DistinctIds(t.spans) && FreshActs(Begin(t), acts)
    requires var s := DoAll(Begin(t), acts); FreshAct(s, last) && last.PersistAct? && !Refused(s, last)
    requires DoAll(Begin(t), acts).lost == {}
    requires k < |acts| && acts[k].StartAct?
    requires acts[k].kind in {TransitionSpan, ToolExecution, ContextBuild, AgentReasoning, Replay, ApprovalSpan}
    requires exists j | 0 <= j < k :: StartsOrchestration(acts[j])
    ensures var s := Do(DoAll(Begin(t), acts), last);
            exists x: Span, root: Span, j: nat :: x.id == acts[k].id && HangsUnder(s.t.spans, acts, k, x, root, j)
  {
    hide FreshAct, PersistSpec, FreshActs, DoAll, Starts, Delivered, Do, LatestAt, Latest, Refused, DistinctIds;
    var mid := DoAll(Begin(t), acts);
    BeginDelivered(t);
    ActsDeliver(Begin(t), acts);
    StartedStored(mid, last);
    ParentIsLatestOrchestration(t, acts, k);
    var x := mid.started[Starts(acts[..k])];
    var j := SomeLatest(acts, k, x.parent);
    ParentIsLatestOrchestration(t, acts, j);
    var root := mid.started[Starts(acts[..j])];
    assert x in mid.started && root in mid.started;
    assert HangsUnder(Do(mid, last).t.spans, acts, k, x, root, j);
  }

  lemma SomeLatest(acts: seq<Act>, k: nat, o: Option<string>) returns (j: nat)
    requires k <= |acts| && Latest(acts, k, o) && exists m | 0 <= m < k :: StartsOrchestration(acts[m])
    ensures o.Some? && LatestAt(acts, k, o.value, j) && j < k && acts[j] == StartAct(Orchestration, o.value)
  {
    j :| LatestAt(acts, k, o.value, j);
  }

  /** A persist call that goes through leaves every span that was not lost in the store, as it was started. */
  lemma StartedStored(s: Trace, last: Act)
    requires Delivered(s) && FreshAct(s, last) && last.PersistAct? && !Refused(s, last)
    ensures forall x | x in s.started && x.id !in s.lost :: x in Do(s, last).t.spans
  {
    hide FreshAct, PersistSpec;
    StepDelivers(s, last);
  }
}
