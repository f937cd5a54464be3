/**
 * core/approval_service.py and core/governance_store.py: frozen proposals, their bindings, and executions
 * of approvals interleaved with each other and with tampering of the stored proposals.
 */
module Approvals {
  import opened Wrappers
  import opened Json
  import opened Canonical
  import opened Persistence

  datatype Status = Pending | Approved | Rejected | Expired

  /** `ImmutableActionProposal`; times are seconds. */
  datatype Proposal = Proposal(id: string, correlation: string, task: string, agent: string, action: string,
                               parameters: seq<PyItem>, sideEffectLevel: string, impact: string, proposedBy: string,
                               approvalLevel: int, expiresAt: int, checksum: Digest)

  datatype Binding = Binding(toolName: string, actionHash: Digest, parametersHash: Digest)

  datatype Approval = Approval(proposal: Option<Proposal>, binding: Option<Binding>, status: Status)

  /** One call of `execute_tool` for an approval. */
  datatype ToolRun = ToolRun(approval: string, action: string, agent: string, parameters: seq<PyItem>)

  /** `model_dump(mode="json", exclude={"checksum"})`. */
  function Dump(p: Proposal): seq<PyItem> {
    [PyItem("id", Txt(p.id)), PyItem("correlation_id", Txt(p.correlation)), PyItem("task_id", Txt(p.task)),
     PyItem("agent", Txt(p.agent)), PyItem("action", Txt(p.action)), PyItem("parameters", PyDict(p.parameters)),
     PyItem("side_effect_level", Txt(p.sideEffectLevel)), PyItem("impact_summary", Txt(p.impact)),
     PyItem("proposed_by", Txt(p.proposedBy)), PyItem("approval_level", PyScalar(Int(p.approvalLevel))),
     PyItem("expires_at", PyScalar(Int(p.expiresAt)))]
  }

  /** `proposal_checksum`. */
  function Checksum(p: Proposal): Digest { StableHash(PyDict(Dump(p))) }

  /** `create_immutable_proposal`, given everything but the checksum. */
  function Signed(p: Proposal): Proposal { p.(checksum := Checksum(p)) }

  function ActionParts(p: Proposal): seq<PyItem> { [PyItem("action", Txt(p.action)), PyItem("agent", Txt(p.agent))] }

  function ActionHash(p: Proposal): Digest { StableHash(PyDict(ActionParts(p))) }

  function ParametersHash(p: Proposal): Digest { StableHash(PyDict(p.parameters)) }

  /** `build_approval_binding`. */
  function BuildBinding(p: Proposal): Binding { Binding(p.action, ActionHash(p), ParametersHash(p)) }

  predicate SameParameters(xs: seq<PyItem>, ys: seq<PyItem>) {
    Normalize(PyDict(xs), true) == Normalize(PyDict(ys), true)
  }

  /** Action and agent as prepared, and the parameters as prepared up to volatile keys and dict order. */
  predicate SameAction(p: Proposal, q: Proposal) {
    p.action == q.action && p.agent == q.agent && SameParameters(p.parameters, q.parameters)
  }

  /** `_validate_binding`. */
  predicate BindingValid(frozen: Proposal, binding: Option<Binding>) {
    && binding.Some?
    && binding.value.actionHash == ActionHash(frozen)
    && binding.value.parametersHash == ParametersHash(frozen)
    && binding.value.toolName == frozen.action
  }

  /** The prepared binding admits exactly the proposals that ask for the same action. */
  lemma BindingExact(frozen: Proposal, prepared: Proposal)
    ensures BindingValid(frozen, Some(BuildBinding(prepared))) <==> SameAction(frozen, prepared)
  {
    hide StableHash, Normalize;
    var xs, ys := ActionParts(frozen), ActionParts(prepared);
    if ActionHash(frozen) == ActionHash(prepared) {
      SameHashSameMember(xs, ys, 0);
      SameHashSameMember(xs, ys, 1);
      TextForms(frozen.action, prepared.action);
      TextForms(frozen.agent, prepared.agent);
    }
    if ParametersHash(frozen) == ParametersHash(prepared) {
      SameHashSameTree(PyDict(frozen.parameters), PyDict(prepared.parameters));
    }
    if SameParameters(frozen.parameters, prepared.parameters) {
      SameTreeSameHash(PyDict(frozen.parameters), PyDict(prepared.parameters));
    }
  }

  lemma TextForms(a: string, b: string)
    ensures Normalize(Txt(a), true) == Normalize(Txt(b), true) <==> a == b
  {
  }

  // ---- What the checksum sees ---------------------------------------------

  /** Every field as frozen, the parameters up to volatile keys and dict order. */
  predicate SameFrozen(p: Proposal, q: Proposal) {
    && p.id == q.id && p.correlation == q.correlation && p.task == q.task && p.agent == q.agent
    && p.action == q.action && SameParameters(p.parameters, q.parameters)
    && p.sideEffectLevel == q.sideEffectLevel && p.impact == q.impact && p.proposedBy == q.proposedBy
    && p.approvalLevel == q.approvalLevel && p.expiresAt == q.expiresAt
  }

  lemma DumpDistinct(p: Proposal)
    ensures DistinctItems(Dump(p))
    ensures forall k | 0 <= k < 11 :: Dump(p)[k].key !in VOLATILE_KEYS
  {
    hide Txt;
  }

  predicate SameMember(p: Proposal, q: Proposal, k: nat)
    requires k < 11
  {
    Normalize(Dump(p)[k].val, true) == Normalize(Dump(q)[k].val, true)
  }

  lemma SameDumpMembers(p: Proposal, q: Proposal)
    requires Checksum(p) == Checksum(q)
    ensures forall k | 0 <= k < 11 :: SameMember(p, q, k)
  {
    hide StableHash, Normalize, Dump, DistinctItems;
    DumpDistinct(p);
    DumpDistinct(q);
    SameDumpKeys(p, q);
    forall k | 0 <= k < 11 ensures SameMember(p, q, k) {
      SameHashSameMember(Dump(p), Dump(q), k);
    }
  }

  lemma SameDumpKeys(p: Proposal, q: Proposal)
    ensures |Dump(p)| == |Dump(q)| == 11 && forall k | 0 <= k < 11 :: Dump(p)[k].key == Dump(q)[k].key
  {
  }

  lemma NumberForms(a: int, b: int)
    ensures Normalize(PyScalar(Int(a)), true) == Normalize(PyScalar(Int(b)), true) <==> a == b
  {
  }

  /** Equal normal forms of the dumped members are equal fields. */
  lemma SameMembersSameFields(p: Proposal, q: Proposal)
    ensures (forall k | 0 <= k < 11 :: SameMember(p, q, k))
            <==> SameFrozen(p, q)
  {
    hide Normalize, Txt;
    TextForms(p.id, q.id);
    TextForms(p.correlation, q.correlation);
    TextForms(p.task, q.task);
    TextForms(p.agent, q.agent);
    TextForms(p.action, q.action);
    TextForms(p.sideEffectLevel, q.sideEffectLevel);
    TextForms(p.impact, q.impact);
    TextForms(p.proposedBy, q.proposedBy);
    NumberForms(p.approvalLevel, q.approvalLevel);
    NumberForms(p.expiresAt, q.expiresAt);
    if forall k | 0 <= k < 11 :: SameMember(p, q, k) {
      assert SameMember(p, q, 0) && SameMember(p, q, 1) && SameMember(p, q, 2) && SameMember(p, q, 3);
      assert SameMember(p, q, 4) && SameMember(p, q, 5) && SameMember(p, q, 6) && SameMember(p, q, 7);
      assert SameMember(p, q, 8) && SameMember(p, q, 9) && SameMember(p, q, 10);
    }
  }

  /** Two proposals have one checksum exactly when every frozen field is the same. */
  lemma ChecksumExact(p: Proposal, q: Proposal)
    ensures Checksum(p) == Checksum(q) <==> SameFrozen(p, q)
  {
    hide StableHash, Normalize, Dump, SameFrozen;
    SameMembersSameFields(p, q);
    if Checksum(p) == Checksum(q) {
      SameDumpMembers(p, q);
    }
    if SameFrozen(p, q) {
      SameDumpKeys(p, q);
      forall k | 0 <= k < 11 ensures Normalize(Dump(p)[k].val, true) == Normalize(Dump(q)[k].val, true) {
        assert SameMember(p, q, k);
      }
      SameMembersSameHash(Dump(p), Dump(q));
    }
  }

  /** `stored` was changed after `original` was signed, and kept its checksum. */
  predicate Forged(original: Proposal, stored: Proposal) {
    original == Signed(original) && stored.checksum == original.checksum && !SameFrozen(stored, original)
  }

  lemma ForgedChecksum(original: Proposal, stored: Proposal)
    requires Forged(original, stored)
    ensures stored.checksum != Checksum(stored)
  {
    hide Checksum, SameFrozen;
    ChecksumExact(stored, original);
  }

  lemma SameTreeSameHash(a: Py, b: Py)
    requires Normalize(a, true) == Normalize(b, true)
    ensures StableHash(a) == StableHash(b)
  {
  }

  /** Whatever is done to volatile parameters, at any depth, passes: the binding does not see them. */
  lemma VolatileTamperingPasses(prepared: Proposal, tampered: Proposal)
    requires tampered.action == prepared.action && tampered.agent == prepared.agent
    requires WithoutVolatile(PyDict(tampered.parameters)) == WithoutVolatile(PyDict(prepared.parameters))
    ensures BindingValid(tampered, Some(BuildBinding(prepared)))
  {
    VolatileUnseen(PyDict(tampered.parameters));
    VolatileUnseen(PyDict(prepared.parameters));
    BindingExact(tampered, prepared);
  }

  /** So every proposal can be given forged parameters that pass, such as any value under any volatile key. */
  lemma EveryProposalForgeable(prepared: Proposal, key: string, forged: Py)
    requires key in VOLATILE_KEYS
    ensures var tampered := prepared.(parameters := prepared.parameters + [PyItem(key, forged)]);
            BindingValid(tampered, Some(BuildBinding(prepared))) && tampered.parameters != prepared.parameters
  {
    var item := [PyItem(key, forged)];
    KeptConcat(prepared.parameters, item);
    assert item[1..] == [] && KeptItems(item) == [];
    assert KeptItems(prepared.parameters) + [] == KeptItems(prepared.parameters);
    VolatileTamperingPasses(prepared, prepared.(parameters := prepared.parameters + item));
    assert |prepared.parameters + item| == |prepared.parameters| + 1;
  }

  datatype Verdict = Refuse | Expire | Go

  /** What `execute_approved_action` decides before it calls the tool. */
  function Check(a: Approval, now: int): Verdict {
    if a.proposal.None? || a.proposal.value.checksum != Checksum(a.proposal.value)
       || !BindingValid(a.proposal.value, a.binding) then Refuse
    else if now > a.proposal.value.expiresAt then Expire
    else Go
  }

  predicate Executable(approvals: map<string, Approval>, id: string) {
    id in approvals && approvals[id].status == Pending
  }

  function RunOf(id: string, p: Proposal): ToolRun { ToolRun(id, p.action, p.agent, p.parameters) }

  function WithStatus(approvals: map<string, Approval>, id: string, status: Status): map<string, Approval> {
    if id in approvals then approvals[id := approvals[id].(status := status)] else approvals
  }

  /** What `prepare_approval` stored for `p`. */
  predicate AsPrepared(a: Approval, p: Proposal) {
    a == Approval(Some(p), Some(BuildBinding(p)), Pending) && p == Signed(p)
  }

  lemma PreparedIsBound(p: Proposal)
    ensures BindingValid(p, Some(BuildBinding(p)))
  {
  }

  /** One process, nothing interleaved. */
  class ApprovalService {
    var approvals: map<string, Approval>
    var runs: seq<ToolRun>

    constructor ()
      ensures approvals == map[] && runs == []
    {
      approvals, runs := map[], [];
    }

    /** `prepare_approval`; `id` is a fresh uuid, and false is "Proposal checksum invalid". */
    method PrepareApproval(p: Proposal, id: string) returns (ok: bool)
      modifies this`approvals
      ensures ok == (p.checksum == Checksum(p))
      ensures approvals == if ok then old(approvals)[id := Approval(Some(p), Some(BuildBinding(p)), Pending)]
          else old(approvals)
      ensures p == Signed(p) ==> ok
      ensures (exists original :: Forged(original, p)) ==> !ok
    {
      hide Checksum, BuildBinding, SameFrozen;
      forall original | Forged(original, p) ensures p.checksum != Checksum(p) {
        ForgedChecksum(original, p);
      }
      if p.checksum != Checksum(p) {
        return false;
      }
      approvals := approvals[id := Approval(Some(p), Some(BuildBinding(p)), Pending)];
      return true;
    }

    method UpdateApprovalStatus(id: string, status: Status)
      modifies this`approvals
      ensures approvals == WithStatus(old(approvals), id, status)
    {
      if id !in approvals {
        return;
      }
      var approval := approvals[id];
      approvals := approvals[id := approval.(status := status)];
    }

    /**
     * `execute_approved_action_in_session` when the lock is free; false is any of its errors. Besides its exact
     * condition: an approval that is not pending, or whose proposal was changed under its checksum, is refused and
     * changes nothing, and an approval as prepared runs its action up to its expiry and expires after it.
     */
    method ExecuteApprovedAction(id: string, now: int) returns (ok: bool)
      modifies this
      ensures id !in old(approvals) || old(approvals)[id].status != Pending ==>
                !ok && runs == old(runs) && approvals == old(approvals)
      ensures id in old(approvals) && (exists original, stored ::
                Forged(original, stored) && old(approvals)[id].proposal == Some(stored)) ==>
                !ok && runs == old(runs) && approvals == old(approvals)
      ensures forall p | id in old(approvals) && AsPrepared(old(approvals)[id], p) ::
                ok == (now <= p.expiresAt)
                && runs == (if ok then old(runs) + [ToolRun(id, p.action, p.agent, p.parameters)] else old(runs))
                && approvals == old(approvals)[id := old(approvals)[id].(status := if ok then Approved else Expired)]
      ensures ok <==> Executable(old(approvals), id) && Check(old(approvals)[id], now) == Go
      ensures ok ==> runs == old(runs) + [RunOf(id, old(approvals)[id].proposal.value)]
      ensures ok ==> approvals == WithStatus(old(approvals), id, Approved)
      ensures !ok ==> runs == old(runs)
      ensures !ok ==> approvals == (if Executable(old(approvals), id) && Check(old(approvals)[id], now) == Expire
                                    then WithStatus(old(approvals), id, Expired) else old(approvals))
    {
      hide Checksum, BindingValid, BuildBinding, SameFrozen;
      if id !in approvals || approvals[id].status != Pending {
        return false;
      }
      var approval := approvals[id];
      forall original, stored | Forged(original, stored) && approval.proposal == Some(stored)
        ensures stored.checksum != Checksum(stored)
      {
        ForgedChecksum(original, stored);
      }
      forall p | AsPrepared(approval, p) ensures BindingValid(p, approval.binding) {
        PreparedIsBound(p);
      }
      if approval.proposal.None? {
        return false;
      }
      var frozen := approval.proposal.value;
      if frozen.checksum != Checksum(frozen) {
        return false;
      }
      if !BindingValid(frozen, approval.binding) {
        return false;
      }
      if now > frozen.expiresAt {
        UpdateApprovalStatus(id, Expired);
        return false;
      }
      runs := runs + [RunOf(id, frozen)];
      UpdateApprovalStatus(id, Approved);
      return true;
    }
  }

  // ---- Interleavings ------------------------------------------------------

  datatype Phase = Idle | Locked | Loaded(copy: Approval) | Running | Over

  /** One call of `execute_approved_action_in_session`; `sid` is what it locks. */
  datatype Task = Task(approval: string, sid: string, phase: Phase)

  /** `prepared` remembers what was prepared; no program variable holds it. */
  datatype World = World(approvals: map<string, Approval>, locks: set<string>, tasks: seq<Task>, runs: seq<ToolRun>,
                         prepared: map<string, Proposal>)

  datatype Move =
    | Prepare(id: string, p: Proposal)
    | Tamper(id: string, forged: Option<Proposal>)
    | Lock(i: nat)
    | Load(i: nat)
    | Execute(i: nat, now: int)
    | Finish(i: nat)
    | Crash(i: nat)

  predicate CanMove(s: World, m: Move) {
    match m
    case Prepare(id, p) => id !in s.approvals && p.checksum == Checksum(p)
    case Tamper(id, _) => id in s.approvals
    case Lock(i) => i < |s.tasks| && s.tasks[i].phase == Idle
    case Load(i) => i < |s.tasks| && s.tasks[i].phase == Locked
    case Execute(i, _) => i < |s.tasks| && s.tasks[i].phase.Loaded?
    case Finish(i) => i < |s.tasks| && s.tasks[i].phase == Running
    case Crash(i) => i < |s.tasks| && s.tasks[i].phase == Running
  }

  function Release(s: World, i: nat): World
    requires i < |s.tasks|
  {
    s.(tasks := s.tasks[i := s.tasks[i].(phase := Over)], locks := s.locks - {s.tasks[i].sid})
  }

  /** Execute checks the loaded copy and calls the tool without awaiting; Finish comes after the tool. */
  function Do(s: World, m: Move): World
    requires CanMove(s, m)
  {
    match m
    case Prepare(id, p) =>
      s.(approvals := s.approvals[id := Approval(Some(p), Some(BuildBinding(p)), Pending)],
          prepared := s.prepared[id := p])
    case Tamper(id, forged) => s.(approvals := s.approvals[id := s.approvals[id].(proposal := forged)])
    case Lock(i) =>
      var t := s.tasks[i];
      if t.sid in s.locks then s.(tasks := s.tasks[i := t.(phase := Over)])
      else s.(tasks := s.tasks[i := t.(phase := Locked)], locks := s.locks + {t.sid})
    case Load(i) =>
      var t := s.tasks[i];
      if t.approval !in s.approvals || s.approvals[t.approval].status != Pending then Release(s, i)
      else s.(tasks := s.tasks[i := t.(phase := Loaded(s.approvals[t.approval]))])
    case Execute(i, now) =>
      var t := s.tasks[i];
      (match Check(t.phase.copy, now)
       case Refuse => Release(s, i)
       case Expire => Release(s.(approvals := WithStatus(s.approvals, t.approval, Expired)), i)
       case Go => s.(tasks := s.tasks[i := t.(phase := Running)],
                     runs := s.runs + [RunOf(t.approval, t.phase.copy.proposal.value)]))
    case Finish(i) => Release(s.(approvals := WithStatus(s.approvals, s.tasks[i].approval, Approved)), i)
    case Crash(i) => Release(s, i)
  }

  predicate CanRun(s: World, ms: seq<Move>)
    decreases ms
  {
    ms == [] || (CanMove(s, ms[0]) && CanRun(Do(s, ms[0]), ms[1..]))
  }

  function Run(s: World, ms: seq<Move>): World
    requires CanRun(s, ms)
    decreases ms
  {
    if ms == [] then s else Run(Do(s, ms[0]), ms[1..])
  }

  predicate NoCrash(ms: seq<Move>) { forall k | 0 <= k < |ms| :: !ms[k].Crash? }

  function CountRuns(runs: seq<ToolRun>, id: string): nat {
    if runs == [] then 0
    else CountRuns(runs[..|runs| - 1], id) + if runs[|runs| - 1].approval == id then 1 else 0
  }

  // ---- Invariant ----------------------------------------------------------

  predicate Active(t: Task) { t.phase.Locked? || t.phase.Loaded? || t.phase.Running? }

  /** Every execute of an approval locks the same session id. */
  predicate OneLockEach(tasks: seq<Task>) {
    forall i, j | 0 <= i < j < |tasks| && tasks[i].approval == tasks[j].approval :: tasks[i].sid == tasks[j].sid
  }

  predicate Exclusive(s: World) {
    && (forall i | 0 <= i < |s.tasks| && Active(s.tasks[i]) :: s.tasks[i].sid in s.locks)
    && (forall i, j | 0 <= i < j < |s.tasks| && Active(s.tasks[i]) && Active(s.tasks[j]) ::
        s.tasks[i].sid != s.tasks[j].sid)
  }

  predicate Bound(s: World) {
    && (forall id | id in s.approvals ::
          id in s.prepared && s.approvals[id].binding == Some(BuildBinding(s.prepared[id])))
    && (forall k | 0 <= k < |s.runs| :: RunAsPrepared(s, s.runs[k]))
  }

  predicate RunAsPrepared(s: World, r: ToolRun) {
    && r.approval in s.prepared && r.approval in s.approvals
    && r.action == s.prepared[r.approval].action && r.agent == s.prepared[r.approval].agent
    && SameParameters(r.parameters, s.prepared[r.approval].parameters)
  }

  predicate TaskOk(s: World, t: Task) {
    match t.phase
    case Loaded(copy) =>
      && t.approval in s.approvals && s.approvals[t.approval].status == Pending
      && copy.binding == s.approvals[t.approval].binding && CountRuns(s.runs, t.approval) == 0
    case Running =>
      t.approval in s.approvals && s.approvals[t.approval].status == Pending && CountRuns(s.runs, t.approval) == 1
    case _ => true
  }

  predicate RunningOn(tasks: seq<Task>, id: string) {
    exists i | 0 <= i < |tasks| :: tasks[i].phase == Running && tasks[i].approval == id
  }

  ghost predicate Once(s: World) {
    forall id: string ::
      && CountRuns(s.runs, id) <= 1
      && (id in s.approvals && s.approvals[id].status == Pending && !RunningOn(s.tasks, id) ==>
          CountRuns(s.runs, id) == 0)
      && (id !in s.approvals ==> CountRuns(s.runs, id) == 0)
  }

  ghost predicate Inv(s: World) {
    && OneLockEach(s.tasks) && Exclusive(s) && Bound(s) && Once(s)
    && forall i | 0 <= i < |s.tasks| :: TaskOk(s, s.tasks[i])
  }

  predicate Initial(s: World) {
    && s.approvals == map[] && s.prepared == map[] && s.runs == [] && s.locks == {}
    && forall t | t in s.tasks :: t.phase == Idle
  }

  lemma InitialInv(s: World)
    requires Initial(s) && OneLockEach(s.tasks)
    ensures Inv(s)
  {
    forall i | 0 <= i < |s.tasks| ensures s.tasks[i].phase == Idle {
      assert s.tasks[i] in s.tasks;
    }
  }

  // ---- Every move keeps it ------------------------------------------------

  lemma OnlyActive(s: World, i: nat)
    requires OneLockEach(s.tasks) && Exclusive(s) && i < |s.tasks| && Active(s.tasks[i])
    ensures forall j | 0 <= j < |s.tasks| && j != i && Active(s.tasks[j]) :: s.tasks[j].approval != s.tasks[i].approval
  {
  }

  lemma PrepareKeeps(s: World, id: string, p: Proposal)
    requires Inv(s) && CanMove(s, Prepare(id, p))
    ensures Inv(Do(s, Prepare(id, p)))
  {
    hide BuildBinding, Checksum, SameParameters, CountRuns;
    var u := Do(s, Prepare(id, p));
    forall k | 0 <= k < |u.runs| ensures RunAsPrepared(u, u.runs[k]) {
      assert RunAsPrepared(s, s.runs[k]);
    }
    forall i | 0 <= i < |u.tasks| ensures TaskOk(u, u.tasks[i]) {
      assert TaskOk(s, s.tasks[i]);
    }
  }

  lemma TamperKeeps(s: World, id: string, p: Option<Proposal>)
    requires Inv(s) && CanMove(s, Tamper(id, p))
    ensures Inv(Do(s, Tamper(id, p)))
  {
    hide BuildBinding, Checksum, SameParameters, CountRuns;
    var u := Do(s, Tamper(id, p));
    forall k | 0 <= k < |u.runs| ensures RunAsPrepared(u, u.runs[k]) {
      assert RunAsPrepared(s, s.runs[k]);
    }
    forall i | 0 <= i < |u.tasks| ensures TaskOk(u, u.tasks[i]) {
      assert TaskOk(s, s.tasks[i]);
    }
  }

  lemma LockKeeps(s: World, i: nat)
    requires Inv(s) && CanMove(s, Lock(i))
    ensures Inv(Do(s, Lock(i)))
  {
    hide BuildBinding, SameParameters, CountRuns, Bound;
    var u := Do(s, Lock(i));
    SameRunning(s, u, i);
    BoundStays(s, u);
    forall k | 0 <= k < |u.tasks| ensures TaskOk(u, u.tasks[k]) {
      assert TaskOk(s, s.tasks[k]);
    }
  }

  lemma BoundStays(s: World, u: World)
    requires Bound(s) && u.approvals == s.approvals && u.prepared == s.prepared && u.runs == s.runs
    ensures Bound(u)
  {
    hide BuildBinding, SameParameters;
    forall k | 0 <= k < |u.runs| ensures RunAsPrepared(u, u.runs[k]) {
      assert RunAsPrepared(s, s.runs[k]);
    }
  }

  /** Changing one phase that is not Running, to one that is not, changes who is running on nothing. */
  lemma SameRunning(s: World, u: World, i: nat)
    requires i < |s.tasks| && |u.tasks| == |s.tasks| && !s.tasks[i].phase.Running? && !u.tasks[i].phase.Running?
    requires forall k | 0 <= k < |s.tasks| && k != i :: u.tasks[k] == s.tasks[k]
    ensures forall id :: RunningOn(u.tasks, id) == RunningOn(s.tasks, id)
  {
    forall id ensures RunningOn(u.tasks, id) == RunningOn(s.tasks, id) {
      if RunningOn(s.tasks, id) {
        var k :| 0 <= k < |s.tasks| && s.tasks[k].phase == Running && s.tasks[k].approval == id;
        assert u.tasks[k] == s.tasks[k];
      }
    }
  }

  /** Letting go of the lock at any phase short of Running. */
  lemma ReleaseKeeps(s: World, i: nat)
    requires Inv(s) && i < |s.tasks| && Active(s.tasks[i]) && !s.tasks[i].phase.Running?
    ensures Inv(Release(s, i))
  {
    hide BuildBinding, SameParameters, CountRuns, Bound;
    var u := Release(s, i);
    SameRunning(s, u, i);
    BoundStays(s, u);
    forall k | 0 <= k < |u.tasks| ensures TaskOk(u, u.tasks[k]) {
      assert TaskOk(s, s.tasks[k]);
    }
  }

  lemma LoadKeeps(s: World, i: nat)
    requires Inv(s) && CanMove(s, Load(i))
    ensures Inv(Do(s, Load(i)))
  {
    hide BuildBinding, SameParameters, CountRuns, Bound;
    var id := s.tasks[i].approval;
    if id !in s.approvals || s.approvals[id].status != Pending {
      ReleaseKeeps(s, i);
    } else {
      var u := Do(s, Load(i));
      SameRunning(s, u, i);
      BoundStays(s, u);
      OnlyActive(s, i);
      assert !RunningOn(s.tasks, id);
      forall k | 0 <= k < |u.tasks| ensures TaskOk(u, u.tasks[k]) {
        assert TaskOk(s, s.tasks[k]);
      }
    }
  }

  /** Settling the status of an approval whose only active task is `i`, and releasing it. */
  lemma SettleKeeps(s: World, i: nat, status: Status)
    requires Inv(s) && i < |s.tasks| && (s.tasks[i].phase.Loaded? || s.tasks[i].phase.Running?) && status != Pending
    ensures Inv(Release(s.(approvals := WithStatus(s.approvals, s.tasks[i].approval, status)), i))
  {
    hide BuildBinding, SameParameters, CountRuns, Bound, Once, WithStatus;
    var id := s.tasks[i].approval;
    var u := Release(s.(approvals := WithStatus(s.approvals, id, status)), i);
    OnlyActive(s, i);
    assert TaskOk(s, s.tasks[i]);
    StatusSettled(s.approvals, id, status);
    SettledBound(s, u, id, status);
    SettledOnce(s, u, i, status);
    forall k | 0 <= k < |u.tasks| ensures TaskOk(u, u.tasks[k]) {
      assert TaskOk(s, s.tasks[k]);
    }
  }

  lemma StatusSettled(approvals: map<string, Approval>, id: string, status: Status)
    requires id in approvals
    ensures var after := WithStatus(approvals, id, status);
            && after.Keys == approvals.Keys && after[id] == approvals[id].(status := status)
            && forall other | other in approvals && other != id :: after[other] == approvals[other]
  {
  }

  lemma SettledBound(s: World, u: World, id: string, status: Status)
    requires Bound(s) && id in s.approvals && u.approvals == WithStatus(s.approvals, id, status)
    requires u.prepared == s.prepared && u.runs == s.runs
    ensures Bound(u)
  {
    hide BuildBinding, SameParameters;
    forall k | 0 <= k < |u.runs| ensures RunAsPrepared(u, u.runs[k]) {
      assert RunAsPrepared(s, s.runs[k]);
    }
  }

  lemma SettledOnce(s: World, u: World, i: nat, status: Status)
    requires Once(s) && i < |s.tasks| && s.tasks[i].approval in s.approvals && status != Pending && u.runs == s.runs
    requires u.approvals == WithStatus(s.approvals, s.tasks[i].approval, status)
    requires |u.tasks| == |s.tasks| && forall k | 0 <= k < |s.tasks| && k != i :: u.tasks[k] == s.tasks[k]
    ensures Once(u)
  {
    hide CountRuns;
    forall other | other != s.tasks[i].approval && RunningOn(s.tasks, other) ensures RunningOn(u.tasks, other) {
      var k :| 0 <= k < |s.tasks| && s.tasks[k].phase == Running && s.tasks[k].approval == other;
      assert u.tasks[k] == s.tasks[k];
    }
  }

  lemma CountAfter(runs: seq<ToolRun>, r: ToolRun, id: string)
    ensures CountRuns(runs + [r], id) == CountRuns(runs, id) + if r.approval == id then 1 else 0
  {
    assert (runs + [r])[..|runs|] == runs;
  }

  /** Calling the tool: it was never called for this approval, and the copy asks for what was prepared. */
  lemma CallKeeps(s: World, i: nat, now: int)
    requires Inv(s) && CanMove(s, Execute(i, now)) && Check(s.tasks[i].phase.copy, now) == Go
    ensures Inv(Do(s, Execute(i, now)))
  {
    hide BuildBinding, SameParameters, CountRuns, Checksum, BindingValid;
    var t := s.tasks[i];
    var u := Do(s, Execute(i, now));
    var frozen := t.phase.copy.proposal.value;
    assert TaskOk(s, t);
    OnlyActive(s, i);
    BindingExact(frozen, s.prepared[t.approval]);
    forall k | 0 <= k < |u.runs| ensures RunAsPrepared(u, u.runs[k]) {
      if k < |s.runs| {
        assert RunAsPrepared(s, s.runs[k]);
      }
    }
    forall id ensures CountRuns(u.runs, id) == CountRuns(s.runs, id) + if t.approval == id then 1 else 0 {
      CountAfter(s.runs, RunOf(t.approval, frozen), id);
    }
    assert u.tasks[i].phase == Running && RunningOn(u.tasks, t.approval);
    forall other | other != t.approval && RunningOn(s.tasks, other) ensures RunningOn(u.tasks, other) {
      var k :| 0 <= k < |s.tasks| && s.tasks[k].phase == Running && s.tasks[k].approval == other;
      assert u.tasks[k] == s.tasks[k];
    }
    forall k | 0 <= k < |u.tasks| ensures TaskOk(u, u.tasks[k]) {
      assert TaskOk(s, s.tasks[k]);
    }
  }

  lemma MoveKeeps(s: World, m: Move)
    requires Inv(s) && CanMove(s, m) && !m.Crash?
    ensures Inv(Do(s, m))
  {
    hide Inv, Check;
    match m
    case Prepare(id, p) => PrepareKeeps(s, id, p);
    case Tamper(id, p) => TamperKeeps(s, id, p);
    case Lock(i) => LockKeeps(s, i);
    case Load(i) => LoadKeeps(s, i);
    case Finish(i) => SettleKeeps(s, i, Approved);
    case Execute(i, now) =>
      match Check(s.tasks[i].phase.copy, now)
      case Refuse => ReleaseKeeps(s, i);
      case Expire => SettleKeeps(s, i, Expired);
      case Go => CallKeeps(s, i, now);
  }

  lemma {:induction false} RunKeeps(s: World, ms: seq<Move>)
    requires Inv(s) && CanRun(s, ms) && NoCrash(ms)
    ensures Inv(Run(s, ms))
    decreases ms
  {
    hide Inv, Do, CanMove;
    if ms != [] {
      MoveKeeps(s, ms[0]);
      RunKeeps(Do(s, ms[0]), ms[1..]);
    }
  }

  // ---- What every interleaving shows --------------------------------------

  /**
   * When every execute of an approval locks one session id and no exception escapes after the tool call,
   * then over every interleaving, whatever is done to the stored proposals, each approval's tool is called
   * at most once, and only for the prepared action, agent and parameters.
   */
  lemma ToolRunsAtMostOnce(s: World, ms: seq<Move>)
    requires Initial(s) && OneLockEach(s.tasks) && CanRun(s, ms) && NoCrash(ms)
    ensures var u := Run(s, ms);
            && (forall id :: CountRuns(u.runs, id) <= 1)
            && forall k | 0 <= k < |u.runs| :: RunAsPrepared(u, u.runs[k])
  {
    hide Run, CanRun, RunAsPrepared, NoCrash;
    InitialInv(s);
    RunKeeps(s, ms);
  }

  /** Task `i` is waiting to execute the pending approval `id`, which would go through, and its lock is free. */
  predicate Ready(s: World, i: nat, id: string, now: int) {
    && i < |s.tasks| && s.tasks[i].phase == Idle && s.tasks[i].approval == id && s.tasks[i].sid !in s.locks
    && id in s.approvals && s.approvals[id].status == Pending && Check(s.approvals[id], now) == Go
  }

  function WithCopy(s: World, i: nat, id: string): World
    requires i < |s.tasks| && id in s.approvals
  {
    s.(tasks := s.tasks[i := s.tasks[i].(phase := Loaded(s.approvals[id]))], locks := s.locks + {s.tasks[i].sid})
  }

  lemma OneMove(s: World, m: Move)
    requires CanMove(s, m)
    ensures CanRun(s, [m]) && Run(s, [m]) == Do(s, m)
  {
    hide Do, CanMove;
    assert [m][1..] == [];
  }

  lemma LocksAndLoads(s: World, i: nat, id: string, now: int)
    requires Ready(s, i, id, now)
    ensures CanRun(s, [Lock(i), Load(i)]) && Run(s, [Lock(i), Load(i)]) == WithCopy(s, i, id)
  {
    hide Check, Run, CanRun;
    var u := Do(s, Lock(i));
    assert u.tasks[i].phase == Locked;
    OneMove(s, Lock(i));
    OneMove(u, Load(i));
    RunThen(s, [Lock(i)], [Load(i)]);
    assert [Lock(i)] + [Load(i)] == [Lock(i), Load(i)];
    assert Do(u, Load(i)).tasks == WithCopy(s, i, id).tasks;
  }

  lemma CallsTool(s: World, i: nat, now: int)
    requires i < |s.tasks| && s.tasks[i].phase.Loaded? && Check(s.tasks[i].phase.copy, now) == Go
    ensures CanRun(s, [Execute(i, now)])
    ensures Run(s, [Execute(i, now)])
         == s.(tasks := s.tasks[i := s.tasks[i].(phase := Running)],
               runs := s.runs + [RunOf(s.tasks[i].approval, s.tasks[i].phase.copy.proposal.value)])
  {
    hide Checksum, BindingValid, Run, CanRun;
    OneMove(s, Execute(i, now));
  }

  lemma Crashes(s: World, i: nat)
    requires i < |s.tasks| && s.tasks[i].phase == Running
    ensures CanRun(s, [Crash(i)]) && Run(s, [Crash(i)]) == Release(s, i)
  {
    OneMove(s, Crash(i));
  }

  lemma Finishes(s: World, i: nat)
    requires i < |s.tasks| && s.tasks[i].phase == Running
    ensures CanRun(s, [Finish(i)])
    ensures Run(s, [Finish(i)]) == Release(s.(approvals := WithStatus(s.approvals, s.tasks[i].approval, Approved)), i)
  {
    OneMove(s, Finish(i));
  }

  lemma {:induction false} RunThen(s: World, ms: seq<Move>, more: seq<Move>)
    requires CanRun(s, ms) && CanRun(Run(s, ms), more)
    ensures CanRun(s, ms + more) && Run(s, ms + more) == Run(Run(s, ms), more)
    decreases ms
  {
    hide Do, CanMove;
    if ms == [] {
      assert ms + more == more;
    } else {
      assert (ms + more)[1..] == ms[1..] + more;
      RunThen(Do(s, ms[0]), ms[1..], more);
    }
  }

  /** Undisturbed, the steps of one execute do what `ExecuteApprovedAction` does, and free the lock. */
  lemma UndisturbedExecute(s: World, i: nat, id: string, now: int)
    requires Ready(s, i, id, now)
    ensures var ms := [Lock(i), Load(i)] + [Execute(i, now)] + [Finish(i)];
            && CanRun(s, ms) && Run(s, ms).locks == s.locks
            && Run(s, ms).approvals == WithStatus(s.approvals, id, Approved)
            && Run(s, ms).runs == s.runs + [RunOf(id, s.approvals[id].proposal.value)]
  {
    hide Checksum, BindingValid, Run, CanRun;
    var called := [Lock(i), Load(i)] + [Execute(i, now)];
    LocksAndLoads(s, i, id, now);
    CallsTool(Run(s, [Lock(i), Load(i)]), i, now);
    RunThen(s, [Lock(i), Load(i)], [Execute(i, now)]);
    Finishes(Run(s, called), i);
    RunThen(s, called, [Finish(i)]);
  }

  /** Two executes of one approval under different free locks: some interleaving calls the tool twice. */
  lemma TwoLocksTwoRuns(s: World, i: nat, j: nat, id: string, now: int)
    requires Ready(s, i, id, now) && Ready(s, j, id, now) && i != j && s.tasks[i].sid != s.tasks[j].sid
    ensures var ms := [Lock(i), Load(i)] + [Lock(j), Load(j)] + [Execute(i, now)] + [Execute(j, now)];
            NoCrash(ms) && CanRun(s, ms) && CountRuns(Run(s, ms).runs, id) == CountRuns(s.runs, id) + 2
  {
    hide Checksum, BindingValid, CountRuns, Run, CanRun;
    var r := RunOf(id, s.approvals[id].proposal.value);
    var first, second := [Lock(i), Load(i)], [Lock(j), Load(j)];
    LocksAndLoads(s, i, id, now);
    LocksAndLoads(Run(s, first), j, id, now);
    RunThen(s, first, second);
    CallsTool(Run(s, first + second), i, now);
    RunThen(s, first + second, [Execute(i, now)]);
    CallsTool(Run(s, first + second + [Execute(i, now)]), j, now);
    RunThen(s, first + second + [Execute(i, now)], [Execute(j, now)]);
    CountAfter(s.runs, r, id);
    CountAfter(s.runs + [r], r, id);
  }

  /** An exception after the tool call leaves the approval PENDING: the next execute calls the tool again. */
  lemma CrashRunsAgain(s: World, i: nat, j: nat, id: string, now: int)
    requires Ready(s, i, id, now) && Ready(s, j, id, now) && i != j
    ensures var ms := [Lock(i), Load(i)] + [Execute(i, now)] + [Crash(i)] + [Lock(j), Load(j)] + [Execute(j, now)];
            CanRun(s, ms) && CountRuns(Run(s, ms).runs, id) == CountRuns(s.runs, id) + 2
  {
    hide Checksum, BindingValid, CountRuns, Run, CanRun;
    var r := RunOf(id, s.approvals[id].proposal.value);
    var called := [Lock(i), Load(i)] + [Execute(i, now)];
    LocksAndLoads(s, i, id, now);
    CallsTool(Run(s, [Lock(i), Load(i)]), i, now);
    RunThen(s, [Lock(i), Load(i)], [Execute(i, now)]);
    Crashes(Run(s, called), i);
    RunThen(s, called, [Crash(i)]);
    LocksAndLoads(Run(s, called + [Crash(i)]), j, id, now);
    RunThen(s, called + [Crash(i)], [Lock(j), Load(j)]);
    CallsTool(Run(s, called + [Crash(i)] + [Lock(j), Load(j)]), j, now);
    RunThen(s, called + [Crash(i)] + [Lock(j), Load(j)], [Execute(j, now)]);
    CountAfter(s.runs, r, id);
    CountAfter(s.runs + [r], r, id);
  }
}
