/**
 * core/approval_service.py under every interleaving: exactly which sets of executes keep the tool to one call,
 * with and without exceptions after the call, and the status to one change.
 */
module ApprovalRaces {
  import opened Wrappers
  import opened Json
  import opened Canonical
  import opened Persistence
  import opened Approvals

  // ---- The call is always the prepared one --------------------------------

  /** Stored bindings and loaded copies carry the prepared binding, and every call was as prepared. */
  predicate Genuine(s: World) {
    Bound(s) && forall i | 0 <= i < |s.tasks| :: GenuineCopy(s, s.tasks[i])
  }

  predicate GenuineCopy(s: World, t: Task) {
    t.phase.Loaded? ==>
      && t.approval in s.prepared && t.approval in s.approvals
      && t.phase.copy.binding == Some(BuildBinding(s.prepared[t.approval]))
  }

  lemma GenuineMove(s: World, m: Move)
    requires Genuine(s) && CanMove(s, m)
    ensures Genuine(Do(s, m))
  {
    hide BuildBinding, SameParameters, Checksum, Check;
    var u := Do(s, m);
    if m.Execute? && Check(s.tasks[m.i].phase.copy, m.now) == Go {
      GenuineCall(s, m.i, m.now);
    } else {
      forall k | 0 <= k < |u.runs| ensures RunAsPrepared(u, u.runs[k]) {
        assert RunAsPrepared(s, s.runs[k]);
      }
      forall i | 0 <= i < |u.tasks| ensures GenuineCopy(u, u.tasks[i]) {
        assert GenuineCopy(s, s.tasks[i]);
      }
    }
  }

  lemma GenuineCall(s: World, i: nat, now: int)
    requires Genuine(s) && CanMove(s, Execute(i, now)) && Check(s.tasks[i].phase.copy, now) == Go
    ensures Genuine(Do(s, Execute(i, now)))
  {
    hide BuildBinding, SameParameters, Checksum, BindingValid;
    var u, t := Do(s, Execute(i, now)), s.tasks[i];
    assert GenuineCopy(s, t);
    BindingExact(t.phase.copy.proposal.value, s.prepared[t.approval]);
    forall k | 0 <= k < |u.runs| ensures RunAsPrepared(u, u.runs[k]) {
      if k < |s.runs| {
        assert RunAsPrepared(s, s.runs[k]);
      }
    }
    forall k | 0 <= k < |u.tasks| ensures GenuineCopy(u, u.tasks[k]) {
      assert GenuineCopy(s, s.tasks[k]);
    }
  }

  lemma {:induction false} GenuineRun(s: World, ms: seq<Move>)
    requires Genuine(s) && CanRun(s, ms)
    ensures Genuine(Run(s, ms))
    decreases ms
  {
    hide Genuine, Do, CanMove;
    if ms != [] {
      GenuineMove(s, ms[0]);
      GenuineRun(Do(s, ms[0]), ms[1..]);
    }
  }

  /** Whatever locks are used, whoever crashes and whatever is tampered with, only prepared actions are called. */
  lemma CallsAsPrepared(s: World, ms: seq<Move>)
    requires Initial(s) && CanRun(s, ms)
    ensures var u := Run(s, ms); forall k | 0 <= k < |u.runs| :: RunAsPrepared(u, u.runs[k])
  {
    hide Run, CanRun, RunAsPrepared;
    forall i | 0 <= i < |s.tasks| ensures GenuineCopy(s, s.tasks[i]) {
      assert s.tasks[i] in s.tasks;
    }
    GenuineRun(s, ms);
  }

  // ---- A changed proposal ---------------------------------------------------

  /**
   * A stored proposal that is changed under its checksum, or lost, stops the next execute: it calls nothing, frees its
   * lock and leaves the approval pending.
   */
  lemma TamperedIsRefused(s: World, i: nat, id: string, now: int, p: Proposal, forged: Option<Proposal>)
    requires Ready(s, i, id, now) && AsPrepared(s.approvals[id], p)
    requires forged.None? || Forged(p, forged.value)
    ensures var ms := [Tamper(id, forged)] + [Lock(i), Load(i)] + [Execute(i, now)];
            && CanRun(s, ms) && Run(s, ms).runs == s.runs && Run(s, ms).locks == s.locks
            && Run(s, ms).approvals == s.approvals[id := s.approvals[id].(proposal := forged)]
  {
    hide Run, CanRun, Checksum, BindingValid, SameFrozen;
    var stored := s.approvals[id].(proposal := forged);
    var u := Do(s, Tamper(id, forged));
    if forged.Some? {
      ForgedChecksum(p, forged.value);
    }
    OneMove(s, Tamper(id, forged));
    LoadsPending(u, i, id);
    RunThen(s, [Tamper(id, forged)], [Lock(i), Load(i)]);
    var v := WithCopy(u, i, id);
    OneMove(v, Execute(i, now));
    RunThen(s, [Tamper(id, forged)] + [Lock(i), Load(i)], [Execute(i, now)]);
    assert Check(stored, now) == Refuse;
  }

  /** Lock and load of a pending approval whose lock is free. */
  lemma LoadsPending(s: World, i: nat, id: string)
    requires i < |s.tasks| && s.tasks[i].phase == Idle && s.tasks[i].approval == id && s.tasks[i].sid !in s.locks
    requires id in s.approvals && s.approvals[id].status == Pending
    ensures CanRun(s, [Lock(i), Load(i)]) && Run(s, [Lock(i), Load(i)]) == WithCopy(s, i, id)
  {
    hide Run, CanRun;
    var u := Do(s, Lock(i));
    assert u.tasks[i].phase == Locked;
    OneMove(s, Lock(i));
    OneMove(u, Load(i));
    RunThen(s, [Lock(i)], [Load(i)]);
    assert [Lock(i)] + [Load(i)] == [Lock(i), Load(i)];
    assert Do(u, Load(i)).tasks == WithCopy(s, i, id).tasks;
  }

  // ---- The call is never late ---------------------------------------------

  /** A tampering that leaves the prepared checksum where it was. */
  predicate KeepsChecksum(s: World, m: Move) {
    m.Tamper? && m.forged.Some? ==> m.id in s.prepared && m.forged.value.checksum == s.prepared[m.id].checksum
  }

  predicate KeepChecksums(s: World, ms: seq<Move>)
    requires CanRun(s, ms)
    decreases ms
  {
    ms == [] || (KeepsChecksum(s, ms[0]) && KeepChecksums(Do(s, ms[0]), ms[1..]))
  }

  predicate SignedLike(s: World, id: string, p: Option<Proposal>) {
    && id in s.prepared && s.prepared[id] == Signed(s.prepared[id])
    && (p.Some? ==> p.value.checksum == s.prepared[id].checksum)
  }

  predicate StoredSigned(s: World) {
    && s.prepared.Keys == s.approvals.Keys
    && forall id | id in s.approvals :: SignedLike(s, id, s.approvals[id].proposal)
  }

  predicate CopySigned(s: World, t: Task) { t.phase.Loaded? ==> SignedLike(s, t.approval, t.phase.copy.proposal) }

  /** Stored proposals and loaded copies carry the checksum they were prepared with. */
  predicate ChecksumsKept(s: World) {
    StoredSigned(s) && forall i | 0 <= i < |s.tasks| :: CopySigned(s, s.tasks[i])
  }

  lemma PreparedSigned(p: Proposal)
    requires p.checksum == Checksum(p)
    ensures p == Signed(p)
  {
  }

  lemma StoredStaySigned(s: World, m: Move)
    requires StoredSigned(s) && CanMove(s, m) && KeepsChecksum(s, m)
    ensures StoredSigned(Do(s, m))
    ensures forall id | id in s.prepared :: id in Do(s, m).prepared && Do(s, m).prepared[id] == s.prepared[id]
  {
    hide BuildBinding, Signed, Checksum, Check, RunOf;
    if m.Prepare? {
      PreparedSigned(m.p);
    }
  }

  lemma CopiesStaySigned(s: World, m: Move, i: nat)
    requires StoredSigned(s) && CanMove(s, m) && i < |s.tasks| && CopySigned(s, s.tasks[i])
    requires forall id | id in s.prepared :: id in Do(s, m).prepared && Do(s, m).prepared[id] == s.prepared[id]
    ensures |Do(s, m).tasks| == |s.tasks| && CopySigned(Do(s, m), Do(s, m).tasks[i])
  {
    hide BuildBinding, Signed, Checksum, Check, RunOf;
  }

  lemma ChecksumsKeptMove(s: World, m: Move)
    requires ChecksumsKept(s) && CanMove(s, m) && KeepsChecksum(s, m)
    ensures ChecksumsKept(Do(s, m))
  {
    hide Do, CanMove, StoredSigned, CopySigned, KeepsChecksum;
    StoredStaySigned(s, m);
    SameTasks(s, m);
    forall i | 0 <= i < |s.tasks| ensures CopySigned(Do(s, m), Do(s, m).tasks[i]) {
      CopiesStaySigned(s, m, i);
    }
  }

  lemma SameTasks(s: World, m: Move)
    requires CanMove(s, m)
    ensures |Do(s, m).tasks| == |s.tasks|
  {
    hide BuildBinding, Signed, Checksum, Check, RunOf;
  }

  lemma {:induction false} ChecksumsKeptRun(s: World, ms: seq<Move>)
    requires ChecksumsKept(s) && CanRun(s, ms) && KeepChecksums(s, ms)
    ensures ChecksumsKept(Run(s, ms))
    decreases ms
  {
    hide ChecksumsKept, Do, CanMove, KeepsChecksum;
    if ms != [] {
      ChecksumsKeptMove(s, ms[0]);
      ChecksumsKeptRun(Do(s, ms[0]), ms[1..]);
    }
  }

  /**
   * Over every interleaving whose tampering keeps the prepared checksums, a tool is only ever called for the very
   * proposal that was prepared, and not after its expiry.
   */
  lemma CallsInTime(s: World, ms: seq<Move>, i: nat, now: int)
    requires Initial(s) && CanRun(s, ms) && KeepChecksums(s, ms) && CanMove(Run(s, ms), Execute(i, now))
    requires Do(Run(s, ms), Execute(i, now)).runs != Run(s, ms).runs
    ensures var u := Run(s, ms);
            var t := u.tasks[i];
            && t.approval in u.prepared && t.phase.copy.proposal.Some?
            && SameFrozen(t.phase.copy.proposal.value, u.prepared[t.approval])
            && now <= u.prepared[t.approval].expiresAt
  {
    hide Run, CanRun, KeepChecksums, Checksum, SameParameters, BindingValid;
    forall k | 0 <= k < |s.tasks| ensures s.tasks[k].phase == Idle {
      assert s.tasks[k] in s.tasks;
    }
    assert ChecksumsKept(s);
    ChecksumsKeptRun(s, ms);
    var u := Run(s, ms);
    var t := u.tasks[i];
    assert CopySigned(u, t);
    ChecksumExact(t.phase.copy.proposal.value, u.prepared[t.approval]);
  }

  // ---- At most one call ---------------------------------------------------

  ghost predicate AtMostOnce(s: World) { forall id :: CountRuns(s.runs, id) <= 1 }

  ghost predicate OnceWithoutCrashes(s: World) {
    forall ms | CanRun(s, ms) && NoCrash(ms) :: AtMostOnce(Run(s, ms))
  }

  ghost predicate OnceDespiteCrashes(s: World) { forall ms | CanRun(s, ms) :: AtMostOnce(Run(s, ms)) }

  /** A proposal that `prepare_approval` takes and that has not expired at time 0. */
  function SampleProposal(): (p: Proposal)
    ensures p.checksum == Checksum(p) && p.expiresAt == 0
  {
    Signed(Proposal("proposal", "correlation", "task", "ceo", "create_initiative", [], "PLAN", "", "ceo", 1, 0,
                    Sha256("")))
  }

  function AfterPrepare(s: World, id: string): World
    requires id !in s.approvals
  {
    Do(s, Prepare(id, SampleProposal()))
  }

  function PrepareMove(id: string): (m: Move)
    ensures m.Prepare?
  {
    Prepare(id, SampleProposal())
  }

  lemma PrepareMakesReady(s: World, i: nat)
    requires Initial(s) && i < |s.tasks|
    ensures var id := s.tasks[i].approval;
            && id !in s.approvals && AfterPrepare(s, id).tasks == s.tasks
            && CountRuns(AfterPrepare(s, id).runs, id) == 0
            && CanRun(s, [PrepareMove(id)]) && Run(s, [PrepareMove(id)]) == AfterPrepare(s, id)
            && Ready(AfterPrepare(s, id), i, id, 0)
  {
    hide Checksum, SampleProposal, Run, CanRun;
    assert s.tasks[i] in s.tasks;
    OneMove(s, PrepareMove(s.tasks[i].approval));
  }

  /**
   * From the initial state, without exceptions after the call, every interleaving calls each tool at most once
   * if and only if every execute of an approval locks the same session id.
   */
  lemma AtMostOnceExactly(s: World)
    requires Initial(s)
    ensures OnceWithoutCrashes(s) <==> OneLockEach(s.tasks)
  {
    hide Run, CanRun, NoCrash, CountRuns, RunAsPrepared, Ready, Initial;
    if OneLockEach(s.tasks) {
      forall ms | CanRun(s, ms) && NoCrash(ms) ensures AtMostOnce(Run(s, ms)) {
        ToolRunsAtMostOnce(s, ms);
      }
    } else {
      var i, j :| 0 <= i < j < |s.tasks| && s.tasks[i].approval == s.tasks[j].approval
          && s.tasks[i].sid != s.tasks[j].sid;
      TwoCallsPossible(s, i, j);
    }
  }

  lemma TwoCallsPossible(s: World, i: nat, j: nat)
    requires Initial(s) && i < j < |s.tasks| && s.tasks[i].approval == s.tasks[j].approval
    requires s.tasks[i].sid != s.tasks[j].sid
    ensures !OnceWithoutCrashes(s)
  {
    hide Run, CanRun, CountRuns, Ready, AfterPrepare, PrepareMove, Initial;
    var id := s.tasks[i].approval;
    PrepareMakesReady(s, i);
    PrepareMakesReady(s, j);
    TwoLocksTwoRuns(AfterPrepare(s, id), i, j, id, 0);
    var ms := [Lock(i), Load(i)] + [Lock(j), Load(j)] + [Execute(i, 0)] + [Execute(j, 0)];
    RunThen(s, [PrepareMove(id)], ms);
    assert !AtMostOnce(Run(s, [PrepareMove(id)] + ms));
    PrepareIsNoCrash(id, ms);
  }

  lemma PrepareIsNoCrash(id: string, ms: seq<Move>)
    requires NoCrash(ms)
    ensures NoCrash([PrepareMove(id)] + ms)
  {
    hide PrepareMove;
    var all := [PrepareMove(id)] + ms;
    forall k | 0 < k < |all| ensures all[k] == ms[k - 1] {
    }
  }

  /** No two executes are for the same approval. */
  predicate OneExecuteEach(tasks: seq<Task>) {
    forall i, j | 0 <= i < j < |tasks| :: tasks[i].approval != tasks[j].approval
  }

  /** Some execute of the approval has got as far as calling the tool, or is over. */
  predicate Spent(tasks: seq<Task>, id: string) {
    exists i | 0 <= i < |tasks| :: tasks[i].approval == id && (tasks[i].phase.Running? || tasks[i].phase.Over?)
  }

  ghost predicate SpentOnce(s: World) {
    OneExecuteEach(s.tasks) && AtMostOnce(s) && forall id | CountRuns(s.runs, id) > 0 :: Spent(s.tasks, id)
  }

  lemma SpentStays(s: World, m: Move, id: string)
    requires CanMove(s, m) && Spent(s.tasks, id)
    ensures Spent(Do(s, m).tasks, id)
  {
    hide Check, BuildBinding, Checksum;
    var i :| 0 <= i < |s.tasks| && s.tasks[i].approval == id && (s.tasks[i].phase.Running? || s.tasks[i].phase.Over?);
    var t := Do(s, m).tasks[i];
    assert t.approval == id && (t.phase.Running? || t.phase.Over?);
  }

  lemma SpentOnceMove(s: World, m: Move)
    requires SpentOnce(s) && CanMove(s, m)
    ensures SpentOnce(Do(s, m))
  {
    hide Check, BuildBinding, Checksum, CountRuns, Spent;
    var u := Do(s, m);
    forall id | Spent(s.tasks, id) ensures Spent(u.tasks, id) {
      SpentStays(s, m, id);
    }
    if u.runs != s.runs {
      var t := s.tasks[m.i];
      NotYetSpent(s, m.i);
      NowSpent(u, m.i);
      forall id ensures CountRuns(u.runs, id) == CountRuns(s.runs, id) + if t.approval == id then 1 else 0 {
        CountAfter(s.runs, u.runs[|s.runs|], id);
      }
    }
  }

  lemma NotYetSpent(s: World, i: nat)
    requires OneExecuteEach(s.tasks) && i < |s.tasks| && s.tasks[i].phase.Loaded?
    ensures !Spent(s.tasks, s.tasks[i].approval)
  {
  }

  lemma NowSpent(s: World, i: nat)
    requires i < |s.tasks| && s.tasks[i].phase.Running?
    ensures Spent(s.tasks, s.tasks[i].approval)
  {
  }

  lemma {:induction false} SpentOnceRun(s: World, ms: seq<Move>)
    requires SpentOnce(s) && CanRun(s, ms)
    ensures SpentOnce(Run(s, ms))
    decreases ms
  {
    hide SpentOnce, Do, CanMove;
    if ms != [] {
      SpentOnceMove(s, ms[0]);
      SpentOnceRun(Do(s, ms[0]), ms[1..]);
    }
  }

  /** With exceptions after the call allowed, only a single execute per approval keeps its tool to one call. */
  lemma OnceDespiteCrashesExactly(s: World)
    requires Initial(s)
    ensures OnceDespiteCrashes(s) <==> OneExecuteEach(s.tasks)
  {
    hide Run, CanRun, Ready;
    if OneExecuteEach(s.tasks) {
      forall ms | CanRun(s, ms) ensures AtMostOnce(Run(s, ms)) {
        SpentOnceRun(s, ms);
      }
    } else {
      var i, j :| 0 <= i < j < |s.tasks| && s.tasks[i].approval == s.tasks[j].approval;
      CrashCallsPossible(s, i, j);
    }
  }

  lemma CrashCallsPossible(s: World, i: nat, j: nat)
    requires Initial(s) && i < j < |s.tasks| && s.tasks[i].approval == s.tasks[j].approval
    ensures !OnceDespiteCrashes(s)
  {
    hide Run, CanRun, CountRuns, Ready, AfterPrepare, PrepareMove, Initial;
    var id := s.tasks[i].approval;
    PrepareMakesReady(s, i);
    PrepareMakesReady(s, j);
    CrashRunsAgain(AfterPrepare(s, id), i, j, id, 0);
    var ms := [Lock(i), Load(i)] + [Execute(i, 0)] + [Crash(i)] + [Lock(j), Load(j)] + [Execute(j, 0)];
    RunThen(s, [PrepareMove(id)], ms);
    assert !AtMostOnce(Run(s, [PrepareMove(id)] + ms));
  }

  // ---- One change of status -----------------------------------------------

  predicate Settles(before: Status, after: Status) {
    after == before || (before == Pending && after in {Approved, Expired})
  }

  /** Nothing between `s` and `u` but PENDING approvals being settled, and new ones. */
  predicate OnlySettles(s: World, u: World) {
    forall id | id in s.approvals :: id in u.approvals && Settles(s.approvals[id].status, u.approvals[id].status)
  }

  /** Between any two moments of any run, crashes included. */
  ghost predicate AlwaysSettles(s: World) {
    forall ms, more | CanRun(s, ms) && CanRun(Run(s, ms), more) :: OnlySettles(Run(s, ms), Run(Run(s, ms), more))
  }

  predicate StillPending(s: World, t: Task) {
    t.phase.Loaded? || t.phase.Running? ==> t.approval in s.approvals && s.approvals[t.approval].status == Pending
  }

  /** What survives crashes: executes under way exclude each other and find their approval pending. */
  predicate Steady(s: World) {
    OneLockEach(s.tasks) && Exclusive(s) && forall i | 0 <= i < |s.tasks| :: StillPending(s, s.tasks[i])
  }

  lemma SteadyRelease(s: World, i: nat, approvals: map<string, Approval>)
    requires Steady(s) && i < |s.tasks| && Active(s.tasks[i])
    requires forall id | id in s.approvals && id != s.tasks[i].approval ::
               id in approvals && approvals[id] == s.approvals[id]
    ensures Steady(Release(s.(approvals := approvals), i))
  {
    var u := Release(s.(approvals := approvals), i);
    OnlyActive(s, i);
    forall k | 0 <= k < |u.tasks| ensures StillPending(u, u.tasks[k]) {
      assert StillPending(s, s.tasks[k]);
    }
  }

  lemma SteadyMove(s: World, m: Move)
    requires Steady(s) && CanMove(s, m)
    ensures Steady(Do(s, m)) && OnlySettles(s, Do(s, m))
  {
    hide Check, BuildBinding, Checksum, Exclusive, OneLockEach;
    var u := Do(s, m);
    match m
    case Prepare(_, _) => SteadyApprovals(s, u);
    case Tamper(_, _) => SteadyApprovals(s, u);
    case Lock(i) => SteadyLock(s, i);
    case Load(i) => SteadyLoad(s, i);
    case Execute(i, now) => SteadyExecute(s, i, now);
    case Finish(i) =>
      assert StillPending(s, s.tasks[i]);
      SteadyRelease(s, i, WithStatus(s.approvals, s.tasks[i].approval, Approved));
    case Crash(i) => SteadyRelease(s, i, s.approvals);
  }

  lemma SteadyApprovals(s: World, u: World)
    requires Steady(s) && u.tasks == s.tasks && u.locks == s.locks
    requires forall id | id in s.approvals :: id in u.approvals && u.approvals[id].status == s.approvals[id].status
    ensures Steady(u)
  {
    forall k | 0 <= k < |u.tasks| ensures StillPending(u, u.tasks[k]) {
      assert StillPending(s, s.tasks[k]);
    }
  }

  lemma SteadyLock(s: World, i: nat)
    requires Steady(s) && CanMove(s, Lock(i))
    ensures Steady(Do(s, Lock(i)))
  {
    var u := Do(s, Lock(i));
    forall k | 0 <= k < |u.tasks| ensures StillPending(u, u.tasks[k]) {
      assert StillPending(s, s.tasks[k]);
    }
  }

  lemma SteadyLoad(s: World, i: nat)
    requires Steady(s) && CanMove(s, Load(i))
    ensures Steady(Do(s, Load(i))) && Do(s, Load(i)).approvals == s.approvals
  {
    var u := Do(s, Load(i));
    if u.tasks[i].phase == Over {
      SteadyRelease(s, i, s.approvals);
    } else {
      forall k | 0 <= k < |u.tasks| ensures StillPending(u, u.tasks[k]) {
        assert StillPending(s, s.tasks[k]);
      }
    }
  }

  lemma SteadyExecute(s: World, i: nat, now: int)
    requires Steady(s) && CanMove(s, Execute(i, now))
    ensures Steady(Do(s, Execute(i, now))) && OnlySettles(s, Do(s, Execute(i, now)))
  {
    hide Check;
    var u := Do(s, Execute(i, now));
    assert StillPending(s, s.tasks[i]);
    match Check(s.tasks[i].phase.copy, now)
    case Refuse => SteadyRelease(s, i, s.approvals);
    case Expire => SteadyRelease(s, i, WithStatus(s.approvals, s.tasks[i].approval, Expired));
    case Go =>
      forall k | 0 <= k < |u.tasks| ensures StillPending(u, u.tasks[k]) {
        assert StillPending(s, s.tasks[k]);
      }
  }

  lemma {:induction false} SteadyRun(s: World, ms: seq<Move>)
    requires Steady(s) && CanRun(s, ms)
    ensures Steady(Run(s, ms)) && OnlySettles(s, Run(s, ms))
    decreases ms
  {
    hide Steady, Do, CanMove;
    if ms != [] {
      SteadyMove(s, ms[0]);
      SteadyRun(Do(s, ms[0]), ms[1..]);
    }
  }

  /**
   * From the initial state, crashes included, a status only ever moves from PENDING to APPROVED or EXPIRED if
   * and only if every execute of an approval locks the same session id.
   */
  lemma StatusSettlesExactly(s: World)
    requires Initial(s)
    ensures AlwaysSettles(s) <==> OneLockEach(s.tasks)
  {
    hide Run, CanRun, Ready, OnlySettles;
    if OneLockEach(s.tasks) {
      forall i | 0 <= i < |s.tasks| ensures s.tasks[i].phase == Idle {
        assert s.tasks[i] in s.tasks;
      }
      forall ms, more | CanRun(s, ms) && CanRun(Run(s, ms), more)
        ensures OnlySettles(Run(s, ms), Run(Run(s, ms), more))
      {
        SteadyRun(s, ms);
        SteadyRun(Run(s, ms), more);
      }
    } else {
      var i, j :| 0 <= i < j < |s.tasks| && s.tasks[i].approval == s.tasks[j].approval
          && s.tasks[i].sid != s.tasks[j].sid;
      ExpiredThenApproved(s, i, j);
    }
  }

  /** Under two locks one execute can expire an approval while the other still runs and then approves it. */
  lemma ExpiredThenApproved(s: World, i: nat, j: nat)
    requires Initial(s) && i < j < |s.tasks| && s.tasks[i].approval == s.tasks[j].approval
    requires s.tasks[i].sid != s.tasks[j].sid
    ensures !AlwaysSettles(s)
  {
    hide Run, CanRun, Ready, AfterPrepare, PrepareMove, Initial;
    var id := s.tasks[i].approval;
    PrepareMakesReady(s, i);
    PrepareMakesReady(s, j);
    ExpiresWhileRunning(s, i, j, id);
    var ms := [Lock(i), Load(i)] + [Lock(j), Load(j)] + [Execute(i, 0)] + [Execute(j, 1)];
    RunThen(s, [PrepareMove(id)], ms);
    var u := Run(s, [PrepareMove(id)] + ms);
    Finishes(u, i);
    assert !OnlySettles(u, Run(u, [Finish(i)]));
  }

  lemma ExpiresWhileRunning(s: World, i: nat, j: nat, id: string)
    requires id !in s.approvals && i < j
    requires Ready(AfterPrepare(s, id), i, id, 0) && Ready(AfterPrepare(s, id), j, id, 0)
    requires AfterPrepare(s, id).tasks[i].sid != AfterPrepare(s, id).tasks[j].sid
    ensures var u := AfterPrepare(s, id);
            var ms := [Lock(i), Load(i)] + [Lock(j), Load(j)] + [Execute(i, 0)] + [Execute(j, 1)];
            && CanRun(u, ms) && i < |Run(u, ms).tasks| && Run(u, ms).tasks[i] == u.tasks[i].(phase := Running)
            && id in Run(u, ms).approvals && Run(u, ms).approvals[id].status == Expired
  {
    hide Run, CanRun, Check, AfterPrepare;
    var u := AfterPrepare(s, id);
    var called := [Lock(i), Load(i)] + [Lock(j), Load(j)] + [Execute(i, 0)];
    FirstCalls(u, i, j, id);
    SampleExpires(s, id);
    Expires(Run(u, called), j, 1);
    RunThen(u, called, [Execute(j, 1)]);
  }

  /** Both executes have loaded the approval, and the first one calls the tool. */
  lemma FirstCalls(s: World, i: nat, j: nat, id: string)
    requires Ready(s, i, id, 0) && Ready(s, j, id, 0) && i < j && s.tasks[i].sid != s.tasks[j].sid
    ensures var called := [Lock(i), Load(i)] + [Lock(j), Load(j)] + [Execute(i, 0)];
            && CanRun(s, called) && Run(s, called).approvals == s.approvals
            && |Run(s, called).tasks| == |s.tasks|
            && Run(s, called).tasks[i] == s.tasks[i].(phase := Running)
            && Run(s, called).tasks[j] == s.tasks[j].(phase := Loaded(s.approvals[id]))
  {
    hide Run, CanRun, Checksum, BindingValid;
    var first, second := [Lock(i), Load(i)], [Lock(j), Load(j)];
    LocksAndLoads(s, i, id, 0);
    LocksAndLoads(Run(s, first), j, id, 0);
    RunThen(s, first, second);
    CallsTool(Run(s, first + second), i, 0);
    RunThen(s, first + second, [Execute(i, 0)]);
  }

  lemma SampleExpires(s: World, id: string)
    requires id !in s.approvals && id in AfterPrepare(s, id).approvals
    requires Check(AfterPrepare(s, id).approvals[id], 0) == Go
    ensures Check(AfterPrepare(s, id).approvals[id], 1) == Expire
  {
    hide Checksum, BindingValid, SampleProposal;
  }

  lemma Expires(s: World, i: nat, now: int)
    requires i < |s.tasks| && s.tasks[i].phase.Loaded? && Check(s.tasks[i].phase.copy, now) == Expire
    ensures CanRun(s, [Execute(i, now)])
    ensures Run(s, [Execute(i, now)])
         == Release(s.(approvals := WithStatus(s.approvals, s.tasks[i].approval, Expired)), i)
  {
    hide Check, Run, CanRun;
    OneMove(s, Execute(i, now));
  }
}
