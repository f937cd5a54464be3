/**
 * Which stored records a replay reports, told by positions in the tables: the decisions and effects of its
 * correlation in table order, and the ids of its approvals in ascending order.
 */
module ReplayRecords {
  import opened Wrappers
  import opened Text
  import opened Canonical
  import opened Seqs
  import opened Persistence

  /** Of a stored record, its id and its correlation. */
  datatype Ref = Ref(id: string, correlation: string)

  function DecisionRefs(rows: seq<Decision>): seq<Ref> {
    seq(|rows|, i requires 0 <= i < |rows| => Ref(rows[i].id, rows[i].correlation))
  }

  function EffectRefs(rows: seq<Effect>): seq<Ref> {
    seq(|rows|, i requires 0 <= i < |rows| => Ref(rows[i].id, rows[i].correlation))
  }

  function ApprovalRefs(rows: seq<ApprovalRef>): seq<Ref> {
    seq(|rows|, i requires 0 <= i < |rows| => Ref(rows[i].id, rows[i].correlation))
  }

  /** InIdOrder positions. */
  predicate Rising(at: seq<nat>) { forall i, j | 0 <= i < j < |at| :: at[i] < at[j] }

  /** `at` are the positions of the records of `cid`, and `ids` their ids. */
  predicate IdsAt(refs: seq<Ref>, cid: string, ids: seq<string>, at: seq<nat>) {
    && Rising(at) && |at| == |ids|
    && (forall k | 0 <= k < |at| :: at[k] < |refs| && refs[at[k]] == Ref(ids[k], cid))
    && forall i | 0 <= i < |refs| && refs[i].correlation == cid :: i in at
  }

  /** The ids of the records of `cid`, in table order. */
  ghost predicate InTableOrder(refs: seq<Ref>, cid: string, ids: seq<string>) { exists at :: IdsAt(refs, cid, ids, at) }

  /** The same ids, each as often, in ascending order. */
  ghost predicate InIdOrder(refs: seq<Ref>, cid: string, ids: seq<string>) {
    && (forall i, j | 0 <= i < j < |ids| :: !StrLess(ids[j], ids[i]))
    && exists stored :: InTableOrder(refs, cid, stored) && multiset(ids) == multiset(stored)
  }

  /** `at` are the positions in `xs` of the elements with `p`, and `f` those elements. */
  ghost predicate Picks<T(!new)>(p: T -> bool, xs: seq<T>, f: seq<T>, at: seq<nat>) {
    && Rising(at) && |at| == |f|
    && (forall k | 0 <= k < |at| :: at[k] < |xs| && p(xs[at[k]]) && f[k] == xs[at[k]])
    && forall i | 0 <= i < |xs| && p(xs[i]) :: i in at
  }

  lemma PicksNone<T(!new)>(p: T -> bool)
    ensures Picks(p, [], [], [])
  {
  }

  lemma PicksLast<T(!new)>(p: T -> bool, xs: seq<T>, f: seq<T>, at: seq<nat>)
    requires xs != [] && Picks(p, xs[..|xs| - 1], f, at)
    ensures var n := |xs| - 1; if p(xs[n]) then Picks(p, xs, f + [xs[n]], at + [n]) else Picks(p, xs, f, at)
  {
  }

  lemma FrontAndLast<T>(xs: seq<T>)
    requires xs != []
    ensures xs[..|xs| - 1] + [xs[|xs| - 1]] == xs
  {
  }

  lemma FilterLast<T(!new)>(p: T -> bool, xs: seq<T>)
    requires xs != []
    ensures var f, x := Filter(p, xs[..|xs| - 1]), xs[|xs| - 1]; Filter(p, xs) == if p(x) then f + [x] else f
  {
    hide Filter;
    FrontAndLast(xs);
    FilterAppend(p, xs[..|xs| - 1], xs[|xs| - 1]);
  }

  lemma NothingFiltered<T(!new)>(p: T -> bool)
    ensures Filter(p, []) == []
  {
  }

  lemma {:induction false} FilterPicks<T(!new)>(p: T -> bool, xs: seq<T>) returns (at: seq<nat>)
    ensures Picks(p, xs, Filter(p, xs), at)
  {
    hide Picks, Filter;
    if xs == [] {
      at := [];
      PicksNone(p);
      NothingFiltered(p);
    } else {
      at := FilterPicks(p, xs[..|xs| - 1]);
      PicksLast(p, xs, Filter(p, xs[..|xs| - 1]), at);
      FilterLast(p, xs);
      if p(xs[|xs| - 1]) {
        at := at + [|xs| - 1];
      }
    }
  }

  lemma DecisionsPicked(rows: seq<Decision>, cid: string, f: seq<Decision>, at: seq<nat>)
    requires Picks(DecisionIn(cid), rows, f, at)
    ensures IdsAt(DecisionRefs(rows), cid, DecisionIds(f), at)
  {
  }

  lemma EffectsPicked(rows: seq<Effect>, cid: string, f: seq<Effect>, at: seq<nat>)
    requires Picks(EffectIn(cid), rows, f, at)
    ensures IdsAt(EffectRefs(rows), cid, EffectIds(f), at)
  {
  }

  lemma ApprovalsPicked(rows: seq<ApprovalRef>, cid: string, f: seq<ApprovalRef>, at: seq<nat>)
    requires Picks(ApprovalIn(cid), rows, f, at)
    ensures IdsAt(ApprovalRefs(rows), cid, ApprovalIds(f), at)
  {
  }

  lemma DecisionsListed(rows: seq<Decision>, cid: string)
    ensures InTableOrder(DecisionRefs(rows), cid, DecisionIds(Filter(DecisionIn(cid), rows)))
  {
    hide Filter, Picks, IdsAt, DecisionRefs, DecisionIds;
    var at := FilterPicks(DecisionIn(cid), rows);
    DecisionsPicked(rows, cid, Filter(DecisionIn(cid), rows), at);
  }

  lemma EffectsListed(rows: seq<Effect>, cid: string)
    ensures InTableOrder(EffectRefs(rows), cid, EffectIds(Filter(EffectIn(cid), rows)))
  {
    hide Filter, Picks, IdsAt, EffectRefs, EffectIds;
    var at := FilterPicks(EffectIn(cid), rows);
    EffectsPicked(rows, cid, Filter(EffectIn(cid), rows), at);
  }

  lemma ApprovalsStored(rows: seq<ApprovalRef>, cid: string)
    ensures InTableOrder(ApprovalRefs(rows), cid, ApprovalIds(Filter(ApprovalIn(cid), rows)))
  {
    hide Filter, Picks, IdsAt, ApprovalRefs, ApprovalIds;
    var at := FilterPicks(ApprovalIn(cid), rows);
    ApprovalsPicked(rows, cid, Filter(ApprovalIn(cid), rows), at);
  }

  lemma ApprovalsListed(rows: seq<ApprovalRef>, cid: string)
    ensures InIdOrder(ApprovalRefs(rows), cid, SortTexts(ApprovalIds(Filter(ApprovalIn(cid), rows))))
  {
    hide SortTexts, Filter, ApprovalIds, InTableOrder, ApprovalRefs;
    var stored := ApprovalIds(Filter(ApprovalIn(cid), rows));
    ApprovalsStored(rows, cid);
    SortTextsSorts(stored);
    assert InTableOrder(ApprovalRefs(rows), cid, stored) && multiset(SortTexts(stored)) == multiset(stored);
  }
}
