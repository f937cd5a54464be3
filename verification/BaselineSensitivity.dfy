/**
 * core/replay_validator.py: what a stored baseline notices. One more record of the correlation, of any of the
 * three kinds a replay reports, ends its validity; a record of any other correlation never does.
 */
module BaselineSensitivity {
  import opened Wrappers
  import opened Canonical
  import opened Seqs
  import opened Persistence
  import opened FrozenReplay

  /** `u` holds the same sessions and intents as `t`: only its records may differ. */
  predicate SameBundles(t: Tables, u: Tables) {
    u == t.(decisions := u.decisions, effects := u.effects, approvals := u.approvals)
  }

  /** With the same bundles, a validating session stays so exactly when the reported records are the same. */
  lemma ValidatesWhenSame(t: Tables, u: Tables, sid: string, cid: string)
    requires SameBundles(t, u) && Validates(t, sid, cid)
    ensures ReplayOf(u, sid, cid).Some?
    ensures Validates(u, sid, cid) <==> ReplayOf(u, sid, cid).value == ReplayOf(t, sid, cid).value
  {
    hide Accepts, ToolSequence, EventsByCorrelation, IntentTool, Fingerprint, OutcomeOf;
    SameBundle(t, u, sid, cid);
    if Validates(u, sid, cid) {
      FingerprintInjective(ReplayOf(u, sid, cid).value, ReplayOf(t, sid, cid).value);
    }
  }

  lemma ApprovalNoticed(t: Tables, sid: string, cid: string, a: ApprovalRef)
    requires Validates(t, sid, cid)
    ensures Validates(t.(approvals := t.approvals + [a]), sid, cid) <==> a.correlation != cid
  {
    hide Accepts, ToolSequence, EventsByCorrelation, IntentTool, Validates, SortTexts, Filter, BundleOf;
    var u := t.(approvals := t.approvals + [a]);
    ValidatesWhenSame(t, u, sid, cid);
    SameBundle(t, u, sid, cid);
    FilterAppend(ApprovalIn(cid), t.approvals, a);
    SortedLength(ApprovalIds(Filter(ApprovalIn(cid), t.approvals)));
    SortedLength(ApprovalIds(Filter(ApprovalIn(cid), u.approvals)));
  }

  lemma DecisionNoticed(t: Tables, sid: string, cid: string, d: Decision)
    requires Validates(t, sid, cid)
    ensures Validates(t.(decisions := t.decisions + [d]), sid, cid) <==> d.correlation != cid
  {
    hide Accepts, ToolSequence, EventsByCorrelation, IntentTool, Validates, SortTexts, Filter, BundleOf;
    var u := t.(decisions := t.decisions + [d]);
    ValidatesWhenSame(t, u, sid, cid);
    SameBundle(t, u, sid, cid);
    FilterAppend(DecisionIn(cid), t.decisions, d);
  }

  lemma EffectNoticed(t: Tables, sid: string, cid: string, e: Effect)
    requires Validates(t, sid, cid)
    ensures Validates(t.(effects := t.effects + [e]), sid, cid) <==> e.correlation != cid
  {
    hide Accepts, ToolSequence, EventsByCorrelation, IntentTool, Validates, SortTexts, Filter, BundleOf;
    var u := t.(effects := t.effects + [e]);
    ValidatesWhenSame(t, u, sid, cid);
    SameBundle(t, u, sid, cid);
    FilterAppend(EffectIn(cid), t.effects, e);
  }

  lemma SameBundle(t: Tables, u: Tables, sid: string, cid: string)
    requires SameBundles(t, u)
    ensures BundleOf(u, sid, cid) == BundleOf(t, sid, cid) && BundleOf(t, sid, cid).correlation == cid
  {
    hide IntentTool;
  }

  lemma SortedLength(xs: seq<string>)
    ensures |SortTexts(xs)| == |xs|
  {
    hide SortTexts;
    SortTextsSorts(xs);
    assert |multiset(SortTexts(xs))| == |SortTexts(xs)| && |multiset(xs)| == |xs|;
  }
}
