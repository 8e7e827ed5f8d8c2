/** Why a request is let through, and when it may lower the replica count: what the answer
    of `MayActivate` says about the run. */
module Admission {
  import opened Pools
  import opened System
  import opened Ordering

  // ----- The step that decides -----

  /** The step settles that request `r` is let through, and why. */
  predicate Settles(s: State, l: Label, r: nat, why: Reason) {
    && l.Request? && l.r == r && r in s.reqs
    && var q := s.reqs[r];
       match why
       case GuardReleased => l.a == Unpark
       case ScaleGetFailed => l.a == Get(GetFailed) && Annotated(q.pool)
       case PodsReady => l.a.Observe? && q.ctrl.PollGet? && q.ctrl.window == Grace && SeesReady(q, Grace, l.a.seen)
       case ScaledUp => l.a.Observe? && q.ctrl.PollGet? && q.ctrl.window == ScaleUp && SeesReady(q, ScaleUp, l.a.seen)
  }

  function ReasonOf(k: Ctrl): Option<Reason> {
    match k
    case AtRearm(why) => Some(why)
    case Done(Admitted(why)) => Some(why)
    case Sleeping(_) => Some(ScaledUp)
    case AtEnd(ready) => if ready then Some(ScaledUp) else None
    case _ => None
  }

  ghost predicate SettledBefore(run: Run, i: nat, r: nat, why: Reason)
    requires i < |run.states| == |run.labels| + 1
  {
    exists k: nat :: k < i && Settles(run.states[k], run.labels[k], r, why)
  }

  lemma ReasonStep(c: Config, s: State, l: Label, r: nat, why: Reason)
    requires Enabled(s, l) && r in Next(c, s, l).reqs
    ensures ReasonOf(Next(c, s, l).reqs[r].ctrl) == Some(why) <==>
            (r in s.reqs && ReasonOf(s.reqs[r].ctrl) == Some(why)) || Settles(s, l, r, why)
  {
    ReqsOfNext(c, s, l);
  }

  lemma {:induction false} SettledIffReason(c: Config, run: Run, i: nat, r: nat, why: Reason)
    requires IsRun(c, run) && i < |run.states|
    ensures SettledBefore(run, i, r, why) <==>
            r in run.states[i].reqs && ReasonOf(run.states[i].reqs[r].ctrl) == Some(why)
  {
    if i > 0 {
      assert StepAt(c, run, i - 1);
      SettledIffReason(c, run, i - 1, r, why);
      ReqsOfNext(c, run.states[i - 1], run.labels[i - 1]);
      if r in run.states[i].reqs {
        ReasonStep(c, run.states[i - 1], run.labels[i - 1], r, why);
      }
    }
  }

  // ----- How the request came to that step -----

  lemma {:induction false} ParkedSince(c: Config, run: Run, i: nat, r: nat) returns (k: nat)
    requires IsRun(c, run) && i < |run.states|
    requires r in run.states[i].reqs && run.states[i].reqs[r].ctrl.Parked?
    ensures k < i && run.labels[k] == Request(r, Check) && run.states[k].guard.scalingUp
    ensures run.states[i].reqs[r].ctrl == Parked(run.states[k].guard.current, run.states[k].now + DEFAULT_GRACE)
  {
    assert StepAt(c, run, i - 1);
    ReqsOfNext(c, run.states[i - 1], run.labels[i - 1]);
    if run.labels[i - 1] == Request(r, Check) {
      k := i - 1;
    } else {
      k := ParkedSince(c, run, i - 1, r);
    }
  }

  predicate AfterStore(k: Ctrl) {
    || k.Sleeping?
    || ((k.PollWait? || k.PollGet?) && k.window == ScaleUp)
  }

  lemma {:induction false} StoredSince(c: Config, run: Run, i: nat, r: nat) returns (k: nat)
    requires IsRun(c, run) && i < |run.states|
    requires r in run.states[i].reqs && AfterStore(run.states[i].reqs[r].ctrl)
    ensures k < i && run.labels[k] == Request(r, Update(Stored))
  {
    assert StepAt(c, run, i - 1);
    ReqsOfNext(c, run.states[i - 1], run.labels[i - 1]);
    if run.labels[i - 1] == Request(r, Update(Stored)) {
      k := i - 1;
    } else {
      k := StoredSince(c, run, i - 1, r);
    }
  }

  predicate InGrace(k: Ctrl) {
    (k.PollWait? || k.PollGet?) && k.window == Grace
  }

  /** A grace window starts with the read of a positive replica count and lasts the pool's
      grace period from there. */
  lemma {:induction false} GraceSince(c: Config, run: Run, i: nat, r: nat) returns (g: nat)
    requires IsRun(c, run) && i < |run.states|
    requires r in run.states[i].reqs && InGrace(run.states[i].reqs[r].ctrl)
    ensures g < i && run.labels[g] == Request(r, Get(GetOk))
    ensures run.states[i].reqs[r].snap == run.states[g].scale && run.states[g].scale.spec > 0
    ensures run.states[i].reqs[r].ctrl.deadline == run.states[g].now + GracePeriod(c, run.states[i].reqs[r].pool)
  {
    assert StepAt(c, run, i - 1);
    ReqsOfNext(c, run.states[i - 1], run.labels[i - 1]);
    if run.labels[i - 1] == Request(r, Get(GetOk)) {
      g := i - 1;
    } else {
      g := GraceSince(c, run, i - 1, r);
    }
  }

  // ----- Admission soundness -----

  /** `r` found a scale-up in progress at step `k`, and left at step `u` because the channel
      captured then had been closed or a minute had passed. */
  ghost predicate ReleasedBy(run: Run, r: nat, k: nat, u: nat)
    requires k < u < |run.labels| < |run.states|
  {
    && run.labels[k] == Request(r, Check) && run.states[k].guard.scalingUp
    && run.labels[u] == Request(r, Unpark)
    && (|| run.states[k].now + DEFAULT_GRACE <= run.states[u].now
        || (run.states[k].guard.current.Some? && run.states[k].guard.current.value in run.states[u].guard.closed))
  }

  /** `r` read a positive replica count at step `g`, and its poll at step `k` saw as many
      ready replicas. */
  ghost predicate SawReady(run: Run, r: nat, g: nat, k: nat)
    requires g < k < |run.labels| < |run.states|
  {
    && run.labels[g] == Request(r, Get(GetOk)) && run.states[g].scale.spec > 0
    && run.labels[k].Request? && run.labels[k].r == r && run.labels[k].a.Observe?
    && run.labels[k].a.seen.Ready? && ToInt32(run.labels[k].a.seen.n) == run.states[g].scale.spec
    && r in run.states[k].reqs && InGrace(run.states[k].reqs[r].ctrl)
  }

  /** The server stored the update of `r` at step `g`, and its poll at step `k` saw one ready
      replica. */
  ghost predicate SawScaledUp(run: Run, r: nat, g: nat, k: nat)
    requires g < k < |run.labels| < |run.states|
  {
    && run.labels[g] == Request(r, Update(Stored))
    && run.labels[k].Request? && run.labels[k].r == r && run.labels[k].a.Observe?
    && run.labels[k].a.seen.Ready? && ToInt32(run.labels[k].a.seen.n) == 1
    && r in run.states[k].reqs && !InGrace(run.states[k].reqs[r].ctrl)
  }

  ghost predicate FailedRead(run: Run, r: nat, k: nat)
    requires k < |run.labels| < |run.states|
  {
    run.labels[k] == Request(r, Get(GetFailed)) && r in run.states[k].reqs && Annotated(run.states[k].reqs[r].pool)
  }

  /** What the run must contain for request `r` to be let through for this reason. */
  ghost predicate Evidence(run: Run, i: nat, r: nat, why: Reason)
    requires i < |run.states| == |run.labels| + 1
  {
    match why
    case GuardReleased => exists k: nat, u: nat :: k < u < i && ReleasedBy(run, r, k, u)
    case ScaleGetFailed => exists k: nat :: k < i && FailedRead(run, r, k)
    case PodsReady => exists g: nat, k: nat :: g < k < i && SawReady(run, r, g, k)
    case ScaledUp => exists g: nat, k: nat :: g < k < i && SawScaledUp(run, r, g, k)
  }

  lemma SettledHasEvidence(c: Config, run: Run, i: nat, r: nat, why: Reason)
    requires IsRun(c, run) && i < |run.states| && SettledBefore(run, i, r, why)
    ensures Evidence(run, i, r, why)
  {
    var k: nat :| k < i && Settles(run.states[k], run.labels[k], r, why);
    assert StepAt(c, run, k);
    match why
    case GuardReleased =>
      var p := ParkedSince(c, run, k, r);
      assert ReleasedBy(run, r, p, k);
    case ScaleGetFailed =>
      assert FailedRead(run, r, k);
    case PodsReady =>
      var g := GraceSince(c, run, k, r);
      assert SawReady(run, r, g, k);
    case ScaledUp =>
      var g := StoredSince(c, run, k, r);
      assert SawScaledUp(run, r, g, k);
  }

  lemma OneRead(c: Config, run: Run, g: nat, k: nat, r: nat)
    requires IsRun(c, run) && g < |run.labels| && k < |run.labels|
    requires run.labels[g] == Request(r, Get(GetOk)) && run.labels[k] == Request(r, Get(GetOk))
    ensures g == k
  {
    if g < k {
      ChecksAndReadsOnce(c, run, g, k, r);
    } else if k < g {
      ChecksAndReadsOnce(c, run, k, g, r);
    }
  }

  lemma EvidenceSettles(c: Config, run: Run, i: nat, r: nat, why: Reason)
    requires IsRun(c, run) && i < |run.states| && Evidence(run, i, r, why)
    ensures SettledBefore(run, i, r, why)
  {
    match why
    case GuardReleased =>
      var p: nat, u: nat :| p < u < i && ReleasedBy(run, r, p, u);
      assert StepAt(c, run, u) && Settles(run.states[u], run.labels[u], r, why);
    case ScaleGetFailed =>
      var k: nat :| k < i && FailedRead(run, r, k);
      assert Settles(run.states[k], run.labels[k], r, why);
    case PodsReady =>
      var g: nat, k: nat :| g < k < i && SawReady(run, r, g, k);
      assert StepAt(c, run, k);
      var h := GraceSince(c, run, k, r);
      OneRead(c, run, g, h, r);
      assert Settles(run.states[k], run.labels[k], r, why);
    case ScaledUp =>
      var g: nat, k: nat :| g < k < i && SawScaledUp(run, r, g, k);
      assert StepAt(c, run, k);
      assert Settles(run.states[k], run.labels[k], r, why);
  }

  /** Admission soundness and completeness: a finished request was let through for a reason
      exactly when the run holds the evidence for it. As an outcome names one reason, every
      admission has exactly one kind of evidence and every refusal has none. */
  lemma AdmittedIffEvidence(c: Config, run: Run, i: nat, r: nat, why: Reason)
    requires IsRun(c, run) && i < |run.states|
    requires r in run.states[i].reqs && run.states[i].reqs[r].ctrl.Done?
    ensures run.states[i].reqs[r].ctrl.outcome == Admitted(why) <==> Evidence(run, i, r, why)
  {
    SettledIffReason(c, run, i, r, why);
    if SettledBefore(run, i, r, why) {
      SettledHasEvidence(c, run, i, r, why);
    }
    if Evidence(run, i, r, why) {
      EvidenceSettles(c, run, i, r, why);
    }
  }

  /** Request `r` arrived at step `k` and found no pool. */
  ghost predicate FoundNoPool(run: Run, k: nat, r: nat)
    requires k < |run.labels| < |run.states|
  {
    run.labels[k] == Arrive(r) && run.states[k].store == None
  }

  /** A request ends unsynced if and only if there was no pool when it arrived. */
  lemma {:induction false} NotSyncedIffNoPool(c: Config, run: Run, i: nat, r: nat)
    requires IsRun(c, run) && i < |run.states|
    ensures (exists k: nat :: k < i && FoundNoPool(run, k, r)) <==>
            r in run.states[i].reqs && run.states[i].reqs[r].ctrl == Done(NotSynced)
  {
    if i > 0 {
      assert StepAt(c, run, i - 1);
      NotSyncedIffNoPool(c, run, i - 1, r);
      ReqsOfNext(c, run.states[i - 1], run.labels[i - 1]);
      if FoundNoPool(run, i - 1, r) {
        assert run.states[i].reqs[r].ctrl == Done(NotSynced);
      }
    }
  }

  // ----- Lowering the replica count -----

  lemma {:induction false} TimedOutSince(c: Config, run: Run, i: nat, r: nat) returns (t: nat)
    requires IsRun(c, run) && i < |run.states|
    requires r in run.states[i].reqs && (run.states[i].reqs[r].ctrl.AtBegin? || run.states[i].reqs[r].ctrl.AtUpdate?)
    requires run.states[i].reqs[r].snap.spec > 0
    ensures t < i && run.labels[t] == Request(r, Timeout) && r in run.states[t].reqs
    ensures InGrace(run.states[t].reqs[r].ctrl)
    ensures run.states[t].reqs[r].snap == run.states[i].reqs[r].snap
  {
    assert StepAt(c, run, i - 1);
    ReqsOfNext(c, run.states[i - 1], run.labels[i - 1]);
    if run.labels[i - 1] == Request(r, Timeout) {
      t := i - 1;
    } else {
      t := TimedOutSince(c, run, i - 1, r);
    }
  }

  /** A request that read a positive replica count overwrites it with 1 only after the whole
      grace period, counted from its read, in which no poll of its saw that many ready
      replicas. */
  lemma OverwritesOnlyAfterGrace(c: Config, run: Run, i: nat, r: nat) returns (g: nat, t: nat)
    requires IsRun(c, run) && i < |run.labels|
    requires run.labels[i].Request? && run.labels[i].r == r && run.labels[i].a.Update?
    requires r in run.states[i].reqs && run.states[i].reqs[r].snap.spec > 0
    ensures g < t < i && run.labels[g] == Request(r, Get(GetOk)) && run.labels[t] == Request(r, Timeout)
    ensures run.states[g].scale == run.states[i].reqs[r].snap
    ensures r in run.states[t].reqs
    ensures run.states[t].now >= run.states[g].now + GracePeriod(c, run.states[t].reqs[r].pool)
    ensures forall k :: g < k < i ==> !SawReady(run, r, g, k)
  {
    assert StepAt(c, run, i);
    t := TimedOutSince(c, run, i, r);
    assert StepAt(c, run, t);
    g := GraceSince(c, run, t, r);
    forall k | g < k < i
      ensures !SawReady(run, r, g, k)
    {
      if SawReady(run, r, g, k) {
        EvidenceSettles(c, run, i, r, PodsReady);
        SettledIffReason(c, run, i, r, PodsReady);
      }
    }
  }
}
