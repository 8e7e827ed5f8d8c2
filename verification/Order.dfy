/** Program order: in every run, what a request and the deactivator do next is fixed by what
    they did last and what they found, read off the labels of the run. */
module Ordering {
  import opened Pools
  import opened System
  import opened Timing

  // ----- Requests -----

  predicate Own(l: Label, r: nat) {
    l.Request? && l.r == r
  }

  /** `r` makes step `j`, and no further step before `k`. */
  ghost predicate RestsFrom(run: Run, j: nat, k: nat, r: nat)
    requires k <= |run.labels|
  {
    && j < k && Own(run.labels[j], r)
    && (forall m :: j < m < k ==> !Own(run.labels[m], r))
  }

  /** Step `k` is the next step of `r` after its step `j`. */
  ghost predicate NextOwn(run: Run, j: nat, k: nat, r: nat) {
    k < |run.labels| && RestsFrom(run, j, k, r) && Own(run.labels[k], r)
  }

  /** Some earlier step of `r` was this one. */
  ghost predicate Made(run: Run, i: nat, r: nat, a: Act)
    requires i <= |run.labels|
  {
    exists k: nat :: k < i && run.labels[k] == Request(r, a)
  }

  lemma {:induction false} StaysWhileResting(c: Config, run: Run, j: nat, k: nat, r: nat)
    requires IsRun(c, run) && j < k < |run.states| && RestsFrom(run, j, k, r)
    ensures StepAt(c, run, j) && r in run.states[j].reqs && r in run.states[k].reqs
    ensures run.states[k].reqs[r] == ActMove(c, run.states[j], run.states[j].reqs[r], run.labels[j].a).req
  {
    assert StepAt(c, run, j) && StepAt(c, run, k - 1);
    if j + 1 < k {
      StaysWhileResting(c, run, j, k - 1, r);
      OthersKeepTheirPlace(c, run.states[k - 1], run.labels[k - 1], r);
    }
  }

  /** Control points before, and from, the begin of a scale-up on. */
  predicate BeforeBegin(k: Ctrl) {
    k.AtCheck? || k.Parked? || k.AtGet? || k.AtBegin? || ((k.PollWait? || k.PollGet?) && k.window == Grace)
  }

  predicate AfterBegin(k: Ctrl) {
    k.AtUpdate? || k.Sleeping? || k.AtEnd? || ((k.PollWait? || k.PollGet?) && k.window == ScaleUp)
  }

  lemma {:induction false} BeganOrNot(c: Config, run: Run, i: nat, r: nat)
    requires IsRun(c, run) && i < |run.states|
    ensures r !in run.states[i].reqs ==> !Made(run, i, r, Begin)
    ensures r in run.states[i].reqs && BeforeBegin(run.states[i].reqs[r].ctrl) ==> !Made(run, i, r, Begin)
    ensures r in run.states[i].reqs && AfterBegin(run.states[i].reqs[r].ctrl) ==> Made(run, i, r, Begin)
  {
    if i > 0 {
      assert StepAt(c, run, i - 1);
      BeganOrNot(c, run, i - 1, r);
      ReqsOfNext(c, run.states[i - 1], run.labels[i - 1]);
      assert Made(run, i, r, Begin) <==> Made(run, i - 1, r, Begin) || run.labels[i - 1] == Request(r, Begin);
    }
  }

  lemma {:induction false} WokeOrNot(c: Config, run: Run, i: nat, r: nat)
    requires IsRun(c, run) && i < |run.states|
    ensures Made(run, i, r, Wake) <==>
            && r in run.states[i].reqs
            && run.states[i].reqs[r].ctrl in {AtEnd(true), AtRearm(ScaledUp), Done(Admitted(ScaledUp))}
  {
    if i > 0 {
      assert StepAt(c, run, i - 1);
      WokeOrNot(c, run, i - 1, r);
      ReqsOfNext(c, run.states[i - 1], run.labels[i - 1]);
      assert Made(run, i, r, Wake) <==> Made(run, i - 1, r, Wake) || run.labels[i - 1] == Request(r, Wake);
    }
  }

  /** The first step of a request is the check of the guard. */
  lemma CheckComesFirst(c: Config, run: Run, k: nat, r: nat)
    requires IsRun(c, run) && k < |run.labels| && Own(run.labels[k], r)
    requires forall m :: 0 <= m < k ==> !Own(run.labels[m], r)
    ensures run.labels[k].a == Check
  {
    assert StepAt(c, run, k);
    NotYetStarted(c, run, k, r);
  }

  lemma {:induction false} NotYetStarted(c: Config, run: Run, i: nat, r: nat)
    requires IsRun(c, run) && i < |run.states| && r in run.states[i].reqs
    requires forall m :: 0 <= m < i ==> !Own(run.labels[m], r)
    ensures run.states[i].reqs[r].ctrl.AtCheck? || run.states[i].reqs[r].ctrl.Done?
  {
    assert StepAt(c, run, i - 1);
    ReqsOfNext(c, run.states[i - 1], run.labels[i - 1]);
    if r in run.states[i - 1].reqs {
      NotYetStarted(c, run, i - 1, r);
    }
  }

  /** After the check: a request that finds a scale-up in progress is parked, any other one goes
      on to the scale object. After the read: nothing without annotations or resource, straight
      to the end if the read failed, otherwise a grace window exactly if the count is positive. */
  lemma AfterCheckAndRead(c: Config, run: Run, j: nat, k: nat, r: nat)
    requires IsRun(c, run) && NextOwn(run, j, k, r)
    ensures r in run.states[j].reqs
    ensures var s, a, b := run.states[j], run.labels[j].a, run.labels[k].a;
            && (a == Check ==> if s.guard.scalingUp then b == Unpark else b.Get?)
            && a != Unpark && a != Rearm
            && (a.Get? ==> Annotated(s.reqs[r].pool) && a.got != NoResource)
            && (a == Get(GetFailed) ==> b == Rearm)
            && (a == Get(GetOk) ==> if s.scale.spec > 0 then b == Poll || b == Timeout else b == Begin)
  {
    StaysWhileResting(c, run, j, k, r);
    assert StepAt(c, run, k);
  }

  /** In a window: a poll looks at its object; the count it waits for is the one read, or 1 once
      the scale-up has begun; a match ends the window, and its end without a match leads to the
      scale-up from the grace window and out of the scale-up otherwise. */
  lemma AfterPoll(c: Config, run: Run, j: nat, k: nat, r: nat)
    requires IsRun(c, run) && NextOwn(run, j, k, r)
    ensures r in run.states[j].reqs
    ensures var a, b, began := run.labels[j].a, run.labels[k].a, Made(run, j, r, Begin);
            && (a == Poll ==> b.Observe?)
            && (a.Observe? ==>
                  if a.seen.Ready? && ToInt32(a.seen.n) == (if began then 1 else run.states[j].reqs[r].snap.spec)
                  then b == (if began then Wake else Rearm)
                  else b == Poll || b == Timeout)
            && (a == Timeout ==> b == if began then End else Begin)
  {
    StaysWhileResting(c, run, j, k, r);
    BeganOrNot(c, run, j, r);
    assert StepAt(c, run, j + 1) && StepAt(c, run, k);
  }

  /** In a scale-up: begin, update, then a window exactly if the update was stored and the end
      otherwise; a request that goes on after the end had slept on ready pods. */
  lemma AfterBeginAndUpdate(c: Config, run: Run, j: nat, k: nat, r: nat)
    requires IsRun(c, run) && NextOwn(run, j, k, r)
    ensures r in run.states[j].reqs
    ensures var a, b := run.labels[j].a, run.labels[k].a;
            && (a == Begin ==> b.Update?)
            && (a.Update? ==> if a.upd == Stored then b == Poll || b == Timeout else b == End)
            && (a == Wake ==> b == End)
            && (a == End ==> Made(run, j, r, Wake) && b == Rearm)
  {
    StaysWhileResting(c, run, j, k, r);
    WokeOrNot(c, run, j, r);
    assert StepAt(c, run, k);
  }

  /** The last step decides the answer: a request is let through exactly after its release or
      its restart of the countdown, and refused exactly after a read without annotations or
      resource and after the end of a scale-up without ready pods. */
  lemma LastStepAnswers(c: Config, run: Run, j: nat, i: nat, r: nat)
    requires IsRun(c, run) && j < i < |run.states| && RestsFrom(run, j, i, r)
    ensures r in run.states[j].reqs && r in run.states[i].reqs
    ensures var a, k := run.labels[j].a, run.states[i].reqs[r].ctrl;
            && ((exists why :: k == Done(Admitted(why))) <==> a == Unpark || a == Rearm)
            && (k == Done(Unavailable) <==>
                  || (a.Get? && (!Annotated(run.states[j].reqs[r].pool) || a.got == NoResource))
                  || (a == End && !Made(run, j, r, Wake)))
            && k != Done(NotSynced)
  {
    StaysWhileResting(c, run, j, i, r);
    WokeOrNot(c, run, j, r);
    var a, k := run.labels[j].a, run.states[i].reqs[r].ctrl;
    if a == Unpark || a == Rearm {
      assert k == Done(Admitted(k.outcome.why));
    }
  }

  // ----- The guard decides the path -----

  lemma {:induction false} PathSinceCheck(c: Config, run: Run, k: nat, i: nat, r: nat)
    requires IsRun(c, run) && k < i < |run.states| && run.labels[k] == Request(r, Check)
    ensures r in run.states[i].reqs
    ensures !run.states[i].reqs[r].ctrl.AtCheck?
    ensures OnGuardPath(run.states[i].reqs[r].ctrl) <==> run.states[k].guard.scalingUp
  {
    assert StepAt(c, run, i - 1);
    ReqsOfNext(c, run.states[i - 1], run.labels[i - 1]);
    ReleasedNeverRearms(c, run, i - 1, r);
    if k < i - 1 {
      PathSinceCheck(c, run, k, i - 1, r);
    }
  }

  /** If the guard is up when a request checks it, every later step of the request is its
      release; if it is down, no later step is. */
  lemma GuardDecidesPath(c: Config, run: Run, k: nat, j: nat, r: nat)
    requires IsRun(c, run) && k < j < |run.labels| && run.labels[k] == Request(r, Check)
    requires Own(run.labels[j], r)
    ensures run.labels[j].a == Unpark <==> run.states[k].guard.scalingUp
  {
    assert StepAt(c, run, j);
    PathSinceCheck(c, run, k, j, r);
  }

  /** A request is let through by its release if and only if the guard was up at its check. */
  lemma ReleasedIffGuardUp(c: Config, run: Run, k: nat, i: nat, r: nat)
    requires IsRun(c, run) && k < i < |run.states| && run.labels[k] == Request(r, Check)
    requires r in run.states[i].reqs && run.states[i].reqs[r].ctrl.Done?
    ensures run.states[i].reqs[r].ctrl.outcome == Admitted(GuardReleased) <==> run.states[k].guard.scalingUp
  {
    PathSinceCheck(c, run, k, i, r);
  }

  // ----- Once only -----

  predicate PastRead(k: Ctrl) {
    !k.AtCheck? && !k.AtGet? && !k.Parked?
  }

  lemma {:induction false} ReadsNoMore(c: Config, run: Run, g: nat, i: nat, r: nat)
    requires IsRun(c, run) && g < i < |run.states| && Own(run.labels[g], r) && run.labels[g].a.Get?
    ensures r in run.states[i].reqs && PastRead(run.states[i].reqs[r].ctrl)
  {
    assert StepAt(c, run, i - 1);
    ReqsOfNext(c, run.states[i - 1], run.labels[i - 1]);
    if g < i - 1 {
      ReadsNoMore(c, run, g, i - 1, r);
    }
  }

  /** A request checks the guard once and reads the scale object once. */
  lemma ChecksAndReadsOnce(c: Config, run: Run, j: nat, k: nat, r: nat)
    requires IsRun(c, run) && j < k < |run.labels| && Own(run.labels[j], r) && Own(run.labels[k], r)
    ensures !(run.labels[j].a == Check && run.labels[k].a == Check)
    ensures !(run.labels[j].a.Get? && run.labels[k].a.Get?)
  {
    assert StepAt(c, run, k);
    if run.labels[j].a == Check {
      PathSinceCheck(c, run, j, k, r);
    }
    if run.labels[j].a.Get? {
      ReadsNoMore(c, run, j, k, r);
    }
  }

  // ----- The deactivator -----

  /** Step `k` is the next step of the deactivator after its step `j`. */
  ghost predicate NextTurn(run: Run, j: nat, k: nat) {
    && j < k < |run.labels| && run.labels[j].Deactivator? && run.labels[k].Deactivator?
    && (forall m :: j < m < k ==> !run.labels[m].Deactivator?)
  }

  lemma {:induction false} StaysBetweenTurns(c: Config, run: Run, j: nat, k: nat)
    requires IsRun(c, run) && j < k < |run.states| && run.labels[j].Deactivator?
    requires forall m :: j < m < k ==> !run.labels[m].Deactivator?
    ensures StepAt(c, run, j) && run.states[k].deact == DeactMove(run.states[j], run.labels[j].d).ctrl
  {
    assert StepAt(c, run, j) && StepAt(c, run, k - 1);
    if j + 1 < k {
      StaysBetweenTurns(c, run, j, k - 1);
    }
  }

  /** The deactivator reads the pool at every tick, the scale object exactly if the pool is
      annotated, and sends zero exactly after a successful read; then it waits for the next
      tick or its end, after which it does nothing. */
  lemma DeactivatorOrder(c: Config, run: Run, j: nat, k: nat)
    requires IsRun(c, run) && NextTurn(run, j, k)
    ensures var s, d, e := run.states[j], run.labels[j].d, run.labels[k].d;
            var waits := e == Receive || e == Cancel;
            && d != Cancel
            && (d == Receive ==> e == ReadPool)
            && (d == ReadPool ==> s.store.Some? && if Annotated(s.store.value) then e.ReadScale? else waits)
            && (d.ReadScale? ==> if d.got == GetOk then e.WriteZero? else waits)
            && (d == Boot || d.WriteZero? ==> waits)
  {
    StaysBetweenTurns(c, run, j, k);
    assert StepAt(c, run, j + 1) && StepAt(c, run, k);
  }

  // ----- Missing annotations -----

  predicate BeforeRead(k: Ctrl) {
    k.AtCheck? || k.Parked? || k.AtGet? || k.Done?
  }

  lemma {:induction false} NeverPastRead(c: Config, run: Run, i: nat, r: nat)
    requires IsRun(c, run) && i < |run.states| && r in run.states[i].reqs
    requires !Annotated(run.states[i].reqs[r].pool)
    ensures BeforeRead(run.states[i].reqs[r].ctrl)
  {
    assert StepAt(c, run, i - 1);
    ReqsOfNext(c, run.states[i - 1], run.labels[i - 1]);
    if r in run.states[i - 1].reqs {
      NeverPastRead(c, run, i - 1, r);
    }
  }

  /** A request of a pool that lacks any one of the three required annotations never polls, never
      scales and restarts no countdown: it is released from the guard or refused at its read. */
  lemma MissingAnnotationRefuses(c: Config, run: Run, k: nat, r: nat, key: string)
    requires IsRun(c, run) && k < |run.labels| && Own(run.labels[k], r)
    requires r in run.states[k].reqs && key !in run.states[k].reqs[r].pool.annotations
    requires key in {API_VERSION_KEY, KIND_KEY, NAME_KEY}
    ensures run.labels[k].a == Check || run.labels[k].a == Unpark || run.labels[k].a.Get?
    ensures r in run.states[k + 1].reqs
    ensures run.labels[k].a.Get? ==> run.states[k + 1].reqs[r].ctrl == Done(Unavailable)
  {
    assert StepAt(c, run, k);
    NeverPastRead(c, run, k, r);
  }

  /** A tick that finds such a pool ends there: the deactivator's next step is no read and no
      write of the scale object. */
  lemma MissingAnnotationEndsTick(c: Config, run: Run, j: nat, k: nat, key: string)
    requires IsRun(c, run) && NextTurn(run, j, k) && run.labels[j] == Deactivator(ReadPool)
    requires run.states[j].store.Some? && key !in run.states[j].store.value.annotations
    requires key in {API_VERSION_KEY, KIND_KEY, NAME_KEY}
    ensures run.labels[k].d == Receive || run.labels[k].d == Cancel
  {
    DeactivatorOrder(c, run, j, k);
  }
}
