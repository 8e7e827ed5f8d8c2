/** Two promises that the code keeps only for some pools, and exactly which ones: to answer
    within the timeout of the Envoy filter, and to keep the deactivator off during a scale-up. */
module Exactness {
  import opened Pools
  import opened Reconciling
  import opened System
  import opened Safety
  import opened Ordering
  import opened Waiting
  import opened Witnesses

  // ----- The Envoy timeout -----

  /** At step `i` request `r`, which arrived at step `a`, is still unanswered; it found pool `p`
      and has itself been on time. */
  ghost predicate Unanswered(c: Config, run: Run, a: nat, i: nat, r: nat, p: Pool) {
    && IsRun(c, run) && PromptFor(run, r)
    && a < i < |run.states| && run.labels[a] == Arrive(r)
    && r in run.states[i].reqs && !run.states[i].reqs[r].ctrl.Done? && run.states[i].reqs[r].pool == p
  }

  /** No request that finds pool `p` is held longer than Envoy waits, its scale calls aside. */
  ghost predicate KeepsTimeout(c: Config, p: Pool) {
    forall run: Run, a: nat, i: nat, r: nat ::
      Unanswered(c, run, a, i, r, p) ==> Waited(run, a, i, r) <= ENVOY_MESSAGE_TIMEOUT
  }

  /** The pool reaches requests, and its requests reach the scale object. */
  predicate Served(c: Config, p: Pool) {
    !c.group.OtherGroup? && Annotated(p)
  }

  /** With an unsupported group no request gets past its arrival. */
  lemma {:induction false} UnsupportedStaysOut(c: Config, run: Run, i: nat, r: nat)
    requires IsRun(c, run) && i < |run.states|
    ensures c.group.OtherGroup? ==> run.states[i].store == None
    ensures r in run.states[i].reqs && c.group.OtherGroup? ==> run.states[i].reqs[r].ctrl.Done?
  {
    if i > 0 {
      var s, l := run.states[i - 1], run.labels[i - 1];
      assert StepAt(c, run, i - 1);
      UnsupportedStaysOut(c, run, i - 1, r);
      StoreFollowsFetches(c, run, i);
      if c.group.OtherGroup? {
        CacheKeptWithoutConclusive(c.group, None, Fetches(run.labels, i));
      }
      ReqsOfNext(c, s, l);
    }
  }

  lemma KeptWhenShort(c: Config, run: Run, a: nat, i: nat, r: nat, p: Pool)
    requires Unanswered(c, run, a, i, r, p)
    requires Served(c, p) ==> GracePeriod(c, p) <= 55 * SECOND
    ensures Waited(run, a, i, r) <= ENVOY_MESSAGE_TIMEOUT
  {
    LongestWait(c, run, a, i, r);
    UnsupportedStaysOut(c, run, i, r);
    if !Annotated(p) {
      NeverPastRead(c, run, i, r);
    }
    WaitedStaysOk(c, run, a, i, r);
  }

  /** The Envoy timeout: every request that finds pool `p` is answered within it, its scale
      calls aside, if and only if the pool's grace period is at most 55 s (or the pool is not
      served at all). The default of 60 s is too long. */
  lemma TimeoutKeptIffShortGrace(c: Config, p: Pool)
    ensures KeepsTimeout(c, p) <==> (Served(c, p) ==> GracePeriod(c, p) <= 55 * SECOND)
  {
    if Served(c, p) ==> GracePeriod(c, p) <= 55 * SECOND {
      forall run: Run, a: nat, i: nat, r: nat | Unanswered(c, run, a, i, r, p)
        ensures Waited(run, a, i, r) <= ENVOY_MESSAGE_TIMEOUT
      {
        KeptWhenShort(c, run, a, i, r, p);
      }
    } else {
      var run := LongestWaitAttained(c, p, 1);
      assert PromptFor(run, 0);
      assert Unanswered(c, run, 1, |run.labels|, 0, p);
    }
  }

  // ----- The quiet window -----

  /** If no reset during a scale-up is to less than `d`, then no tick is received from a poll of
      the scale-up to its end. */
  ghost predicate SafePeriod(c: Config, d: int) {
    forall run: Run, i: nat, j: nat, r: nat ::
      QuietCase(c, run, i, j, r, d) ==> NoTickIn(run, i, j)
  }

  ghost predicate QuietCase(c: Config, run: Run, i: nat, j: nat, r: nat, d: int) {
    IsRun(c, run) && PromptFor(run, r) && SpanAbove(c, run, i, j, r, d)
  }

  ghost predicate NoTickIn(run: Run, i: nat, j: nat) {
    forall k: nat :: i <= k < j && k < |run.labels| ==> run.labels[k] != Deactivator(Receive)
  }

  lemma SpanAboveLess(c: Config, run: Run, i: nat, j: nat, r: nat, d: int)
    requires IsRun(c, run) && SpanAbove(c, run, i, j, r, d) && d > QUIET
    ensures SpanAbove(c, run, i, j, r, QUIET + 1)
  {
    var e := QUIET + 1;
    forall k: nat | i <= k < j
      ensures !ResetsBelow(c, run, k, e)
    {
      assert !ResetsBelow(c, run, k, d);
    }
  }

  /** The quiet window: a scale-down delay leaves scale-ups undisturbed if and only if it is
      above 64 s. */
  lemma DelaySafeIffAbove64(c: Config, p: Pool)
    requires Served(c, p) && ScaleDownDelay(c, p) > 0
    ensures SafePeriod(c, ScaleDownDelay(c, p)) <==> ScaleDownDelay(c, p) > QUIET
  {
    var d := ScaleDownDelay(c, p);
    if d > QUIET {
      forall run: Run, i: nat, j: nat, r: nat | QuietCase(c, run, i, j, r, d)
        ensures NoTickIn(run, i, j)
      {
        SpanAboveLess(c, run, i, j, r, d);
        NoTickDuringScaleUp(c, run, i, j, r);
      }
    } else {
      var run := TickWithinQuiet(c, p);
      assert PromptFor(run, 0) && QuietCase(c, run, 10, |run.labels|, 0, d);
      assert !NoTickIn(run, 10, |run.labels|);
    }
  }
}
