/** When the deactivator receives ticks, and what a request released from the guard does. */
module Timing {
  import opened Pools
  import opened Tickers
  import opened System

  lemma {:induction false} TimeGrows(c: Config, run: Run, a: nat, b: nat)
    requires IsRun(c, run) && a <= b < |run.states|
    ensures run.states[a].now <= run.states[b].now
  {
    if a < b {
      TimeGrows(c, run, a, b - 1);
      assert StepAt(c, run, b - 1);
    }
  }

  // ----- Idleness -----

  /** The period the step resets the ticker to, if it resets it. */
  ghost function ResetPeriod(c: Config, s: State, l: Label): Option<int>
    requires Enabled(s, l)
  {
    match l
    case Request(r, Poll) => Some(DEFAULT_SCALE_DOWN_DELAY)
    case Request(r, Rearm) => Some(ScaleDownDelay(c, s.reqs[r].pool))
    case Deactivator(Boot) => Some(DEFAULT_SCALE_DOWN_DELAY)
    case _ => None
  }

  /** The ticker cannot have fired, and will not fire, before `t`. */
  ghost predicate SilentUntil(s: State, t: int) {
    && (s.ticker.running ==> t <= s.ticker.next)
    && (s.ticker.pending ==> t <= s.now)
  }

  lemma SilenceStep(c: Config, s: State, l: Label, t: int)
    requires Enabled(s, l)
    ensures SilentUntil(s, t) && ResetPeriod(c, s, l) == None ==> SilentUntil(Next(c, s, l), t)
    ensures ResetPeriod(c, s, l).Some? && Next(c, s, l).crash == None ==>
              SilentUntil(Next(c, s, l), s.now + ResetPeriod(c, s, l).value)
  {
  }

  /** Until the deactivator stops it, the ticker runs. */
  lemma {:induction false} TickerRuns(c: Config, run: Run, i: nat)
    requires IsRun(c, run) && i < |run.states|
    ensures run.states[i].deact != Stopped ==> run.states[i].ticker.running
    ensures run.states[i].ticker.period > 0
  {
    if i > 0 {
      assert StepAt(c, run, i - 1);
      TickerRuns(c, run, i - 1);
    }
  }

  /** When the latest reset before step `i` was, and to which period. */
  ghost function LatestReset(c: Config, run: Run, i: nat): (int, int)
    requires IsRun(c, run) && i < |run.states|
  {
    if i == 0 then (0, INITIAL_PERIOD) else
    assert StepAt(c, run, i - 1);
    var p := ResetPeriod(c, run.states[i - 1], run.labels[i - 1]);
    if p.Some? then (run.states[i - 1].now, p.value) else LatestReset(c, run, i - 1)
  }

  lemma {:induction false} SilentAfterReset(c: Config, run: Run, i: nat)
    requires IsRun(c, run) && i < |run.states| && run.states[i].crash == None
    ensures SilentUntil(run.states[i], LatestReset(c, run, i).0 + LatestReset(c, run, i).1)
  {
    if i > 0 {
      assert StepAt(c, run, i - 1);
      SilentAfterReset(c, run, i - 1);
      var was := LatestReset(c, run, i - 1);
      SilenceStep(c, run.states[i - 1], run.labels[i - 1], was.0 + was.1);
    }
  }

  /** Idle safety: the deactivator receives a tick no earlier than the latest set period
      after the latest reset. */
  lemma TicksComeAfterIdlePeriod(c: Config, run: Run, i: nat)
    requires IsRun(c, run) && i < |run.labels| && run.labels[i] == Deactivator(Receive)
    ensures run.states[i].now >= LatestReset(c, run, i).0 + LatestReset(c, run, i).1
  {
    assert StepAt(c, run, i);
    SilentAfterReset(c, run, i);
  }

  /** A reset at step `k`, to a period that ends before `t`. */
  ghost predicate ResetsBefore(c: Config, run: Run, k: nat, t: int)
    requires IsRun(c, run) && k < |run.labels|
  {
    && StepAt(c, run, k)
    && ResetPeriod(c, run.states[k], run.labels[k]).Some?
    && run.states[k].now + ResetPeriod(c, run.states[k], run.labels[k]).value < t
  }

  lemma {:induction false} SilentUnlessReset(c: Config, run: Run, i: nat, j: nat, t: int)
    requires IsRun(c, run) && i <= j < |run.states| && run.states[j].crash == None
    requires SilentUntil(run.states[i], t)
    requires forall k: nat :: i <= k < j ==> !ResetsBefore(c, run, k, t)
    ensures SilentUntil(run.states[j], t)
  {
    if i < j {
      assert StepAt(c, run, j - 1);
      SilentUnlessReset(c, run, i, j - 1, t);
      SilenceStep(c, run.states[j - 1], run.labels[j - 1], t);
      assert !ResetsBefore(c, run, j - 1, t);
    }
  }

  /** After a request is let through at step `m` with delay `d`, a tick is received within
      `d` only if some later reset shortened the wait. */
  lemma NoTickWithinDelay(c: Config, run: Run, m: nat, j: nat, r: nat) returns (k: nat)
    requires IsRun(c, run) && m < j < |run.labels|
    requires run.labels[m] == Request(r, Rearm) && run.labels[j] == Deactivator(Receive)
    requires r in run.states[m].reqs
    requires run.states[j].now < run.states[m].now + ScaleDownDelay(c, run.states[m].reqs[r].pool)
    ensures m < k < j
    ensures ResetsBefore(c, run, k, run.states[m].now + ScaleDownDelay(c, run.states[m].reqs[r].pool))
  {
    var t := run.states[m].now + ScaleDownDelay(c, run.states[m].reqs[r].pool);
    assert StepAt(c, run, m) && StepAt(c, run, j) && StepAt(c, run, m + 1);
    if forall k: nat :: m + 1 <= k < j ==> !ResetsBefore(c, run, k, t) {
      SilenceStep(c, run.states[m], run.labels[m], t);
      SilentUnlessReset(c, run, m + 1, j, t);
      assert false;
    }
    k :| m + 1 <= k < j && ResetsBefore(c, run, k, t);
  }

  /** The step touches the ticker: a reset, a firing, a stop. */
  predicate TouchesTicker(l: Label) {
    l.Fire? || (l.Request? && (l.a == Poll || l.a == Rearm)) || l == Deactivator(Boot) || l == Deactivator(Cancel)
  }

  lemma {:induction false} CountdownRuns(c: Config, run: Run, m: nat, i: nat)
    requires IsRun(c, run) && m < i < |run.states| && run.states[m + 1].crash == None
    requires StepAt(c, run, m) && ResetPeriod(c, run.states[m], run.labels[m]).Some?
    requires forall k :: m < k < i ==> !TouchesTicker(run.labels[k])
    ensures var d := ResetPeriod(c, run.states[m], run.labels[m]).value;
            d > 0 && run.states[i].ticker == Ticker(true, d, run.states[m].now + d, false)
  {
    assert StepAt(c, run, i - 1);
    if m < i - 1 {
      CountdownRuns(c, run, m, i - 1);
      assert !TouchesTicker(run.labels[i - 1]);
    }
  }

  /** The countdown is exact: after a request was let through, and nobody has touched the ticker
      since, it can fire if and only if the pool's whole scale-down delay has passed. */
  lemma CountdownExact(c: Config, run: Run, m: nat, i: nat, r: nat)
    requires IsRun(c, run) && m < i < |run.states| && run.states[i].crash == None
    requires run.labels[m] == Request(r, Rearm) && r in run.states[m].reqs
    requires forall k :: m < k < i ==> !TouchesTicker(run.labels[k])
    ensures (exists next :: Enabled(run.states[i], Fire(next))) <==>
            run.states[i].now >= run.states[m].now + ScaleDownDelay(c, run.states[m].reqs[r].pool)
  {
    assert StepAt(c, run, m) && (m + 1 < i ==> StepAt(c, run, m + 1));
    CountdownRuns(c, run, m, i);
    var d := ScaleDownDelay(c, run.states[m].reqs[r].pool);
    if run.states[i].now >= run.states[m].now + d {
      assert Enabled(run.states[i], Fire(run.states[i].now + d));
    }
  }

  /** Polls and the start of the deactivator set it to two minutes, whatever the pool says. */
  lemma DefaultCountdownExact(c: Config, run: Run, m: nat, i: nat)
    requires IsRun(c, run) && m < i < |run.states| && run.states[i].crash == None
    requires run.labels[m] == Deactivator(Boot) || (run.labels[m].Request? && run.labels[m].a == Poll)
    requires forall k :: m < k < i ==> !TouchesTicker(run.labels[k])
    ensures (exists next :: Enabled(run.states[i], Fire(next))) <==>
            run.states[i].now >= run.states[m].now + 120 * SECOND
  {
    assert StepAt(c, run, m) && (m + 1 < i ==> StepAt(c, run, m + 1));
    CountdownRuns(c, run, m, i);
    if run.states[i].now >= run.states[m].now + 120 * SECOND {
      assert Enabled(run.states[i], Fire(run.states[i].now + 120 * SECOND));
    }
  }

  // ----- Requests released from the guard -----

  predicate OnGuardPath(k: Ctrl) {
    k.Parked? || k == Done(Admitted(GuardReleased))
  }

  lemma {:induction false} ReleasedNeverRearms(c: Config, run: Run, i: nat, r: nat)
    requires IsRun(c, run) && i < |run.states|
    ensures r in run.states[i].reqs ==> run.states[i].reqs[r].ctrl != AtRearm(GuardReleased)
  {
    if i > 0 {
      assert StepAt(c, run, i - 1);
      ReqsOfNext(c, run.states[i - 1], run.labels[i - 1]);
      ReleasedNeverRearms(c, run, i - 1, r);
    }
  }

  lemma {:induction false} GuardPathActs(c: Config, run: Run, i: nat, k: nat, r: nat, a: Act)
    requires IsRun(c, run) && k < i < |run.states| && run.labels[k] == Request(r, a)
    requires r in run.states[i].reqs && OnGuardPath(run.states[i].reqs[r].ctrl)
    ensures a in {Check, Unpark}
  {
    assert StepAt(c, run, i - 1) && StepAt(c, run, k);
    ReqsOfNext(c, run.states[i - 1], run.labels[i - 1]);
    ReleasedNeverRearms(c, run, i - 1, r);
    if run.labels[i - 1] == Request(r, Check) {
      NothingBeforeCheck(c, run, i - 1, r);
    } else if k < i - 1 {
      GuardPathActs(c, run, i - 1, k, r, a);
    }
  }

  /** A request that is still to check the guard has done nothing yet. */
  lemma {:induction false} NothingBeforeCheck(c: Config, run: Run, i: nat, r: nat)
    requires IsRun(c, run) && i < |run.states|
    requires r in run.states[i].reqs ==> run.states[i].reqs[r].ctrl.AtCheck?
    ensures forall k: nat, a: Act :: k < i ==> run.labels[k] != Request(r, a)
  {
    if i > 0 {
      assert StepAt(c, run, i - 1);
      ReqsOfNext(c, run.states[i - 1], run.labels[i - 1]);
      NothingBeforeCheck(c, run, i - 1, r);
    }
  }

  /** A request released from the guard makes no scale call, polls nothing and resets no
      ticker in the whole run: its only steps are the check and the release. */
  lemma {:induction false} ReleasedRequestsAreSilent(c: Config, run: Run, u: nat, k: nat, r: nat, a: Act)
    requires IsRun(c, run) && u < |run.labels| && run.labels[u] == Request(r, Unpark)
    requires k < |run.labels| && run.labels[k] == Request(r, a)
    ensures a in {Check, Unpark}
  {
    assert StepAt(c, run, u) && StepAt(c, run, k);
    var i := if k <= u then u + 1 else k;
    StaysReleased(c, run, u, i, r);
    if k <= u {
      GuardPathActs(c, run, u + 1, k, r, a);
    }
  }

  lemma {:induction false} StaysReleased(c: Config, run: Run, u: nat, i: nat, r: nat)
    requires IsRun(c, run) && u < i < |run.states| && run.labels[u] == Request(r, Unpark)
    ensures r in run.states[i].reqs && run.states[i].reqs[r].ctrl == Done(Admitted(GuardReleased))
  {
    assert StepAt(c, run, i - 1);
    ReqsOfNext(c, run.states[i - 1], run.labels[i - 1]);
    if u < i - 1 {
      StaysReleased(c, run, u, i - 1, r);
    }
  }
}
