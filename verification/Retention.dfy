/** What a request that waited on the guard may rely on when it is released. */
module Retaining {
  import opened Pools
  import opened System
  import opened Safety
  import opened Writing
  import opened Admission
  import opened Timing

  /** Channel `g` was made by request `q` at step `b`. */
  ghost predicate MadeBy(run: Run, b: nat, q: nat, g: nat)
    requires b < |run.labels| < |run.states|
  {
    run.labels[b] == Request(q, Begin) && run.states[b].guard.made == g
  }

  /** The maker of the current channel is still scaling up. */
  lemma {:induction false} CurrentHasMaker(c: Config, run: Run, i: nat, g: nat) returns (q: nat, b: nat)
    requires IsRun(c, run) && i < |run.states| && run.states[i].guard.current == Some(g)
    ensures b < i && MadeBy(run, b, q, g)
    ensures q in Scaling(run.states[i])
  {
    var s, l := run.states[i - 1], run.labels[i - 1];
    assert StepAt(c, run, i - 1);
    GuardOfNext(c, s, l);
    ScalingStep(c, s, l);
    if l.Request? && l.a == Begin {
      q, b := l.r, i - 1;
    } else {
      q, b := CurrentHasMaker(c, run, i - 1, g);
    }
  }

  /** Channel `g` was closed at step `e` by the end of request `q`. */
  ghost predicate ClosedBy(run: Run, e: nat, q: nat, g: nat)
    requires e < |run.labels| < |run.states|
  {
    run.labels[e] == Request(q, End) && run.states[e].guard.current == Some(g)
  }

  lemma {:induction false} ClosedHasCloser(c: Config, run: Run, i: nat, g: nat) returns (x: nat, e: nat)
    requires IsRun(c, run) && i < |run.states| && g in run.states[i].guard.closed
    ensures e < i && ClosedBy(run, e, x, g)
  {
    var s, l := run.states[i - 1], run.labels[i - 1];
    assert StepAt(c, run, i - 1);
    GuardOfNext(c, s, l);
    if g in s.guard.closed {
      x, e := ClosedHasCloser(c, run, i - 1, g);
    } else {
      x, e := l.r, i - 1;
    }
  }

  /** A scale-up that ended ready saw the pods ready at some step, and slept since. */
  lemma {:induction false} ReadySince(c: Config, run: Run, i: nat, q: nat) returns (o: nat)
    requires IsRun(c, run) && i < |run.states| && q in run.states[i].reqs
    requires run.states[i].reqs[q].ctrl.Sleeping? || run.states[i].reqs[q].ctrl == AtEnd(true)
    ensures o < i && Settles(run.states[o], run.labels[o], q, ScaledUp)
    ensures run.states[i].reqs[q].ctrl.Sleeping? ==>
              run.states[i].reqs[q].ctrl.until == run.states[o].now + RETENTION
    ensures run.states[i].reqs[q].ctrl.AtEnd? ==> run.states[o].now + RETENTION <= run.states[i].now
  {
    var s, l := run.states[i - 1], run.labels[i - 1];
    assert StepAt(c, run, i - 1);
    ReqsOfNext(c, s, l);
    if l.Request? && l.r == q && l.a.Observe? {
      o := i - 1;
    } else {
      o := ReadySince(c, run, i - 1, q);
    }
  }

  /** Retention: with no overlap so far, a waiter released because its channel was closed leaves
      after the very scale-up it waited for has ended, and if that scale-up succeeded, at
      least five seconds after the new pods were seen ready. */
  lemma ReleasedAfterRetention(c: Config, run: Run, k: nat, w: nat, g: nat) returns (q: nat, b: nat, e: nat)
    requires IsRun(c, run) && k < |run.labels| && !OverlapBefore(run, k)
    requires run.labels[k] == Request(w, Unpark) && w in run.states[k].reqs
    requires run.states[k].reqs[w].ctrl.Parked? && run.states[k].reqs[w].ctrl.guard == Some(g)
    requires g in run.states[k].guard.closed
    ensures b < e < k && MadeBy(run, b, q, g) && ClosedBy(run, e, q, g)
    ensures q in run.states[e].reqs && run.states[e].reqs[q].ctrl.AtEnd?
    ensures run.states[e].reqs[q].ctrl.ready ==>
              exists o: nat :: o < e && Settles(run.states[o], run.labels[o], q, ScaledUp)
                               && run.states[o].now + RETENTION <= run.states[k].now
  {
    var x;
    x, e := ClosedHasCloser(c, run, k, g);
    q, b := CurrentHasMaker(c, run, e, g);
    assert StepAt(c, run, e);
    ScalingStep(c, run.states[e], run.labels[e]);
    AtMostOneInFlight(c, run, e, q, x);
    if run.states[e].reqs[q].ctrl.ready {
      var o := ReadySince(c, run, e, q);
      TimeGrows(c, run, e, k);
    }
  }
}
