/** Guard invariants, overlapping scale-ups and crash freedom, over every run. */
module Safety {
  import opened Pools
  import opened Guards
  import opened Reconciling
  import opened System

  // ----- The guard -----

  ghost predicate GuardOk(s: State) {
    && s.guard.Valid()
    && (forall r :: r in s.reqs && s.reqs[r].ctrl.Parked? ==>
          s.reqs[r].ctrl.guard.Some? && s.reqs[r].ctrl.guard.value < s.guard.made)
  }

  lemma GuardOkStep(c: Config, s: State, l: Label)
    requires GuardOk(s) && Enabled(s, l)
    ensures GuardOk(Next(c, s, l))
  {
    var t := Next(c, s, l);
    BeginValid(s.guard);
    if s.guard.current.Some? {
      EndValid(s.guard);
    }
    assert t.guard.made >= s.guard.made;
    forall r | r in t.reqs && t.reqs[r].ctrl.Parked?
      ensures t.reqs[r].ctrl.guard.Some? && t.reqs[r].ctrl.guard.value < t.guard.made
    {
      assert r in s.reqs;
      if !s.reqs[r].ctrl.Parked? {
        assert l == Request(r, Check);
        assert s.guard.current.value in s.guard.closed + s.guard.dropped + s.guard.Current();
      }
    }
  }

  /** In every reachable state, overlapping scale-ups or not: the flag holds exactly when
      there is a current channel, that channel is open, a captured channel is never nil,
      and the channels made are the closed, the dropped and the current ones. */
  lemma {:induction false} GuardInvariant(c: Config, run: Run, i: nat)
    requires IsRun(c, run) && i < |run.states|
    ensures GuardOk(run.states[i])
  {
    if i > 0 {
      GuardInvariant(c, run, i - 1);
      assert StepAt(c, run, i - 1);
      GuardOkStep(c, run.states[i - 1], run.labels[i - 1]);
    }
  }

  // ----- Overlapping scale-ups -----

  /** Between `beginScalingUp` and the deferred `endScalingUp`. */
  predicate InScaleUp(k: Ctrl) {
    || k.AtUpdate? || k.Sleeping? || k.AtEnd?
    || ((k.PollWait? || k.PollGet?) && k.window == ScaleUp)
  }

  ghost function Scaling(s: State): set<nat> {
    set r | r in s.reqs && InScaleUp(s.reqs[r].ctrl)
  }

  ghost predicate Overlaps(s: State, l: Label) {
    l.Request? && l.a == Begin && Scaling(s) != {}
  }

  lemma InScaleUpMove(c: Config, s: State, q: Req, a: Act)
    requires CanAct(s, q, a)
    ensures a == Begin ==> !InScaleUp(q.ctrl)
    ensures a == End ==> InScaleUp(q.ctrl)
    ensures InScaleUp(ActMove(c, s, q, a).req.ctrl) <==> a == Begin || (InScaleUp(q.ctrl) && a != End)
  {
  }

  lemma ScalingStep(c: Config, s: State, l: Label)
    requires Enabled(s, l)
    ensures l.Request? && l.a == Begin ==> l.r !in Scaling(s) && Scaling(Next(c, s, l)) == Scaling(s) + {l.r}
    ensures l.Request? && l.a == End ==> l.r in Scaling(s) && Scaling(Next(c, s, l)) == Scaling(s) - {l.r}
    ensures !(l.Request? && (l.a == Begin || l.a == End)) ==> Scaling(Next(c, s, l)) == Scaling(s)
  {
    ReqsOfNext(c, s, l);
    if l.Request? {
      InScaleUpMove(c, s, s.reqs[l.r], l.a);
    }
  }

  ghost predicate Conserved(s: State) {
    |Scaling(s)| == |s.guard.dropped| + |s.guard.Current()|
  }

  lemma ConservedStep(c: Config, s: State, l: Label)
    requires GuardOk(s) && Conserved(s) && Enabled(s, l)
    ensures Next(c, s, l).crash == None ==> Conserved(Next(c, s, l))
    ensures s.guard.dropped <= Next(c, s, l).guard.dropped
    ensures Overlaps(s, l) ==> Next(c, s, l).guard.dropped != {}
    ensures Next(c, s, l).guard.dropped != s.guard.dropped ==> Overlaps(s, l)
    ensures Next(c, s, l).crash == Some(CloseOfNil) ==> s.guard.dropped != {}
  {
    ScalingStep(c, s, l);
    GuardOfNext(c, s, l);
    Bookkeeping(s.guard, Scaling(s), if l.Request? then l.r else 0);
  }

  /** What a begin and an end do to the two sides of the balance. */
  lemma Bookkeeping(g: Guard, scaling: set<nat>, r: nat)
    requires g.Valid() && |scaling| == |g.dropped| + |g.Current()|
    ensures r !in scaling ==> |scaling + {r}| == |g.Begin().dropped| + |g.Begin().Current()|
    ensures scaling != {} ==> g.Begin().dropped != {}
    ensures scaling == {} ==> g.Begin().dropped == g.dropped
    ensures r in scaling && g.current == None ==> g.dropped != {}
    ensures r in scaling && g.current.Some? ==> |scaling - {r}| == |g.End().dropped| + |g.End().Current()|
  {
    if g.current.Some? {
      assert g.Begin().dropped == g.dropped + {g.current.value} && g.current.value in g.Current();
    }
    if g.dropped == {} && r in scaling {
      assert scaling != {};
    }
  }

  /** Conservation: every scale-up in flight owns either the current channel or a channel
      that a later begin has dropped. */
  lemma {:induction false} ScaleUpsConserved(c: Config, run: Run, i: nat)
    requires IsRun(c, run) && i < |run.states|
    ensures run.states[i].crash == None ==> Conserved(run.states[i])
  {
    if i == 0 {
      assert Scaling(run.states[0]) == {};
    } else {
      assert StepAt(c, run, i - 1);
      ScaleUpsConserved(c, run, i - 1);
      GuardInvariant(c, run, i - 1);
      ConservedStep(c, run.states[i - 1], run.labels[i - 1]);
    }
  }

  ghost predicate OverlapBefore(run: Run, j: nat)
    requires j <= |run.labels| < |run.states|
  {
    exists i: nat :: i < j && Overlaps(run.states[i], run.labels[i])
  }

  /** Two scale-ups have overlapped exactly when some channel has been dropped. */
  lemma {:induction false} OverlapIffDropped(c: Config, run: Run, j: nat)
    requires IsRun(c, run) && j < |run.states|
    ensures OverlapBefore(run, j) <==> run.states[j].guard.dropped != {}
  {
    if j > 0 {
      assert StepAt(c, run, j - 1);
      OverlapIffDropped(c, run, j - 1);
      ScaleUpsConserved(c, run, j - 1);
      GuardInvariant(c, run, j - 1);
      ConservedStep(c, run.states[j - 1], run.labels[j - 1]);
    }
  }

  /** Once two scale-ups have overlapped, no continuation settles: as long as the process has
      not closed a nil channel, some scale-up is still in flight. */
  lemma OverlapNeverSettles(c: Config, run: Run, j: nat)
    requires IsRun(c, run) && j < |run.states|
    requires OverlapBefore(run, j)
    ensures run.states[j].crash == Some(CloseOfNil) || Scaling(run.states[j]) != {}
  {
    OverlapIffDropped(c, run, j);
    ScaleUpsConserved(c, run, j);
    if run.states[j].crash.Some? && run.states[j].crash != Some(CloseOfNil) {
      var s, l := run.states[j - 1], run.labels[j - 1];
      assert StepAt(c, run, j - 1);
      GuardOfNext(c, s, l);
      ScalingStep(c, s, l);
      ScaleUpsConserved(c, run, j - 1);
    }
  }

  /** When every scale-up has ended, a nil channel has been closed if and only if two of them
      had overlapped. */
  lemma CloseOfNilIffOverlap(c: Config, run: Run, j: nat)
    requires IsRun(c, run) && j < |run.states| && Scaling(run.states[j]) == {}
    ensures run.states[j].crash == Some(CloseOfNil) <==> OverlapBefore(run, j)
  {
    SettledRunsNeverOverlapped(c, run, j);
    if OverlapBefore(run, j) {
      OverlapNeverSettles(c, run, j);
    }
  }

  /** A run closes a nil channel only after an overlap, and a run in which every scale-up
      has ended without a crash had none; in it every channel made was closed. */
  lemma SettledRunsNeverOverlapped(c: Config, run: Run, j: nat)
    requires IsRun(c, run) && j < |run.states|
    ensures run.states[j].crash == None && Scaling(run.states[j]) == {} ==>
              && !OverlapBefore(run, j)
              && !run.states[j].guard.scalingUp
              && (forall x: nat :: x in run.states[j].guard.closed <==> x < run.states[j].guard.made)
    ensures run.states[j].crash == Some(CloseOfNil) ==> OverlapBefore(run, j)
  {
    var s := run.states[j];
    OverlapIffDropped(c, run, j);
    GuardInvariant(c, run, j);
    ScaleUpsConserved(c, run, j);
    if s.crash == None && Scaling(s) == {} {
      assert s.guard.closed + s.guard.dropped + s.guard.Current() == s.guard.closed;
    }
    if s.crash == Some(CloseOfNil) {
      assert j > 0 && StepAt(c, run, j - 1);
      ScaleUpsConserved(c, run, j - 1);
      GuardInvariant(c, run, j - 1);
      ConservedStep(c, run.states[j - 1], run.labels[j - 1]);
    }
  }

  function OpOf(l: Label): seq<GuardOp> {
    if l.Request? && l.a == Begin then [BeginOp] else if l.Request? && l.a == End then [EndOp] else []
  }

  /** The begins and ends among the first `i` labels, in order. */
  ghost function GuardOps(labels: seq<Label>, i: nat): seq<GuardOp>
    requires i <= |labels|
  {
    if i == 0 then [] else GuardOps(labels, i - 1) + OpOf(labels[i - 1])
  }

  ghost predicate Tracks(ops: seq<GuardOp>, s: State) {
    After(ops) == Some(s.guard) && InFlight(ops) == |Scaling(s)|
  }

  lemma TracksStep(c: Config, s: State, l: Label, ops: seq<GuardOp>)
    requires Enabled(s, l) && Next(c, s, l).crash == None && Tracks(ops, s)
    ensures Tracks(ops + OpOf(l), Next(c, s, l))
  {
    ScalingStep(c, s, l);
    GuardOfNext(c, s, l);
    if OpOf(l) == [] {
      assert ops + OpOf(l) == ops;
    } else {
      assert (ops + OpOf(l))[..|ops|] == ops;
    }
  }

  /** The guard of a run is the guard after its begins and ends, and the scale-ups in flight
      are the begins without an end. */
  lemma {:induction false} RunFollowsGuardOps(c: Config, run: Run, i: nat)
    requires IsRun(c, run) && i < |run.states| && run.states[i].crash == None
    ensures Tracks(GuardOps(run.labels, i), run.states[i])
  {
    if i == 0 {
      assert Scaling(run.states[0]) == {};
    } else {
      assert StepAt(c, run, i - 1);
      RunFollowsGuardOps(c, run, i - 1);
      TracksStep(c, run.states[i - 1], run.labels[i - 1], GuardOps(run.labels, i - 1));
    }
  }

  /** In a run whose scale-ups have all ended without a crash, begins and ends alternate. */
  lemma SettledRunsAlternate(c: Config, run: Run, i: nat)
    requires IsRun(c, run) && i < |run.states|
    requires run.states[i].crash == None && Scaling(run.states[i]) == {}
    ensures Alternates(GuardOps(run.labels, i))
  {
    RunFollowsGuardOps(c, run, i);
    BalancedSafeIffAlternates(GuardOps(run.labels, i));
  }

  // ----- Crash freedom -----

  /** The four things the code does not guard against. */
  datatype Hazard = Overlap | EmptyStore | BadDelay | MissingStatus

  ghost predicate Exhibits(c: Config, s: State, l: Label, h: Hazard) {
    match h
    case Overlap => Overlaps(s, l)
    case EmptyStore => l == Deactivator(ReadPool) && s.store == None
    case BadDelay =>
      && l.Reconcile? && Conclusive(c.group, l.f)
      && Reported(c.group, l.f).Some? && ScaleDownDelay(c, Reported(c.group, l.f).value) <= 0
    case MissingStatus => l.Request? && l.a == Observe(NoStatusMap)
  }

  ghost predicate Avoids(c: Config, run: Run, h: Hazard)
    requires |run.labels| <= |run.states|
  {
    forall i: nat :: i < |run.labels| ==> !Exhibits(c, run.states[i], run.labels[i], h)
  }

  /** Every pool in the store or held by a request has a positive scale-down delay. */
  ghost predicate DelaysOk(c: Config, s: State) {
    && (s.store.Some? ==> ScaleDownDelay(c, s.store.value) > 0)
    && (forall r :: r in s.reqs ==> ScaleDownDelay(c, s.reqs[r].pool) > 0)
  }

  lemma PoolKept(c: Config, s: State, l: Label, r: nat)
    requires Enabled(s, l) && r in Next(c, s, l).reqs
    ensures r in s.reqs ==> Next(c, s, l).reqs[r].pool == s.reqs[r].pool
    ensures r !in s.reqs ==> Next(c, s, l).reqs[r] == Arrival(s.store)
  {
    ReqsOfNext(c, s, l);
  }

  lemma StoreDelayStep(c: Config, s: State, l: Label)
    requires DelaysOk(c, s) && Enabled(s, l) && !Exhibits(c, s, l, BadDelay)
    ensures Next(c, s, l).store.Some? ==> ScaleDownDelay(c, Next(c, s, l).store.value) > 0
    ensures Next(c, s, l).crash != Some(BadPeriod)
  {
  }

  lemma DelaysOkStep(c: Config, s: State, l: Label)
    requires DelaysOk(c, s) && Enabled(s, l) && !Exhibits(c, s, l, BadDelay)
    ensures DelaysOk(c, Next(c, s, l))
    ensures Next(c, s, l).crash != Some(BadPeriod)
  {
    var t := Next(c, s, l);
    StoreDelayStep(c, s, l);
    forall r | r in t.reqs
      ensures ScaleDownDelay(c, t.reqs[r].pool) > 0
    {
      PoolKept(c, s, l, r);
    }
  }

  lemma CrashCause(c: Config, s: State, l: Label, k: Crash)
    requires Enabled(s, l) && Next(c, s, l).crash == Some(k)
    ensures k == NilPool ==> Exhibits(c, s, l, EmptyStore)
    ensures k == StatusNotMap ==> Exhibits(c, s, l, MissingStatus)
  {
    assert EffectOf(c, s, l).Panic? || EffectOf(c, s, l).EndUp? || EffectOf(c, s, l).ResetTo?;
  }

  lemma {:induction false} DelaysStayOk(c: Config, run: Run, i: nat)
    requires IsRun(c, run) && i < |run.states| && Avoids(c, run, BadDelay)
    ensures DelaysOk(c, run.states[i])
    ensures run.states[i].crash != Some(BadPeriod)
  {
    if i > 0 {
      DelaysStayOk(c, run, i - 1);
      assert StepAt(c, run, i - 1);
      DelaysOkStep(c, run.states[i - 1], run.labels[i - 1]);
    }
  }

  function HazardBehind(k: Crash): Hazard {
    match k
    case CloseOfNil => Overlap
    case NilPool => EmptyStore
    case BadPeriod => BadDelay
    case StatusNotMap => MissingStatus
  }

  /** A run that crashes has shown the hazard behind that kind of crash. */
  lemma CrashShowsHazard(c: Config, run: Run, i: nat)
    requires IsRun(c, run) && i < |run.states| && run.states[i].crash.Some?
    ensures !Avoids(c, run, HazardBehind(run.states[i].crash.value))
  {
    var k := run.states[i].crash.value;
    assert StepAt(c, run, i - 1);
    CrashCause(c, run.states[i - 1], run.labels[i - 1], k);
    if k == CloseOfNil {
      SettledRunsNeverOverlapped(c, run, i);
      var j: nat :| j < i && Overlaps(run.states[j], run.labels[j]);
      assert Exhibits(c, run.states[j], run.labels[j], Overlap);
    } else if k == BadPeriod && Avoids(c, run, BadDelay) {
      DelaysStayOk(c, run, i);
    }
  }

  /** Crash freedom: no run that avoids the four hazards ever crashes, whatever the number of
      requests and however they interleave. */
  lemma CrashFreedom(c: Config, run: Run, i: nat)
    requires IsRun(c, run) && i < |run.states|
    requires forall h :: Avoids(c, run, h)
    ensures run.states[i].crash == None
  {
    if run.states[i].crash.Some? {
      CrashShowsHazard(c, run, i);
    }
  }

  // ----- The cached pool -----

  /** What the reconciler fetched in the first `i` steps. */
  ghost function Fetches(labels: seq<Label>, i: nat): seq<Fetch>
    requires i <= |labels|
  {
    if i == 0 then [] else
    Fetches(labels, i - 1) + if labels[i - 1].Reconcile? then [labels[i - 1].f] else []
  }

  lemma StoreOfNext(c: Config, s: State, l: Label)
    requires Enabled(s, l)
    ensures Next(c, s, l).store == if l.Reconcile? then Reconciled(c.group, s.store, l.f) else s.store
  {
  }

  lemma FetchesOneMore(labels: seq<Label>, i: nat, g: Group)
    requires 0 < i <= |labels|
    ensures CacheAfter(g, None, Fetches(labels, i)) ==
            var before := CacheAfter(g, None, Fetches(labels, i - 1));
            if labels[i - 1].Reconcile? then Reconciled(g, before, labels[i - 1].f) else before
  {
    var before, now := Fetches(labels, i - 1), Fetches(labels, i);
    if labels[i - 1].Reconcile? {
      assert now[..|now| - 1] == before;
    } else {
      assert now == before;
    }
  }

  /** In every run the cache is what the history of fetches makes it, whatever the requests
      and the deactivator do meanwhile. */
  lemma {:induction false} StoreFollowsFetches(c: Config, run: Run, i: nat)
    requires IsRun(c, run) && i < |run.states|
    ensures run.states[i].store == CacheAfter(c.group, None, Fetches(run.labels, i))
  {
    if i > 0 {
      assert StepAt(c, run, i - 1);
      StoreFollowsFetches(c, run, i - 1);
      StoreOfNext(c, run.states[i - 1], run.labels[i - 1]);
      FetchesOneMore(run.labels, i, c.group);
    }
  }

  /** From one conclusive fetch to the next the store holds what that fetch found, so a request
      that arrives after a deletion finds no pool. */
  lemma {:induction false} StoreSinceFetch(c: Config, run: Run, k: nat, i: nat)
    requires IsRun(c, run) && k < i < |run.states|
    requires run.labels[k].Reconcile? && Conclusive(c.group, run.labels[k].f)
    requires forall m :: k < m < i && run.labels[m].Reconcile? ==> !Conclusive(c.group, run.labels[m].f)
    ensures run.states[i].store == None <==> run.labels[k].f == Missing || run.labels[k].f.deleting
    ensures run.states[i].store.Some? ==>
              run.states[i].store == if c.group == V1 then Some(run.labels[k].f.original) else run.labels[k].f.converted
  {
    assert StepAt(c, run, i - 1);
    StoreOfNext(c, run.states[i - 1], run.labels[i - 1]);
    if k < i - 1 {
      StoreSinceFetch(c, run, k, i - 1);
    }
  }
}
