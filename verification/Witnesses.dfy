/** Concrete runs that show which hypotheses of the safety and timing theorems are needed and
    that the bounds on time and on polls are attained. */
module Witnesses {
  import opened Pools
  import opened Tickers
  import opened Guards
  import opened Reconciling
  import opened System
  import opened Safety
  import opened Timing
  import opened Waiting
  import opened Retaining

  // ----- Building runs step by step -----

  ghost function Started(spec: int): Run {
    Run([Init(spec)], [])
  }

  ghost predicate Good(c: Config, run: Run) {
    IsRun(c, run) && Last(run).crash == None
  }

  ghost predicate SameStart(run: Run, next: Run) {
    |run.states| > 0 && |next.states| > 0 && run.states[0] == next.states[0]
  }

  /** A run is determined by its first state and its labels. */
  lemma {:induction false} Determined(c: Config, run: Run, next: Run, k: nat)
    requires IsRun(c, run) && IsRun(c, next) && SameStart(run, next)
    requires k <= |run.labels| <= |next.labels| && next.labels[..k] == run.labels[..k]
    ensures run.states[k] == next.states[k]
  {
    if k > 0 {
      assert next.labels[..k - 1] == next.labels[..k][..k - 1] == run.labels[..k - 1];
      assert next.labels[k - 1] == next.labels[..k][k - 1] == run.labels[k - 1];
      Determined(c, run, next, k - 1);
      assert StepAt(c, run, k - 1) && StepAt(c, next, k - 1);
    }
  }

  /** Every request is on time throughout. */
  ghost predicate Prompt(run: Run)
    requires |run.labels| <= |run.states|
  {
    forall r :: PromptFor(run, r)
  }

  /** Time passes only while no request is late and none is in a scale call. */
  ghost predicate BriskStep(s: State, l: Label) {
    l.Advance? ==> forall r :: r in s.reqs ==>
      OnTime(s.reqs[r].ctrl, s.now, l.dt) && !s.reqs[r].ctrl.AtGet? && !s.reqs[r].ctrl.AtUpdate?
  }

  ghost predicate Brisk(run: Run)
    requires |run.labels| <= |run.states|
  {
    forall i: nat :: i < |run.labels| ==> BriskStep(run.states[i], run.labels[i])
  }

  lemma {:induction false} BriskWaited(run: Run, a: nat, i: nat, r: nat)
    requires a < i < |run.states| == |run.labels| + 1 && Brisk(run)
    ensures Waited(run, a, i, r) == run.states[i].now - run.states[a + 1].now
  {
    if i > a + 1 {
      BriskWaited(run, a, i - 1, r);
      assert BriskStep(run.states[i - 1], run.labels[i - 1]);
    }
  }

  /** One more step. The hazards and the promptness of the longer run are those of the
      shorter one and of the step. */
  lemma Then(c: Config, run: Run, l: Label) returns (next: Run)
    requires IsRun(c, run) && Enabled(Last(run), l)
    ensures IsRun(c, next) && Last(next) == Next(c, Last(run), l)
    ensures next.labels == run.labels + [l] && SameStart(run, next)
    ensures forall h :: Avoids(c, next, h) <==> Avoids(c, run, h) && !Exhibits(c, Last(run), l, h)
    ensures Prompt(run) && (forall r :: PromptStep(Last(run), l, r)) ==> Prompt(next)
    ensures Brisk(run) && BriskStep(Last(run), l) ==> Brisk(next)
  {
    next := Run(run.states + [Next(c, Last(run), l)], run.labels + [l]);
    var n := |run.labels|;
    forall i: nat | i < |next.labels|
      ensures StepAt(c, next, i)
    {
      assert i < n ==> StepAt(c, run, i);
    }
    assert next.states[n] == Last(run) && next.labels[n] == l;
    if Prompt(run) && (forall r :: PromptStep(Last(run), l, r)) {
      forall r
        ensures PromptFor(next, r)
      {
        assert PromptFor(run, r);
      }
    }
    forall h
      ensures Avoids(c, next, h) <==> Avoids(c, run, h) && !Exhibits(c, Last(run), l, h)
    {
      if Avoids(c, next, h) {
        assert forall i: nat :: i < n ==> next.states[i] == run.states[i] && next.labels[i] == run.labels[i];
      }
    }
  }

  /** `next` continues `run` without any hazard, and promptly. */
  ghost predicate Tidy(c: Config, run: Run, next: Run)
    requires |run.labels| <= |run.states| && |next.labels| <= |next.states|
  {
    && (forall h :: Avoids(c, run, h) ==> Avoids(c, next, h))
    && (Prompt(run) ==> Prompt(next))
    && (Brisk(run) ==> Brisk(next))
  }

  /** One more step that shows no hazard. */
  lemma Calmly(c: Config, run: Run, l: Label) returns (next: Run)
    requires IsRun(c, run) && Enabled(Last(run), l) && BriskStep(Last(run), l)
    requires forall h :: !Exhibits(c, Last(run), l, h)
    ensures IsRun(c, next) && Last(next) == Next(c, Last(run), l)
    ensures Tidy(c, run, next) && SameStart(run, next) && next.labels == run.labels + [l]
  {
    next := Then(c, run, l);
  }

  /** A step of a request that shows no hazard. */
  lemma Acts(c: Config, run: Run, r: nat, a: Act, q: Req, e: Effect) returns (next: Run)
    requires Good(c, run) && r in Last(run).reqs && CanAct(Last(run), Last(run).reqs[r], a)
    requires a != Begin && a != Observe(NoStatusMap)
    requires ActMove(c, Last(run), Last(run).reqs[r], a) == Move(q, e)
    ensures IsRun(c, next) && Tidy(c, run, next) && SameStart(run, next) && next.labels == run.labels + [Request(r, a)]
    ensures Last(next) == Apply(Last(run).(reqs := Last(run).reqs[r := q]), e)
  {
    next := Calmly(c, run, Request(r, a));
  }

  lemma Deacts(c: Config, run: Run, d: DAct, k: DCtrl, e: Effect) returns (next: Run)
    requires Good(c, run) && CanDeact(Last(run), d) && (d == ReadPool ==> Last(run).store.Some?)
    requires DeactMove(Last(run), d) == DMove(k, e)
    ensures IsRun(c, next) && Tidy(c, run, next) && SameStart(run, next) && next.labels == run.labels + [Deactivator(d)]
    ensures Last(next) == Apply(Last(run).(deact := k), e)
  {
    next := Calmly(c, run, Deactivator(d));
  }

  lemma Begins(c: Config, run: Run, r: nat) returns (next: Run)
    requires Good(c, run) && r in Last(run).reqs && Last(run).reqs[r].ctrl == AtBegin
    ensures Good(c, next) && next.labels == run.labels + [Request(r, Begin)] && SameStart(run, next)
    ensures Scaling(Last(run)) == {} ==> Tidy(c, run, next)
    ensures forall h :: h != Overlap && Avoids(c, run, h) ==> Avoids(c, next, h)
    ensures Last(next) == Last(run).(guard := Last(run).guard.Begin(),
                                     reqs := Last(run).reqs[r := Last(run).reqs[r].(ctrl := AtUpdate)])
  {
    next := Then(c, run, Request(r, Begin));
  }

  lemma Passes(c: Config, run: Run, dt: int) returns (next: Run)
    requires Good(c, run) && dt > 0
    requires BriskStep(Last(run), Advance(dt))
    ensures Good(c, next) && Tidy(c, run, next) && SameStart(run, next) && next.labels == run.labels + [Advance(dt)]
    ensures Last(next) == Last(run).(now := Last(run).now + dt)
  {
    next := Calmly(c, run, Advance(dt));
  }

  /** Time passes while some request is in a scale call. */
  lemma PassesInCall(c: Config, run: Run, dt: int) returns (next: Run)
    requires Good(c, run) && dt > 0 && forall r :: PromptStep(Last(run), Advance(dt), r)
    ensures Good(c, next) && SameStart(run, next) && next.labels == run.labels + [Advance(dt)]
    ensures forall h :: Avoids(c, run, h) ==> Avoids(c, next, h)
    ensures Prompt(run) ==> Prompt(next)
    ensures Last(next) == Last(run).(now := Last(run).now + dt)
  {
    next := Then(c, run, Advance(dt));
  }

  lemma Fires(c: Config, run: Run, next: int) returns (after: Run)
    requires Good(c, run) && Last(run).ticker.CanFire(Last(run).now, next)
    ensures Good(c, after) && Tidy(c, run, after) && SameStart(run, after) && after.labels == run.labels + [Fire(next)]
    ensures Last(after) == Last(run).(ticker := Last(run).ticker.Fire(next))
  {
    after := Calmly(c, run, Fire(next));
  }

  /** A pool with the required annotations and the default durations. */
  predicate IsPlain(c: Config, p: Pool) {
    Annotated(p) && GracePeriod(c, p) == DEFAULT_GRACE && ScaleDownDelay(c, p) == DEFAULT_SCALE_DOWN_DELAY
  }

  /** There is one. */
  lemma PlainPool(c: Config) returns (p: Pool)
    ensures IsPlain(c, p)
  {
    p := Pool("pool", "default", map[API_VERSION_KEY := "apps/v1", KIND_KEY := "Deployment", NAME_KEY := "model"]);
    assert API_VERSION_KEY[19] == 't' && KIND_KEY[19] == 't' && NAME_KEY[19] == 't';
    assert GRACE_KEY[19] == 's' && DELAY_KEY[19] == 's';
  }

  /** The reconciler stores a pool. */
  lemma PoolStored(c: Config, spec: int, p: Pool) returns (run: Run)
    requires c.group != OtherGroup
    ensures Good(c, run) && Last(run) == Init(spec).(store := Some(p))
    ensures Prompt(run) && Brisk(run) && run.labels == [Reconcile(Fetched(false, p, Some(p)))]
    ensures forall h :: h != BadDelay || ScaleDownDelay(c, p) > 0 ==> Avoids(c, run, h)
  {
    run := Then(c, Started(spec), Reconcile(Fetched(false, p, Some(p))));
  }

  /** A request arrives and finds no scale-up in progress. */
  lemma Arrives(c: Config, run: Run, r: nat) returns (next: Run)
    requires Good(c, run) && r !in Last(run).reqs && Last(run).store.Some? && !Last(run).guard.scalingUp
    ensures Good(c, next) && Tidy(c, run, next) && SameStart(run, next)
    ensures next.labels == run.labels + [Arrive(r), Request(r, Check)]
    ensures Last(next) == Last(run).(reqs := Last(run).reqs[r := Req(Last(run).store.value, UNREAD, AtGet)])
  {
    var mid := Calmly(c, run, Arrive(r));
    next := Calmly(c, mid, Request(r, Check));
    assert Last(next).reqs == Last(run).reqs[r := Req(Last(run).store.value, UNREAD, AtGet)];
  }

  /** It then reads no replicas and is about to scale up. */
  lemma ReadsZero(c: Config, run: Run, r: nat) returns (next: Run)
    requires Good(c, run) && r !in Last(run).reqs && Last(run).store.Some? && !Last(run).guard.scalingUp
    requires Annotated(Last(run).store.value) && Last(run).scale.spec <= 0
    ensures Good(c, next) && Tidy(c, run, next) && SameStart(run, next)
    ensures next.labels == run.labels + [Arrive(r), Request(r, Check), Request(r, Get(GetOk))]
    ensures Last(next) == Last(run).(reqs := Last(run).reqs[r := Req(Last(run).store.value, Last(run).scale, AtBegin)])
  {
    var mid := Arrives(c, run, r);
    next := Calmly(c, mid, Request(r, Get(GetOk)));
    assert Last(next).reqs == Last(run).reqs[r := Req(Last(run).store.value, Last(run).scale, AtBegin)];
  }

  // ----- The four hazards -----

  /** Two requests both check before either begins. */
  lemma TwoBegin(c: Config, p: Pool) returns (run: Run)
    requires c.group != OtherGroup && IsPlain(c, p)
    ensures Good(c, run) && forall h :: h != Overlap ==> Avoids(c, run, h)
    ensures Last(run) == Init(0).(store := Some(p), guard := Guard(true, Some(1), 2, {}, {0}),
                                  reqs := map[0 := Req(p, UNREAD, AtUpdate), 1 := Req(p, UNREAD, AtUpdate)])
    ensures |run.labels| == 9 && run.labels[8] == Request(1, Begin) && run.states[8].guard.made == 1
  {
    run := PoolStored(c, 0, p);
    run := ReadsZero(c, run, 0);
    run := ReadsZero(c, run, 1);
    var one := Begins(c, run, 0);
    run := Begins(c, one, 1);
    Determined(c, one, run, 8);
  }

  /** Then the second to end closes a nil channel. */
  lemma OverlapCrashes(c: Config, p: Pool) returns (run: Run)
    requires c.group != OtherGroup && IsPlain(c, p)
    ensures IsRun(c, run) && Last(run).crash == Some(CloseOfNil)
    ensures forall h :: h != Overlap ==> Avoids(c, run, h)
  {
    run := TwoBegin(c, p);
    run := Acts(c, run, 0, Update(Refused), Req(p, UNREAD, AtEnd(false)), NoEffect);
    run := Acts(c, run, 0, End, Req(p, UNREAD, Done(Unavailable)), EndUp);
    run := Acts(c, run, 1, Update(Refused), Req(p, UNREAD, AtEnd(false)), NoEffect);
    run := Acts(c, run, 1, End, Req(p, UNREAD, Done(Unavailable)), EndUp);
  }

  /** A pool is stored and the deactivator receives a tick, with no request around. */
  lemma TickReceived(c: Config, p: Pool) returns (run: Run)
    requires c.group != OtherGroup && IsPlain(c, p)
    ensures Good(c, run) && Prompt(run) && Brisk(run) && forall h :: Avoids(c, run, h)
    ensures Last(run) == Init(0).(now := 120 * SECOND, store := Some(p), deact := Ticked,
                                  ticker := Ticker(true, 120 * SECOND, 240 * SECOND, false))
    ensures run.labels == [Reconcile(Fetched(false, p, Some(p))), Deactivator(Boot), Advance(120 * SECOND),
                           Fire(240 * SECOND), Deactivator(Receive)]
    ensures run.states[4].store == Some(p)
  {
    run := PoolStored(c, 0, p);
    run := Deacts(c, run, Boot, Idle, ResetTo(DEFAULT_SCALE_DOWN_DELAY));
    run := Passes(c, run, 120 * SECOND);
    var fired := Fires(c, run, 240 * SECOND);
    run := Deacts(c, fired, Receive, Ticked, TakeTick);
    Determined(c, fired, run, 4);
  }

  /** The tick is received while a pool is stored, and the pool is deleted before the
      deactivator reads it: a pool at the tick is not enough. */
  lemma EmptyStoreCrashes(c: Config, p: Pool) returns (run: Run)
    requires c.group != OtherGroup && IsPlain(c, p)
    ensures IsRun(c, run) && Last(run).crash == Some(NilPool)
    ensures forall h :: h != EmptyStore ==> Avoids(c, run, h)
    ensures forall i: nat :: i < |run.labels| && run.labels[i] == Deactivator(Receive) ==> run.states[i].store.Some?
  {
    var ticked := TickReceived(c, p);
    run := Calmly(c, ticked, Reconcile(Missing));
    run := Then(c, run, Deactivator(ReadPool));
    Determined(c, ticked, run, 4);
  }

  /** A scale-down delay that is not positive, such as a text that does not parse. */
  lemma BadDelayCrashes(c: Config, p: Pool) returns (run: Run)
    requires c.group != OtherGroup && Annotated(p) && ScaleDownDelay(c, p) <= 0
    ensures IsRun(c, run) && Last(run).crash == Some(BadPeriod)
    ensures forall h :: h != BadDelay ==> Avoids(c, run, h)
  {
    run := PoolStored(c, 0, p);
    run := Arrives(c, run, 0);
    run := Acts(c, run, 0, Get(GetFailed), Req(p, UNREAD, AtRearm(ScaleGetFailed)), NoEffect);
    run := Acts(c, run, 0, Rearm, Req(p, UNREAD, Done(Admitted(ScaleGetFailed))), ResetTo(ScaleDownDelay(c, p)));
  }

  /** A request with a grace window of more than a second polls after a second. */
  lemma PollsInGrace(c: Config, p: Pool, spec: int) returns (run: Run)
    requires c.group != OtherGroup && Annotated(p) && GracePeriod(c, p) > SECOND && spec > 0
    ensures Good(c, run) && Prompt(run) && Brisk(run)
    ensures forall h :: h != BadDelay || ScaleDownDelay(c, p) > 0 ==> Avoids(c, run, h)
    ensures |run.labels| == 6 && run.labels[1] == Arrive(0) && run.states[2].now == 0
    ensures Last(run).now == SECOND && Last(run).scale == Scale(spec, 0)
    ensures Last(run).reqs == map[0 := Req(p, Scale(spec, 0), PollGet(Grace, 2 * SECOND, GracePeriod(c, p)))]
  {
    var d := GracePeriod(c, p);
    var arrived := ReadsPositive(c, p, spec);
    run := Passes(c, arrived, SECOND);
    run := Acts(c, run, 0, Poll, Req(p, Scale(spec, 0), PollGet(Grace, 2 * SECOND, d)),
                ResetTo(DEFAULT_SCALE_DOWN_DELAY));
    Determined(c, arrived, run, 2);
  }

  /** A request reads a positive replica count and opens its grace window. */
  lemma ReadsPositive(c: Config, p: Pool, spec: int) returns (run: Run)
    requires c.group != OtherGroup && Annotated(p) && spec > 0
    ensures Good(c, run) && Prompt(run) && Brisk(run)
    ensures forall h :: h != BadDelay || ScaleDownDelay(c, p) > 0 ==> Avoids(c, run, h)
    ensures |run.labels| == 4 && run.labels[1] == Arrive(0) && run.states[2].now == 0
    ensures Last(run).now == 0 && Last(run).scale == Scale(spec, 0)
    ensures Last(run).reqs == map[0 := Req(p, Scale(spec, 0), PollWait(Grace, SECOND, GracePeriod(c, p)))]
  {
    run := PoolStored(c, spec, p);
    run := Arrives(c, run, 0);
    run := Acts(c, run, 0, Get(GetOk), Req(p, Scale(spec, 0), PollWait(Grace, SECOND, GracePeriod(c, p))), NoEffect);
    TimeGrows(c, run, 0, 2);
    TimeGrows(c, run, 2, 4);
  }

  lemma MissingStatusCrashes(c: Config, p: Pool) returns (run: Run)
    requires c.group != OtherGroup && IsPlain(c, p)
    ensures IsRun(c, run) && Last(run).crash == Some(StatusNotMap)
    ensures forall h :: h != MissingStatus ==> Avoids(c, run, h)
  {
    run := PollsInGrace(c, p, 1);
    run := Then(c, run, Request(0, Observe(NoStatusMap)));
  }

  /** None of the four hypotheses of crash freedom can be dropped: avoiding the other three
      does not prevent a crash. `bad` is any pool with a delay that is not positive. */
  lemma EveryHazardCrashes(c: Config, p: Pool, bad: Pool, h: Hazard) returns (run: Run)
    requires c.group != OtherGroup && IsPlain(c, p) && Annotated(bad) && ScaleDownDelay(c, bad) <= 0
    ensures IsRun(c, run) && Last(run).crash.Some? && HazardBehind(Last(run).crash.value) == h
    ensures forall other :: other != h ==> Avoids(c, run, other)
  {
    match h
    case Overlap => run := OverlapCrashes(c, p);
    case EmptyStore => run := EmptyStoreCrashes(c, p);
    case BadDelay => run := BadDelayCrashes(c, bad);
    case MissingStatus => run := MissingStatusCrashes(c, p);
  }

  // ----- The bounds on waiting are attained -----

  /** A poll that hangs until the grace window closes, then a scale-up whose poll hangs until
      its own window closes and sees the pod ready: for every pool and every replica count read,
      the longest wait is attained. */
  lemma LongestWaitAttained(c: Config, p: Pool, spec: int) returns (run: Run)
    requires c.group != OtherGroup && Annotated(p)
    ensures Good(c, run) && Prompt(run) && |run.labels| > 1 && run.labels[1] == Arrive(0)
    ensures 0 in Last(run).reqs && Last(run).reqs[0] == Req(p, Scale(spec, 0), AtEnd(true))
    ensures Waited(run, 1, |run.labels|, 0) == GraceCost(c, Last(run).reqs[0]) + 65 * SECOND
  {
    var first;
    if spec > 0 {
      first := GraceWasted(c, p, spec);
    } else {
      first := PoolStored(c, spec, p);
      first := ReadsZero(c, first, 0);
      TimeGrows(c, first, 0, 2);
      TimeGrows(c, first, 2, 4);
    }
    run := Begins(c, first, 0);
    run := SlowScaleUp(c, run, p, Scale(spec, 0));
    Determined(c, first, run, 2);
    BriskWaited(run, 1, |run.labels|, 0);
  }

  /** The only poll of the grace window, if there is time for one, hangs until the deadline. */
  lemma GraceWasted(c: Config, p: Pool, spec: int) returns (run: Run)
    requires c.group != OtherGroup && Annotated(p) && spec > 0
    ensures Good(c, run) && Prompt(run) && Brisk(run)
    ensures |run.labels| > 3 && run.labels[1] == Arrive(0) && run.states[2].now == 0
    ensures Last(run).now == GraceCost(c, Req(p, Scale(spec, 0), AtBegin)) && Last(run).scale == Scale(spec, 0)
    ensures Last(run).reqs == map[0 := Req(p, Scale(spec, 0), AtBegin)]
  {
    var snap, d := Scale(spec, 0), GracePeriod(c, p);
    var first;
    if d > SECOND {
      first := PollsInGrace(c, p, spec);
      run := Passes(c, first, d - SECOND);
      run := Acts(c, run, 0, Observe(ObjectFailed), Req(p, snap, PollWait(Grace, 2 * SECOND, d)), NoEffect);
    } else {
      first := ReadsPositive(c, p, spec);
      run := first;
      if d > 0 {
        run := Passes(c, first, d);
      }
    }
    run := Acts(c, run, 0, Timeout, Req(p, snap, AtBegin), NoEffect);
    Determined(c, first, run, 2);
  }

  /** A request parked on a scale-up whose update hangs waits the whole minute. */
  lemma ParkedForAMinute(c: Config, p: Pool) returns (run: Run, a: nat)
    requires c.group != OtherGroup && Annotated(p)
    ensures Good(c, run) && Prompt(run) && a + 1 < |run.labels| && run.labels[a] == Arrive(1)
    ensures 1 in Last(run).reqs && Last(run).reqs[1].ctrl.Parked?
    ensures Waited(run, a, |run.labels|, 1) == 60 * SECOND
  {
    run := PoolStored(c, 0, p);
    run := ReadsZero(c, run, 0);
    run := Begins(c, run, 0);
    a := |run.labels|;
    var arrived := Calmly(c, run, Arrive(1));
    var parked := Acts(c, arrived, 1, Check, Req(p, UNREAD, Parked(Some(0), DEFAULT_GRACE)), NoEffect);
    run := PassesInCall(c, parked, DEFAULT_GRACE);
    Determined(c, arrived, run, a + 1);
    Determined(c, parked, run, a + 2);
    assert Waited(run, a, a + 1, 1) == 0;
    assert Waited(run, a, a + 2, 1) == 0;
  }

  /** The bounds need the request itself to be on time: a goroutine that stalls waits as long
      as it stalls. */
  lemma StalledRequestWaits(c: Config, p: Pool, t: int) returns (run: Run)
    requires c.group != OtherGroup && t > 0
    ensures Good(c, run) && |run.labels| == 3 && run.labels[1] == Arrive(0)
    ensures 0 in Last(run).reqs && Last(run).reqs[0] == Req(p, UNREAD, AtCheck)
    ensures Waited(run, 1, 3, 0) == t
  {
    run := PoolStored(c, 0, p);
    var arrived := Calmly(c, run, Arrive(0));
    run := Then(c, arrived, Advance(t));
    Determined(c, arrived, run, 2);
    assert Waited(run, 1, 2, 0) == 0;
  }

  // ----- The bound on polls is attained -----

  lemma PollsThen(c: Config, run: Run, next: Run, l: Label, w: Window)
    requires IsRun(c, run) && IsRun(c, next) && SameStart(run, next) && next.labels == run.labels + [l]
    ensures Polls(next, |next.labels|, 0, w) == Polls(run, |run.labels|, 0, w) +
            if && l == Request(0, Poll) && 0 in Last(run).reqs
               && Last(run).reqs[0].ctrl.PollWait? && Last(run).reqs[0].ctrl.window == w
            then 1 else 0
  {
    Determined(c, run, next, |run.labels|);
    PollsOfPrefix(c, run, next, |run.labels|, w);
  }

  lemma {:induction false} PollsOfPrefix(c: Config, run: Run, next: Run, k: nat, w: Window)
    requires IsRun(c, run) && IsRun(c, next) && SameStart(run, next)
    requires k <= |run.labels| <= |next.labels| && next.labels[..k] == run.labels[..k]
    ensures Polls(next, k, 0, w) == Polls(run, k, 0, w)
  {
    if k > 0 {
      assert next.labels[..k - 1] == next.labels[..k][..k - 1] == run.labels[..k - 1];
      assert next.labels[k - 1] == next.labels[..k][k - 1] == run.labels[k - 1];
      PollsOfPrefix(c, run, next, k - 1, w);
      Determined(c, run, next, k - 1);
    }
  }

  /** A request that never sees its replicas ready polls every second, up to 59 times. */
  lemma {:induction false} PollsEverySecond(c: Config, run: Run, q: Req, w: Window, t: int, n: nat) returns (next: Run)
    requires Good(c, run) && n <= 59 && Last(run).now == t && Polls(run, |run.labels|, 0, w) == 0
    requires Last(run).reqs == map[0 := q.(ctrl := PollWait(w, t + SECOND, t + 60 * SECOND))]
    ensures Good(c, next) && Tidy(c, run, next) && Last(next).now == t + n * SECOND
    ensures Last(next).reqs == map[0 := q.(ctrl := PollWait(w, t + (n + 1) * SECOND, t + 60 * SECOND))]
    ensures Polls(next, |next.labels|, 0, w) == n
    decreases n
  {
    next := run;
    if n > 0 {
      var before := PollsEverySecond(c, run, q, w, t, n - 1);
      next := OnePoll(c, before, q, w, t, n);
    }
  }

  lemma OnePoll(c: Config, run: Run, q: Req, w: Window, t: int, n: nat) returns (next: Run)
    requires Good(c, run) && 0 < n <= 59 && Last(run).now == t + (n - 1) * SECOND
    requires Last(run).reqs == map[0 := q.(ctrl := PollWait(w, t + n * SECOND, t + 60 * SECOND))]
    ensures Good(c, next) && Tidy(c, run, next) && Last(next).now == t + n * SECOND
    ensures Last(next).reqs == map[0 := q.(ctrl := PollWait(w, t + (n + 1) * SECOND, t + 60 * SECOND))]
    ensures Polls(next, |next.labels|, 0, w) == Polls(run, |run.labels|, 0, w) + 1
  {
    var due := Passes(c, run, SECOND);
    PollsThen(c, run, due, Advance(SECOND), w);
    var asked := Acts(c, due, 0, Poll, q.(ctrl := PollGet(w, t + (n + 1) * SECOND, t + 60 * SECOND)),
                      ResetTo(DEFAULT_SCALE_DOWN_DELAY));
    PollsThen(c, due, asked, Request(0, Poll), w);
    next := Acts(c, asked, 0, Observe(NoReadyField), q.(ctrl := PollWait(w, t + (n + 1) * SECOND, t + 60 * SECOND)),
                 NoEffect);
    PollsThen(c, asked, next, Request(0, Observe(NoReadyField)), w);
  }

  /** Both windows of a plain pool can hold 59 polls. */
  lemma FiftyNinePolls(c: Config, p: Pool, w: Window) returns (run: Run)
    requires c.group != OtherGroup && IsPlain(c, p)
    ensures Good(c, run) && Prompt(run) && Polls(run, |run.labels|, 0, w) == 59
  {
    if w == Grace {
      run := ReadsPositive(c, p, 1);
      NoPollsYet(c, run, w);
      run := PollsEverySecond(c, run, Req(p, Scale(1, 0), AtGet), w, 0, 59);
    } else {
      run := OpensScaleUp(c, p);
      NoPollsYet(c, run, w);
      run := PollsEverySecond(c, run, Req(p, UNREAD, AtGet), w, 0, 59);
    }
  }

  /** A request scales up from zero and opens the window of its scale-up. */
  lemma OpensScaleUp(c: Config, p: Pool) returns (run: Run)
    requires c.group != OtherGroup && Annotated(p)
    ensures Good(c, run) && Prompt(run) && Last(run).now == 0
    ensures Last(run).reqs == map[0 := Req(p, UNREAD, PollWait(ScaleUp, SECOND, 60 * SECOND))]
  {
    run := PoolStored(c, 0, p);
    run := ReadsZero(c, run, 0);
    run := Begins(c, run, 0);
    run := Acts(c, run, 0, Update(Stored), Req(p, UNREAD, PollWait(ScaleUp, SECOND, 60 * SECOND)), Write(1));
  }

  /** A window that has just been opened holds no poll. */
  lemma NoPollsYet(c: Config, run: Run, w: Window)
    requires IsRun(c, run) && 0 in Last(run).reqs
    requires && Last(run).reqs[0].ctrl.PollWait? && Last(run).reqs[0].ctrl.window == w
             && Last(run).reqs[0].ctrl.next
                == Last(run).reqs[0].ctrl.deadline - WindowLength(c, Last(run).reqs[0], w) + POLL_INTERVAL
    ensures Polls(run, |run.labels|, 0, w) == 0
  {
    PollsAreBounded(c, run, |run.labels|, 0, w);
  }

  lemma SlowScaleUp(c: Config, run: Run, p: Pool, snap: Scale) returns (next: Run)
    requires Good(c, run) && Last(run).reqs == map[0 := Req(p, snap, AtUpdate)]
    requires snap.version == Last(run).scale.version
    ensures Good(c, next) && Tidy(c, run, next) && SameStart(run, next) && run.labels <= next.labels
    ensures Last(next).now == Last(run).now + 65 * SECOND
    ensures Last(next).reqs == map[0 := Req(p, snap, AtEnd(true))]
  {
    var t := Last(run).now;
    next := Acts(c, run, 0, Update(Stored), Req(p, snap, PollWait(ScaleUp, t + SECOND, t + 60 * SECOND)), Write(1));
    next := Passes(c, next, SECOND);
    next := SlowPoll(c, next, p, snap, t);
  }

  lemma SlowPoll(c: Config, run: Run, p: Pool, snap: Scale, t: int) returns (next: Run)
    requires Good(c, run) && Last(run).now == t + SECOND
    requires Last(run).reqs == map[0 := Req(p, snap, PollWait(ScaleUp, t + SECOND, t + 60 * SECOND))]
    ensures Good(c, next) && Tidy(c, run, next) && SameStart(run, next) && run.labels <= next.labels
    ensures Last(next).now == t + 65 * SECOND
    ensures Last(next).reqs == map[0 := Req(p, snap, AtEnd(true))]
  {
    next := Acts(c, run, 0, Poll, Req(p, snap, PollGet(ScaleUp, t + 2 * SECOND, t + 60 * SECOND)),
                 ResetTo(DEFAULT_SCALE_DOWN_DELAY));
    next := Passes(c, next, 59 * SECOND);
    next := Acts(c, next, 0, Observe(Ready(1)), Req(p, snap, Sleeping(t + 65 * SECOND)), NoEffect);
    next := Rests(c, next, p, snap, t);
  }

  lemma Rests(c: Config, run: Run, p: Pool, snap: Scale, t: int) returns (next: Run)
    requires Good(c, run) && Last(run).now == t + 60 * SECOND
    requires Last(run).reqs == map[0 := Req(p, snap, Sleeping(t + 65 * SECOND))]
    ensures Good(c, next) && Tidy(c, run, next) && SameStart(run, next) && run.labels <= next.labels
    ensures Last(next).now == t + 65 * SECOND
    ensures Last(next).reqs == map[0 := Req(p, snap, AtEnd(true))]
  {
    next := Passes(c, run, 5 * SECOND);
    next := Acts(c, next, 0, Wake, Req(p, snap, AtEnd(true)), NoEffect);
  }

  // ----- Retention needs scale-ups not to overlap -----

  /** The end of one scale-up closes the channel of another: the waiter is let through at
      once, while the scale-up it waits for has not even updated the scale object. */
  lemma OverlapReleasesEarly(c: Config, p: Pool) returns (run: Run, g: nat, b: nat)
    requires c.group != OtherGroup && IsPlain(c, p)
    ensures Good(c, run) && Last(run).now == 0
    ensures {1, 2} <= Last(run).reqs.Keys && Last(run).reqs[2].ctrl == Done(Admitted(GuardReleased))
    ensures b < |run.labels| && MadeBy(run, b, 1, g) && g in Last(run).guard.closed
    ensures Last(run).reqs[1].ctrl == AtUpdate
  {
    var two := TwoBegin(c, p);
    run := Calmly(c, two, Arrive(2));
    run := Acts(c, run, 2, Check, Req(p, UNREAD, Parked(Some(1), DEFAULT_GRACE)), NoEffect);
    run := OneEnds(c, run, p);
    run := Acts(c, run, 2, Unpark, Req(p, UNREAD, Done(Admitted(GuardReleased))), NoEffect);
    g, b := 1, 8;
    Determined(c, two, run, 8);
  }

  /** Request 0 fails its update and ends. */
  lemma OneEnds(c: Config, run: Run, p: Pool) returns (next: Run)
    requires Good(c, run) && Last(run).guard.current.Some?
    requires 0 in Last(run).reqs && Last(run).reqs[0] == Req(p, UNREAD, AtUpdate)
    ensures Good(c, next) && SameStart(run, next)
    ensures next.labels == run.labels + [Request(0, Update(Refused)), Request(0, End)]
    ensures Last(next) == Last(run).(guard := Last(run).guard.End(),
                                     reqs := Last(run).reqs[0 := Req(p, UNREAD, Done(Unavailable))])
  {
    var mid := Acts(c, run, 0, Update(Refused), Req(p, UNREAD, AtEnd(false)), NoEffect);
    next := Acts(c, mid, 0, End, Req(p, UNREAD, Done(Unavailable)), EndUp);
    assert Last(next).reqs == Last(run).reqs[0 := Req(p, UNREAD, Done(Unavailable))];
  }

  /** Single flight needs it too: two overlapping scale-ups send one update after the other. */
  lemma OverlapUpdatesTwice(c: Config, p: Pool) returns (run: Run, i: nat)
    requires c.group != OtherGroup && IsPlain(c, p)
    ensures Good(c, run) && i + 1 < |run.labels|
    ensures run.labels[i] == Request(0, Update(Refused)) && run.labels[i + 1] == Request(1, Update(Refused))
  {
    run := TwoBegin(c, p);
    i := |run.labels|;
    run := Acts(c, run, 0, Update(Refused), Req(p, UNREAD, AtEnd(false)), NoEffect);
    run := Acts(c, run, 1, Update(Refused), Req(p, UNREAD, AtEnd(false)), NoEffect);
  }

  // ----- The quiet window is tight -----

  /** One write of zero can land during a scale-up: its tick came before, its read after the
      scale-up's own update, so the new replica is taken away again. */
  lemma ZeroLandsDuringScaleUp(c: Config, p: Pool) returns (run: Run, i: nat)
    requires c.group != OtherGroup && IsPlain(c, p)
    ensures Good(c, run) && Prompt(run) && SpanAbove(c, run, i, |run.labels|, 0, QUIET + 1)
    ensures ZeroWrites(run, i, |run.labels|) == 1 && Last(run).scale.spec == 0
  {
    var t := 120 * SECOND;
    run := TickReceived(c, p);
    run := Deacts(c, run, ReadPool, Fetching, NoEffect);
    run := ReadsZero(c, run, 0);
    run := Begins(c, run, 0);
    run := Acts(c, run, 0, Update(Stored), Req(p, UNREAD, PollWait(ScaleUp, t + SECOND, t + 60 * SECOND)), Write(1));
    run := Passes(c, run, SECOND);
    i := |run.labels|;
    run := PollThenZero(c, run, p, t);
  }

  lemma PollThenZero(c: Config, run: Run, p: Pool, t: int) returns (next: Run)
    requires Good(c, run) && Last(run).now == t + SECOND && Last(run).deact == Fetching
    requires Last(run).reqs == map[0 := Req(p, UNREAD, PollWait(ScaleUp, t + SECOND, t + 60 * SECOND))]
    ensures Good(c, next) && Tidy(c, run, next)
    ensures SpanAbove(c, next, |run.labels|, |next.labels|, 0, QUIET + 1)
    ensures ZeroWrites(next, |run.labels|, |next.labels|) == 1 && Last(next).scale.spec == 0
  {
    next := Acts(c, run, 0, Poll, Req(p, UNREAD, PollGet(ScaleUp, t + 2 * SECOND, t + 60 * SECOND)),
                 ResetTo(DEFAULT_SCALE_DOWN_DELAY));
    next := ReadsAndZeroes(c, next);
    Determined(c, run, next, |run.labels|);
    SpanWithOneZero(c, next, |run.labels|);
  }

  lemma ReadsAndZeroes(c: Config, run: Run) returns (next: Run)
    requires Good(c, run) && Last(run).deact == Fetching
    ensures Good(c, next) && Tidy(c, run, next) && SameStart(run, next)
    ensures next.labels == run.labels + [Deactivator(ReadScale(GetOk)), Deactivator(WriteZero(UpdateOutcome.Stored))]
    ensures Last(next).scale.spec == 0
  {
    next := Deacts(c, run, ReadScale(GetOk), Holding(Last(run).scale), NoEffect);
    next := Deacts(c, next, WriteZero(UpdateOutcome.Stored), Idle, Write(0));
  }

  lemma SpanWithOneZero(c: Config, run: Run, i: nat)
    requires IsRun(c, run) && |run.labels| == i + 3
    requires run.labels[i] == Request(0, Poll) && 0 in run.states[i].reqs && InScaleUp(run.states[i].reqs[0].ctrl)
    requires run.labels[i + 1] == Deactivator(ReadScale(GetOk))
    requires run.labels[i + 2] == Deactivator(WriteZero(UpdateOutcome.Stored))
    ensures SpanAbove(c, run, i, i + 3, 0, QUIET + 1) && ZeroWrites(run, i, i + 3) == 1
  {
    assert ZeroWrites(run, i, i) == 0;
    assert ZeroWrites(run, i, i + 1) == 0;
    var j := i + 2;
    assert ZeroWrites(run, i, j) == ZeroWrites(run, i, j - 1);
    var k := i + 3;
    assert ZeroWrites(run, i, k) == ZeroWrites(run, i, k - 1) + 1;
    var d := QUIET + 1;
    forall k: nat | i <= k < i + 3
      ensures !ResetsBelow(c, run, k, d)
    {
      assert k == i || k == i + 1 || k == i + 2;
    }
  }

  /** Request 0 is about to scale up, request 1 is in its scale call. */
  lemma OneBeginsOneReads(c: Config, p: Pool) returns (run: Run)
    requires c.group != OtherGroup && Annotated(p) && ScaleDownDelay(c, p) > 0
    ensures Good(c, run) && Prompt(run) && |run.labels| == 7
    ensures Last(run).now == 0 && Last(run).deact == Idle && Last(run).scale == UNREAD
    ensures Last(run).reqs == map[0 := Req(p, UNREAD, AtBegin), 1 := Req(p, UNREAD, AtGet)]
  {
    run := PoolStored(c, 0, p);
    run := Deacts(c, run, Boot, Idle, ResetTo(DEFAULT_SCALE_DOWN_DELAY));
    run := ReadsZero(c, run, 0);
    run := Arrives(c, run, 1);
  }

  /** Request 0 has opened the window of its scale-up. */
  lemma OneScalesOneReads(c: Config, p: Pool) returns (run: Run)
    requires c.group != OtherGroup && Annotated(p) && ScaleDownDelay(c, p) > 0
    ensures Good(c, run) && Prompt(run) && |run.labels| == 9
    ensures Last(run).now == 0 && Last(run).deact == Idle
    ensures Last(run).reqs == map[0 := Req(p, UNREAD, PollWait(ScaleUp, SECOND, 60 * SECOND)),
                                  1 := Req(p, UNREAD, AtGet)]
  {
    run := OneBeginsOneReads(c, p);
    assert Scaling(Last(run)) == {};
    run := Begins(c, run, 0);
    run := Acts(c, run, 0, Update(Stored), Req(p, UNREAD, PollWait(ScaleUp, SECOND, 60 * SECOND)), Write(1));
  }

  /** It polls after a second; then request 1 is let through and resets the ticker to its
      pool's delay. */
  lemma PollThenReset(c: Config, p: Pool) returns (run: Run)
    requires c.group != OtherGroup && Annotated(p) && ScaleDownDelay(c, p) > 0
    ensures Good(c, run) && Prompt(run) && |run.labels| == 13 && Last(run).now == SECOND && Last(run).deact == Idle
    ensures run.labels[10..] == [Request(0, Poll), Request(1, Get(GetFailed)), Request(1, Rearm)]
    ensures 0 in run.states[10].reqs && InScaleUp(run.states[10].reqs[0].ctrl)
    ensures 1 in run.states[12].reqs && run.states[12].reqs[1].pool == p
    ensures Last(run).ticker == Ticker(true, ScaleDownDelay(c, p), SECOND + ScaleDownDelay(c, p), false)
    ensures Last(run).reqs == map[0 := Req(p, UNREAD, PollGet(ScaleUp, 2 * SECOND, 60 * SECOND)),
                                  1 := Req(p, UNREAD, Done(Admitted(ScaleGetFailed)))]
  {
    run := OneScalesOneReads(c, p);
    var due := PassesInCall(c, run, SECOND);
    run := Acts(c, due, 0, Poll, Req(p, UNREAD, PollGet(ScaleUp, 2 * SECOND, 60 * SECOND)),
                ResetTo(DEFAULT_SCALE_DOWN_DELAY));
    var failed := Acts(c, run, 1, Get(GetFailed), Req(p, UNREAD, AtRearm(ScaleGetFailed)), NoEffect);
    run := Acts(c, failed, 1, Rearm, Req(p, UNREAD, Done(Admitted(ScaleGetFailed))), ResetTo(ScaleDownDelay(c, p)));
    Determined(c, due, run, 10);
    Determined(c, failed, run, 12);
  }

  /** The deactivator receives a tick as soon as the ticker is due. */
  lemma FiresAndTicks(c: Config, run: Run) returns (next: Run)
    requires Good(c, run) && Last(run).deact == Idle
    requires Last(run).ticker.running && Last(run).ticker.next == Last(run).now && Last(run).ticker.period > 0
    ensures Good(c, next) && Tidy(c, run, next) && SameStart(run, next)
    ensures next.labels == run.labels + [Fire(Last(run).now + Last(run).ticker.period), Deactivator(Receive)]
    ensures Last(next).reqs == Last(run).reqs
  {
    next := Fires(c, run, Last(run).now + Last(run).ticker.period);
    next := Deacts(c, next, Receive, Ticked, TakeTick);
  }

  predicate Harmless(l: Label) {
    || l.Advance? || l.Fire? || l == Deactivator(Receive)
    || (l.Request? && l.r == 0 && l.a.Observe?)
  }

  /** A reset to 64 s or less right after a scale-up's poll makes the deactivator receive a tick
      before that scale-up ends. */
  lemma TickWithinQuiet(c: Config, p: Pool) returns (run: Run)
    requires c.group != OtherGroup && Annotated(p) && 0 < ScaleDownDelay(c, p) <= QUIET
    ensures Good(c, run) && Prompt(run) && |run.labels| > 13
    ensures SpanAbove(c, run, 10, |run.labels|, 0, ScaleDownDelay(c, p))
    ensures run.labels[|run.labels| - 1] == Deactivator(Receive)
  {
    var reset := PollThenReset(c, p);
    run := TickBeforeEnd(c, reset, p, ScaleDownDelay(c, p));
    Determined(c, reset, run, 10);
    Determined(c, reset, run, 12);
    assert run.labels[10..13] == reset.labels[10..];
    SpanWithReset(c, run, p);
  }

  lemma TickBeforeEnd(c: Config, run: Run, p: Pool, d: int) returns (next: Run)
    requires Good(c, run) && Last(run).now == SECOND && Last(run).deact == Idle && 0 < d <= QUIET
    requires Last(run).reqs == map[0 := Req(p, UNREAD, PollGet(ScaleUp, 2 * SECOND, 60 * SECOND)),
                                   1 := Req(p, UNREAD, Done(Admitted(ScaleGetFailed)))]
    requires Last(run).ticker == Ticker(true, d, SECOND + d, false)
    ensures Good(c, next) && Tidy(c, run, next) && SameStart(run, next) && run.labels <= next.labels
    ensures |next.labels| > |run.labels| && next.labels[|next.labels| - 1] == Deactivator(Receive)
    ensures forall k: nat :: |run.labels| <= k < |next.labels| ==> Harmless(next.labels[k])
  {
    if d <= 59 * SECOND {
      next := Passes(c, run, d);
    } else {
      next := PassesIntoRest(c, run, p, d);
    }
    next := FiresAndTicks(c, next);
  }

  lemma PassesIntoRest(c: Config, run: Run, p: Pool, d: int) returns (next: Run)
    requires Good(c, run) && Last(run).now == SECOND && 59 * SECOND < d <= QUIET
    requires Last(run).reqs == map[0 := Req(p, UNREAD, PollGet(ScaleUp, 2 * SECOND, 60 * SECOND)),
                                   1 := Req(p, UNREAD, Done(Admitted(ScaleGetFailed)))]
    ensures Good(c, next) && Tidy(c, run, next) && SameStart(run, next)
    ensures next.labels == run.labels + [Advance(59 * SECOND), Request(0, Observe(Ready(1))), Advance(d - 59 * SECOND)]
    ensures Last(next).now == SECOND + d && Last(next).ticker == Last(run).ticker && Last(next).deact == Last(run).deact
  {
    next := SeesAtDeadline(c, run, p);
    next := Passes(c, next, d - 59 * SECOND);
  }

  lemma SeesAtDeadline(c: Config, run: Run, p: Pool) returns (next: Run)
    requires Good(c, run) && Last(run).now == SECOND
    requires Last(run).reqs == map[0 := Req(p, UNREAD, PollGet(ScaleUp, 2 * SECOND, 60 * SECOND)),
                                   1 := Req(p, UNREAD, Done(Admitted(ScaleGetFailed)))]
    ensures Good(c, next) && Tidy(c, run, next) && SameStart(run, next)
    ensures next.labels == run.labels + [Advance(59 * SECOND), Request(0, Observe(Ready(1)))]
    ensures Last(next) == Last(run).(now := 60 * SECOND,
                                     reqs := map[0 := Req(p, UNREAD, Sleeping(65 * SECOND)),
                                                 1 := Req(p, UNREAD, Done(Admitted(ScaleGetFailed)))])
  {
    next := Passes(c, run, 59 * SECOND);
    next := Acts(c, next, 0, Observe(Ready(1)), Req(p, UNREAD, Sleeping(65 * SECOND)), NoEffect);
  }

  lemma SpanWithReset(c: Config, run: Run, p: Pool)
    requires IsRun(c, run) && |run.labels| > 13 && ScaleDownDelay(c, p) <= QUIET
    requires run.labels[10..13] == [Request(0, Poll), Request(1, Get(GetFailed)), Request(1, Rearm)]
    requires 0 in run.states[10].reqs && InScaleUp(run.states[10].reqs[0].ctrl)
    requires 1 in run.states[12].reqs && run.states[12].reqs[1].pool == p
    requires forall k: nat :: 13 <= k < |run.labels| ==> Harmless(run.labels[k])
    ensures SpanAbove(c, run, 10, |run.labels|, 0, ScaleDownDelay(c, p))
  {
    assert run.labels[10] == run.labels[10..13][0] && run.labels[11] == run.labels[10..13][1];
    assert run.labels[12] == run.labels[10..13][2];
    forall k: nat | 10 <= k < |run.labels|
      ensures !ResetsBelow(c, run, k, ScaleDownDelay(c, p))
    {
      assert k >= 13 ==> Harmless(run.labels[k]);
    }
  }

  /** The quiet window needs the scale-up to be on time: if it stalls for two minutes a tick
      is received before it ends, with no short reset at all. */
  lemma StalledScaleUpGetsTick(c: Config, p: Pool) returns (run: Run, i: nat)
    requires c.group != OtherGroup && IsPlain(c, p)
    ensures Good(c, run) && SpanAbove(c, run, i, |run.labels|, 0, QUIET + 1)
    ensures run.labels[|run.labels| - 1] == Deactivator(Receive)
  {
    run := PoolStored(c, 0, p);
    run := Deacts(c, run, Boot, Idle, ResetTo(DEFAULT_SCALE_DOWN_DELAY));
    run := ReadsZero(c, run, 0);
    run := Begins(c, run, 0);
    run := Acts(c, run, 0, Update(Stored), Req(p, UNREAD, PollWait(ScaleUp, SECOND, 60 * SECOND)), Write(1));
    run := Passes(c, run, SECOND);
    i := |run.labels|;
    run := PollThenStall(c, run, p);
  }

  lemma PollThenStall(c: Config, run: Run, p: Pool) returns (next: Run)
    requires Good(c, run) && Last(run).now == SECOND && Last(run).deact == Idle
    requires Last(run).reqs == map[0 := Req(p, UNREAD, PollWait(ScaleUp, SECOND, 60 * SECOND))]
    ensures Good(c, next) && SpanAbove(c, next, |run.labels|, |next.labels|, 0, QUIET + 1)
    ensures next.labels[|next.labels| - 1] == Deactivator(Receive)
  {
    var i := |run.labels|;
    next := Acts(c, run, 0, Poll, Req(p, UNREAD, PollGet(ScaleUp, 2 * SECOND, 60 * SECOND)),
                 ResetTo(DEFAULT_SCALE_DOWN_DELAY));
    next := Stalls(c, next, DEFAULT_SCALE_DOWN_DELAY);
    next := FiresAndTicks(c, next);
    Determined(c, run, next, i);
    assert next.labels[i] == Request(0, Poll);
    assert forall k: nat :: i < k < |next.labels| ==> Harmless(next.labels[k]);
  }

  /** Time passes, on time or not. */
  lemma Stalls(c: Config, run: Run, dt: int) returns (next: Run)
    requires Good(c, run) && dt > 0
    ensures Good(c, next) && SameStart(run, next) && next.labels == run.labels + [Advance(dt)]
    ensures Last(next) == Last(run).(now := Last(run).now + dt)
  {
    next := Then(c, run, Advance(dt));
  }
}
