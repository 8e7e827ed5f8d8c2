/** The activator as it is written: `MayActivate` and the methods it calls, run among other
    requests, the deactivator and the reconciler.

    Before each of its steps the rest of the world may do anything (`World.Interfere`). Each
    method proves that the steps it makes are steps of the transition system, in the order the
    system allows, so every theorem about runs is about this code; and each ties its result to
    what the environment answered. */
module Activators {
  import opened Pools
  import opened Datastores
  import opened System
  import opened Writing
  import opened Ordering
  import opened Admission
  import opened Polling
  import opened Worlds

  /** How long the request is kept from running before each of its steps. */
  datatype Pauses = Pauses(check: nat, guard: nat, get: nat, begin: nat, update: nat, end: nat, rearm: nat)

  /** What the environment answers to the calls of one request. */
  datatype Script = Script(pauses: Pauses, got: GetOutcome, grace: seq<Round>, update: UpdateOutcome, up: seq<Round>)

  datatype Verdict = ReadyBecause(why: Reason) | NotReady | Crashed

  // ----- What the answers add up to -----

  /** The grace window, for a request that read this scale object. */
  function GraceWindow(c: Config, pool: Pool, snap: Scale, env: Script): PollResult {
    if snap.spec <= 0 then TimedOut else PollWindow(snap.spec, GracePeriod(c, pool), env.grace).result
  }

  /** The scale-up is tried. */
  predicate ScalesUp(c: Config, pool: Pool, snap: Scale, env: Script) {
    Annotated(pool) && env.got == GetOk && GraceWindow(c, pool, snap, env) == TimedOut
  }

  /** How a scale-up ends whose update met `u`. */
  function UpVerdict(u: UpdateOutcome, env: Script): Verdict {
    if u != UpdateOutcome.Stored then NotReady else
    match PollWindow(1, DEFAULT_GRACE, env.up).result
    case PodsSeen => ReadyBecause(ScaledUp)
    case TimedOut => NotReady
    case Panicked => Crashed
  }

  /** The verdict on a pool, if the end of the scale-up finds its channel. */
  function VerdictFor(c: Config, pool: Pool, snap: Scale, u: UpdateOutcome, env: Script): Verdict {
    if !Annotated(pool) || env.got == NoResource then NotReady
    else if env.got == GetFailed then ReadyBecause(ScaleGetFailed)
    else
      match GraceWindow(c, pool, snap, env)
      case PodsSeen => ReadyBecause(PodsReady)
      case Panicked => Crashed
      case TimedOut => UpVerdict(u, env)
  }

  /** What `MayActivate` returns for a verdict; a ready pool restarts the countdown, which panics
      on a delay that is not positive. */
  function OutcomeFor(c: Config, pool: Pool, v: Verdict): Option<Outcome> {
    match v
    case ReadyBecause(why) => if ScaleDownDelay(c, pool) > 0 then Some(Admitted(why)) else None
    case NotReady => Some(Unavailable)
    case Crashed => None
  }

  /** What the verdict says about the environment's answers, case by case: which calls failed,
      and which window saw the wanted replicas in time. Every other case is a refusal. */
  lemma VerdictMeans(c: Config, pool: Pool, snap: Scale, u: UpdateOutcome, env: Script)
    ensures var v := VerdictFor(c, pool, snap, u, env);
            var read := Annotated(pool) && env.got == GetOk;
            var seen := snap.spec > 0 && Ends(snap.spec, GracePeriod(c, pool), env.grace, PodsSeen);
            var broken := snap.spec > 0 && Ends(snap.spec, GracePeriod(c, pool), env.grace, Panicked);
            var stored := read && !seen && !broken && u == UpdateOutcome.Stored;
            && (ScalesUp(c, pool, snap, env) <==> read && !seen && !broken)
            && (v == ReadyBecause(ScaleGetFailed) <==> Annotated(pool) && env.got == GetFailed)
            && (v == ReadyBecause(PodsReady) <==> read && seen)
            && (v == ReadyBecause(ScaledUp) <==> stored && Ends(1, DEFAULT_GRACE, env.up, PodsSeen))
            && (v == Crashed <==> (read && broken) || (stored && Ends(1, DEFAULT_GRACE, env.up, Panicked)))
            && v != ReadyBecause(GuardReleased)
  {
    WindowEndsExactly(snap.spec, GracePeriod(c, pool), env.grace, PodsSeen);
    WindowEndsExactly(snap.spec, GracePeriod(c, pool), env.grace, Panicked);
    WindowEndsExactly(1, DEFAULT_GRACE, env.up, PodsSeen);
    WindowEndsExactly(1, DEFAULT_GRACE, env.up, Panicked);
  }

  /** And what the answer of `MayActivate` says: a request that is not parked is let through
      exactly with a positive scale-down delay and a failed read, ready pods, or a scale-up whose
      update was stored and whose pod was seen in time. */
  lemma OutcomeMeans(c: Config, pool: Pool, snap: Scale, u: UpdateOutcome, env: Script)
    ensures var o := OutcomeFor(c, pool, VerdictFor(c, pool, snap, u, env));
            var seen := snap.spec > 0 && Ends(snap.spec, GracePeriod(c, pool), env.grace, PodsSeen);
            var rearmed := Annotated(pool) && ScaleDownDelay(c, pool) > 0;
            && (o == Some(Admitted(ScaleGetFailed)) <==> rearmed && env.got == GetFailed)
            && (o == Some(Admitted(PodsReady)) <==> rearmed && env.got == GetOk && seen)
            && (o == Some(Admitted(ScaledUp)) <==>
                  && rearmed && ScalesUp(c, pool, snap, env) && u == UpdateOutcome.Stored
                  && Ends(1, DEFAULT_GRACE, env.up, PodsSeen))
            && (!Annotated(pool) || env.got == NoResource ==> o == Some(Unavailable))
            && (ScalesUp(c, pool, snap, env) && u != UpdateOutcome.Stored ==> o == Some(Unavailable))
            && o != Some(Admitted(GuardReleased)) && o != Some(Outcome.NotSynced)
  {
    VerdictMeans(c, pool, snap, u, env);
  }

  /** With punctual polls, a scale-up succeeds exactly if its update was stored and the first
      poll that decides anything, the `k + 1`-st, shows one ready replica within the minute. */
  lemma PunctualScaleUp(u: UpdateOutcome, env: Script, k: nat)
    requires Punctual(env.up) && FirstToDecide(1, env.up, k)
    ensures UpVerdict(u, env) == ReadyBecause(ScaledUp) <==>
            && u == UpdateOutcome.Stored && env.up[k].seen.Ready? && ToInt32(env.up[k].seen.n) == 1
            && (k + 1) * POLL_INTERVAL < DEFAULT_GRACE
  {
    PunctualWindow(1, DEFAULT_GRACE, env.up, k);
  }

  /** With punctual polls, a request that reads a positive count is let through without a
      scale-up exactly if the first poll that decides anything shows that many ready replicas
      within the grace period. */
  lemma PunctualGrace(c: Config, pool: Pool, snap: Scale, u: UpdateOutcome, env: Script, k: nat)
    requires Annotated(pool) && env.got == GetOk && snap.spec > 0
    requires Punctual(env.grace) && FirstToDecide(snap.spec, env.grace, k)
    ensures VerdictFor(c, pool, snap, u, env) == ReadyBecause(PodsReady) <==>
            && env.grace[k].seen.Ready? && ToInt32(env.grace[k].seen.n) == snap.spec
            && (k + 1) * POLL_INTERVAL < GracePeriod(c, pool)
  {
    PunctualWindow(snap.spec, GracePeriod(c, pool), env.grace, k);
    VerdictMeans(c, pool, snap, u, env);
    WindowEndsExactly(snap.spec, GracePeriod(c, pool), env.grace, PodsSeen);
  }

  class Activator {
    const w: World

    constructor (world: World)
      ensures w == world
    {
      w := world;
    }

    /** The process runs, and request `r` stands where `q` says. */
    ghost predicate At(r: nat, q: Req)
      reads w, w.ds, w.gate, w.api
    {
      w.Alive() && r in w.reqs && w.reqs[r] == q
    }

    /** The history tells that the update of `r` met `u`. */
    ghost predicate Met(r: nat, fate: UpdateOutcome, u: UpdateOutcome)
      reads w
    {
      exists k: nat :: UpdateMet(w.c, w.origin, w.trace, k, r, fate, u)
    }

    /** The history tells that `r` checked the guard, which was up or not. */
    ghost predicate Checked(r: nat, up: bool)
      reads w
    {
      exists k: nat :: CheckMet(w.c, w.origin, w.trace, k, r, up)
    }

    /** The history tells that `r` read the scale object of its pool, with this outcome. */
    ghost predicate HasRead(r: nat, pool: Pool, got: GetOutcome, obj: Scale)
      reads w
    {
      exists k: nat :: ReadMet(w.c, w.origin, w.trace, k, r, pool, got, obj)
    }

    /** Move request `r` in the history: a step that has just been made from state `was`. */
    ghost method Moved(was: State, r: nat, a: Act, q: Req)
      requires Start(w.origin) && Exec(w.c, w.origin, w.trace) == Some(was) && was.crash == None
      requires r in was.reqs && CanAct(was, was.reqs[r], a)
      requires w.reqs == was.reqs && q == ActMove(w.c, was, was.reqs[r], a).req
      requires w.Abs() == Apply(was, ActMove(w.c, was, was.reqs[r], a).effect).(reqs := was.reqs)
      modifies w`reqs, w`trace
      ensures w.Valid() && w.trace == old(w.trace) + [Request(r, a)]
      ensures w.reqs == was.reqs[r := q]
      ensures Exec(w.c, w.origin, w.trace[..|w.trace| - 1]) == Some(was)
    {
      var before := w.trace;
      w.reqs := w.reqs[r := q];
      w.Record(was, Request(r, a));
      assert w.trace[..|w.trace| - 1] == before;
    }

    method ResetTicker(d: int) returns (panicked: bool)
      modifies w.ds, w`crash
      ensures panicked <==> d <= 0
      ensures w.Abs() == Apply(old(w.Abs()), ResetTo(d))
    {
      panicked := w.ds.ResetTicker(w.now, d);
      if panicked {
        w.crash := Some(BadPeriod);
      }
    }

    /** Wait until the channel is closed, as seen after `pause`, or the timeout is over. */
    method WaitOnGuard(r: nat, ghost q: Req, guard: Option<nat>, timeout: int, pause: nat)
      requires At(r, q) && q.ctrl == Parked(guard, w.now + timeout)
      modifies w, w.ds, w.gate, w.api
      ensures At(r, q.(ctrl := Done(Admitted(GuardReleased)))) && old(w.trace) <= w.trace
      ensures var seen := old(w.now) + pause;
              w.now == if guard.Some? && guard.value in w.gate.closed then seen else Later(seen, old(w.now) + timeout)
    {
      var deadline := w.now + timeout;
      w.Interfere(ByRequest(r), pause);
      if guard == None || guard.value !in w.gate.closed {
        w.SleepUntil(deadline);
      }
      ghost var was := w.Abs();
      Moved(was, r, Unpark, q.(ctrl := Done(Admitted(GuardReleased))));
    }

    /** Block until the clock shows `t`, while the others run. */
    method Await(r: nat, ghost q: Req, t: int)
      requires At(r, q)
      modifies w, w.ds, w.gate, w.api
      ensures At(r, q) && old(w.trace) <= w.trace && w.now == Later(old(w.now), t)
    {
      w.Interfere(ByRequest(r), if w.now < t then t - w.now else 0);
    }

    /** Where a request goes on when its window has seen the pods, or has timed out. */
    ghost function AfterSeen(q: Req, window: Window): Req
      reads w
    {
      q.(ctrl := if window == Grace then AtRearm(PodsReady) else Sleeping(w.now + RETENTION))
    }

    ghost function AfterTimeout(q: Req, window: Window): Req {
      q.(ctrl := if window == Grace then AtBegin else AtEnd(false))
    }

    /** Where a window that ended with `result` leaves the request. */
    ghost predicate Ended(r: nat, q: Req, window: Window, result: PollResult)
      reads w, w.ds, w.gate, w.api
    {
      match result
      case Panicked => w.Valid() && w.crash == Some(StatusNotMap) && r in w.reqs && w.reqs[r].snap == q.snap
      case PodsSeen => At(r, AfterSeen(q, window))
      case TimedOut => At(r, AfterTimeout(q, window))
    }

    /** Poll until the wanted number of replicas is ready or the window closes. */
    method InferencePoolPodsReady(r: nat, ghost q: Req, ghost window: Window, wanted: int, timeout: int,
                                  rounds: seq<Round>)
      returns (result: PollResult)
      requires At(r, q) && wanted == Wanted(q, window)
      requires q.ctrl == PollWait(window, w.now + POLL_INTERVAL, w.now + timeout)
      modifies w, w.ds, w.gate, w.api
      ensures old(w.trace) <= w.trace && Ended(r, q, window, result)
      ensures PollEnd(result, w.now - old(w.now)) == PollWindow(wanted, timeout, rounds)
    {
      var start := w.now;
      var next, deadline := start + POLL_INTERVAL, start + timeout;
      var k := 0;
      while k < |rounds|
        invariant 0 <= k <= |rounds|
        invariant At(r, q.(ctrl := PollWait(window, next, deadline))) && old(w.trace) <= w.trace
        invariant PollsTo(wanted, timeout, w.now - start, next - start, rounds[k..])
                  == PollWindow(wanted, timeout, rounds)
      {
        var ended := PollRound(r, q, window, wanted, next, deadline, rounds[k]);
        if ended.Some? {
          return ended.value;
        }
        next := next + POLL_INTERVAL;
        k := k + 1;
      }
      GiveUp(r, q, window, next, deadline);
      return TimedOut;
    }

    /** One poll when its second comes, unless the window is over by then. */
    method PollRound(r: nat, ghost q: Req, ghost window: Window, wanted: int, next: int, deadline: int, round: Round)
      returns (ended: Option<PollResult>)
      requires At(r, q.(ctrl := PollWait(window, next, deadline))) && wanted == Wanted(q, window)
      modifies w, w.ds, w.gate, w.api
      ensures old(w.trace) <= w.trace
      ensures var at := Later(old(w.now), next + round.late);
              if at >= deadline then ended == Some(TimedOut) && w.now == at
              else ended == Decides(wanted, round.seen) && w.now == at + round.latency
      ensures ended.Some? ==> Ended(r, q, window, ended.value)
      ensures ended == None ==> At(r, q.(ctrl := PollWait(window, next + POLL_INTERVAL, deadline)))
    {
      Await(r, q.(ctrl := PollWait(window, next, deadline)), next + round.late);
      if w.now >= deadline {
        GiveUp(r, q, window, next, deadline);
        return Some(TimedOut);
      }
      var done, panicked := Condition(r, q, window, wanted, next, deadline, round);
      return if panicked then Some(Panicked) else if done then Some(PodsSeen) else None;
    }

    /** The deadline of the window comes first. */
    method GiveUp(r: nat, ghost q: Req, ghost window: Window, ghost next: int, deadline: int)
      requires At(r, q.(ctrl := PollWait(window, next, deadline)))
      modifies w, w.ds, w.gate, w.api
      ensures At(r, AfterTimeout(q, window)) && old(w.trace) <= w.trace && w.now == Later(old(w.now), deadline)
    {
      Await(r, q.(ctrl := PollWait(window, next, deadline)), deadline);
      ghost var was := w.Abs();
      Moved(was, r, Timeout, AfterTimeout(q, window));
    }

    /** The condition that is polled: `done` when the wanted replicas are ready. */
    method Condition(r: nat, ghost q: Req, ghost window: Window, wanted: int, ghost next: int, ghost deadline: int,
                     round: Round)
      returns (done: bool, panicked: bool)
      requires At(r, q.(ctrl := PollWait(window, next, deadline))) && next <= w.now < deadline
      requires wanted == Wanted(q, window)
      modifies w, w.ds, w.gate, w.api
      ensures w.Valid() && old(w.trace) <= w.trace && w.now == old(w.now) + round.latency
      ensures panicked <==> round.seen == NoStatusMap
      ensures done <==> round.seen.Ready? && ToInt32(round.seen.n) == wanted
      ensures panicked <==> w.crash.Some?
      ensures panicked ==> w.crash == Some(StatusNotMap) && r in w.reqs && w.reqs[r].snap == q.snap
      ensures done ==> At(r, AfterSeen(q, window))
      ensures !panicked && !done ==> At(r, q.(ctrl := PollWait(window, next + POLL_INTERVAL, deadline)))
    {
      PollOnce(r, q, window, next, deadline);
      w.Interfere(ByRequest(r), round.latency);
      Look(r, q, window, next + POLL_INTERVAL, deadline, round.seen);
      panicked := round.seen == NoStatusMap;
      done := round.seen.Ready? && wanted == ToInt32(round.seen.n);
    }

    /** Turn the deactivator off for two more minutes, at a tick of the polling timer. */
    method PollOnce(r: nat, ghost q: Req, ghost window: Window, ghost next: int, ghost deadline: int)
      requires At(r, q.(ctrl := PollWait(window, next, deadline))) && next <= w.now < deadline
      modifies w, w.ds
      ensures At(r, q.(ctrl := PollGet(window, next + POLL_INTERVAL, deadline)))
      ensures old(w.trace) <= w.trace && w.now == old(w.now)
    {
      ghost var was := w.Abs();
      var _ := ResetTicker(DEFAULT_SCALE_DOWN_DELAY);
      Moved(was, r, Poll, q.(ctrl := PollGet(window, next + POLL_INTERVAL, deadline)));
    }

    /** What the object shows, entered in the history. */
    ghost method Look(r: nat, q: Req, window: Window, next: int, deadline: int, seen: Sighting)
      requires At(r, q.(ctrl := PollGet(window, next, deadline)))
      modifies w`reqs, w`trace, w`crash
      ensures w.Valid() && old(w.trace) <= w.trace
      ensures w.crash.Some? <==> seen == NoStatusMap
      ensures seen == NoStatusMap ==> w.crash == Some(StatusNotMap) && r in w.reqs && w.reqs[r].snap == q.snap
      ensures SeesReady(q, window, seen) ==> At(r, AfterSeen(q, window))
      ensures seen != NoStatusMap && !SeesReady(q, window, seen) ==> At(r, q.(ctrl := PollWait(window, next, deadline)))
    {
      var was := w.Abs();
      if seen == NoStatusMap {
        w.crash := Some(StatusNotMap);
      }
      Moved(was, r, Observe(seen), ActMove(w.c, was, was.reqs[r], Observe(seen)).req);
    }

    /** Scale the workload from zero to one replica, with the guard up. The verdict is the one
        that the update and the polls add up to, unless the end finds no channel to close. */
    method ScaleInferencePool(r: nat, ghost q: Req, scaleObject: Scale, env: Script)
      returns (v: Verdict, ghost u: UpdateOutcome)
      requires At(r, q) && q.ctrl == AtBegin && q.snap == scaleObject
      modifies w, w.ds, w.gate, w.api
      ensures w.Valid() && old(w.trace) <= w.trace && r in w.reqs && w.reqs[r].snap == q.snap
      ensures Met(r, env.update, u)
      ensures v == UpVerdict(u, env) || (v == Crashed && w.crash == Some(CloseOfNil))
      ensures v == Crashed <==> w.crash.Some?
      ensures v.ReadyBecause? ==> At(r, q.(ctrl := AtRearm(ScaledUp)))
      ensures v == NotReady ==> At(r, q.(ctrl := Done(Unavailable)))
    {
      BeginScalingUp(r, q, env.pauses.begin);
      var stored;
      ghost var k: nat;
      stored, u, k := StoreOne(r, q, scaleObject, env.update, env.pauses.update);
      ghost var sent := w.trace;
      var ready := false;
      if stored {
        var polled := InferencePoolPodsReady(r, q.(ctrl := w.reqs[r].ctrl), ScaleUp, 1, DEFAULT_GRACE, env.up);
        if polled == Panicked {
          UpdateMetStays(w.c, w.origin, sent, w.trace, k, r, env.update, u);
          return Crashed, u;
        }
        if polled == PodsSeen {
          Retain(r, q);
          ready := true;
        }
      }
      var panicked := EndScalingUp(r, q, ready, env.pauses.end);
      UpdateMetStays(w.c, w.origin, sent, w.trace, k, r, env.update, u);
      v := if panicked then Crashed else if ready then ReadyBecause(ScaledUp) else NotReady;
    }

    method BeginScalingUp(r: nat, ghost q: Req, pause: nat)
      requires At(r, q) && q.ctrl == AtBegin
      modifies w, w.ds, w.gate, w.api
      ensures At(r, q.(ctrl := AtUpdate)) && old(w.trace) <= w.trace
    {
      w.Interfere(ByRequest(r), pause);
      ghost var was := w.Abs();
      w.gate.BeginScalingUp();
      Moved(was, r, Begin, q.(ctrl := AtUpdate));
    }

    /** Set the replicas of the object read earlier to one and send it back. */
    method StoreOne(r: nat, ghost q: Req, scaleObject: Scale, fate: UpdateOutcome, pause: nat)
      returns (stored: bool, ghost u: UpdateOutcome, ghost k: nat)
      requires At(r, q.(ctrl := AtUpdate)) && q.snap == scaleObject
      modifies w, w.ds, w.gate, w.api
      ensures old(w.trace) <= w.trace && UpdateMet(w.c, w.origin, w.trace, k, r, fate, u)
      ensures stored <==> u == UpdateOutcome.Stored
      ensures At(r, q.(ctrl := if stored then PollWait(ScaleUp, w.now + POLL_INTERVAL, w.now + DEFAULT_GRACE)
                               else AtEnd(false)))
    {
      w.Interfere(ByRequest(r), pause);
      stored, u := SendOne(r, q, scaleObject, fate);
      k := |w.trace| - 1;
    }

    method SendOne(r: nat, ghost q: Req, scaleObject: Scale, fate: UpdateOutcome)
      returns (stored: bool, ghost u: UpdateOutcome)
      requires At(r, q.(ctrl := AtUpdate)) && q.snap == scaleObject
      modifies w, w.api
      ensures w.trace == old(w.trace) + [Request(r, Update(u))] && (stored <==> u == UpdateOutcome.Stored)
      ensures UpdateMet(w.c, w.origin, w.trace, |w.trace| - 1, r, fate, u)
      ensures At(r, q.(ctrl := if stored then PollWait(ScaleUp, w.now + POLL_INTERVAL, w.now + DEFAULT_GRACE)
                               else AtEnd(false)))
    {
      ghost var was := w.Abs();
      var met := w.api.Update(scaleObject.(spec := 1), fate);
      stored := met == UpdateOutcome.Stored;
      u := met;
      Moved(was, r, Update(met), ActMove(w.c, was, was.reqs[r], Update(met)).req);
    }

    /** Keep the request while the endpoint picker learns of the new pods. */
    method Retain(r: nat, ghost q: Req)
      requires At(r, q.(ctrl := Sleeping(w.now + RETENTION)))
      modifies w, w.ds, w.gate, w.api
      ensures At(r, q.(ctrl := AtEnd(true))) && old(w.trace) <= w.trace && w.now == old(w.now) + RETENTION
    {
      var until := w.now + RETENTION;
      Await(r, q.(ctrl := Sleeping(until)), until);
      ghost var was := w.Abs();
      Moved(was, r, Wake, q.(ctrl := AtEnd(true)));
    }

    method EndScalingUp(r: nat, ghost q: Req, ghost ready: bool, pause: nat) returns (panicked: bool)
      requires At(r, q.(ctrl := AtEnd(ready)))
      modifies w, w.ds, w.gate, w.api
      ensures w.Valid() && old(w.trace) <= w.trace && (panicked <==> w.crash.Some?)
      ensures panicked ==> w.crash == Some(CloseOfNil)
      ensures r in w.reqs && w.reqs[r] == q.(ctrl := if ready then AtRearm(ScaledUp) else Done(Unavailable))
    {
      w.Interfere(ByRequest(r), pause);
      ghost var was := w.Abs();
      panicked := w.gate.EndScalingUp();
      if panicked {
        w.crash := Some(CloseOfNil);
      }
      Moved(was, r, End, q.(ctrl := if ready then AtRearm(ScaledUp) else Done(Unavailable)));
    }

    /** Whether the pool has ready replicas, scaling it up if it has none: the verdict that the
        answers add up to, unless the end of the scale-up finds no channel to close. */
    method InferencePoolReady(r: nat, ghost q: Req, pool: Pool, env: Script)
      returns (v: Verdict, ghost u: UpdateOutcome)
      requires At(r, q) && q.ctrl == AtGet && q.pool == pool
      modifies w, w.ds, w.gate, w.api
      ensures w.Valid() && old(w.trace) <= w.trace && r in w.reqs
      ensures HasRead(r, pool, env.got, w.reqs[r].snap)
      ensures ScalesUp(w.c, pool, w.reqs[r].snap, env) ==> Met(r, env.update, u)
      ensures v == VerdictFor(w.c, pool, w.reqs[r].snap, u, env) || (v == Crashed && w.crash == Some(CloseOfNil))
      ensures v == Crashed <==> w.crash.Some?
      ensures v.ReadyBecause? ==> At(r, q.(snap := w.reqs[r].snap, ctrl := AtRearm(v.why)))
      ensures v == NotReady ==> w.reqs[r].ctrl == Done(Unavailable)
    {
      u := Refused;
      var scaleObject := ReadScale(r, q, pool, env.got, env.pauses.get);
      ghost var read, snap := w.trace, w.reqs[r].snap;
      if !Annotated(pool) || env.got == NoResource {
        return NotReady, u;
      }
      if env.got == GetFailed {
        return ReadyBecause(ScaleGetFailed), u;
      }
      v, u := ReadyOrScaled(r, q, pool, scaleObject, env);
      StillTold(read, r, pool, env, snap, u, false);
    }

    /** Enough replicas are ready within the grace period, or the pool is scaled up. */
    method ReadyOrScaled(r: nat, ghost q: Req, pool: Pool, scaleObject: Scale, env: Script)
      returns (v: Verdict, ghost u: UpdateOutcome)
      requires Annotated(pool) && env.got == GetOk && q.pool == pool
      requires At(r, q.(snap := scaleObject,
                        ctrl := if scaleObject.spec > 0
                                then PollWait(Grace, w.now + POLL_INTERVAL, w.now + GracePeriod(w.c, pool))
                                else AtBegin))
      modifies w, w.ds, w.gate, w.api
      ensures w.Valid() && old(w.trace) <= w.trace && r in w.reqs && w.reqs[r].snap == scaleObject
      ensures ScalesUp(w.c, pool, scaleObject, env) ==> Met(r, env.update, u)
      ensures v == VerdictFor(w.c, pool, scaleObject, u, env) || (v == Crashed && w.crash == Some(CloseOfNil))
      ensures v == Crashed <==> w.crash.Some?
      ensures v.ReadyBecause? ==> At(r, q.(snap := scaleObject, ctrl := AtRearm(v.why)))
      ensures v == NotReady ==> w.reqs[r].ctrl == Done(Unavailable)
    {
      u := Refused;
      if scaleObject.spec > 0 {
        var polled := InferencePoolPodsReady(r, w.reqs[r], Grace, scaleObject.spec, GracePeriod(w.c, pool), env.grace);
        if polled == Panicked {
          return Crashed, u;
        }
        if polled == PodsSeen {
          return ReadyBecause(PodsReady), u;
        }
      }
      v, u := ScaleInferencePool(r, q.(snap := scaleObject, ctrl := AtBegin), scaleObject, env);
    }

    /** Find and read the scale object of the pool's target. */
    method ReadScale(r: nat, ghost q: Req, pool: Pool, got: GetOutcome, pause: nat) returns (scaleObject: Scale)
      requires At(r, q) && q.ctrl == AtGet && q.pool == pool
      modifies w, w.ds, w.gate, w.api
      ensures old(w.trace) <= w.trace && r in w.reqs
      ensures ReadMet(w.c, w.origin, w.trace, |w.trace| - 1, r, pool, got, w.reqs[r].snap)
      ensures !Annotated(pool) || got == NoResource ==> At(r, q.(ctrl := Done(Unavailable)))
      ensures Annotated(pool) && got == GetFailed ==> At(r, q.(ctrl := AtRearm(ScaleGetFailed)))
      ensures Annotated(pool) && got == GetOk ==>
                At(r, q.(snap := scaleObject,
                         ctrl := if scaleObject.spec > 0
                                 then PollWait(Grace, w.now + POLL_INTERVAL, w.now + GracePeriod(w.c, pool))
                                 else AtBegin))
    {
      w.Interfere(ByRequest(r), pause);
      scaleObject := w.api.Get();
      ReadNow(r, q, got);
    }

    /** The read, entered in the history. */
    ghost method ReadNow(r: nat, q: Req, got: GetOutcome)
      requires At(r, q) && q.ctrl == AtGet
      modifies w`reqs, w`trace
      ensures w.trace == old(w.trace) + [Request(r, Get(got))] && At(r, ActGet(w.c, old(w.Abs()), q, got))
      ensures ReadMet(w.c, w.origin, w.trace, |w.trace| - 1, r, q.pool, got, w.reqs[r].snap)
    {
      var was := w.Abs();
      Moved(was, r, Get(got), ActGet(w.c, was, q, got));
    }

    /** One call of `MayActivate`, by a request that has just come in; `None` when the process
        panics. The history it leaves is a run of the system in which this request ends with
        the outcome returned. That outcome is `NotSynced` exactly without a pool, and a release
        from the guard exactly if the guard was up when the request checked it; any other request
        gets the one that the environment's answers add up to, unless the end of its scale-up
        finds no channel to close. */
    method MayActivate(r: nat, env: Script) returns (o: Option<Outcome>, ghost u: UpdateOutcome)
      requires w.Alive() && r !in w.reqs
      modifies w, w.ds, w.gate, w.api
      ensures w.Valid() && old(w.trace) <= w.trace && r in w.reqs
      ensures o == None <==> w.crash.Some?
      ensures o.Some? ==> w.reqs[r].ctrl == Done(o.value)
      ensures o == Some(Outcome.NotSynced) <==> old(w.ds.pool) == None
      ensures old(w.ds.pool).Some? ==> Checked(r, o == Some(Admitted(GuardReleased)))
      ensures old(w.ds.pool).Some? && o != Some(Admitted(GuardReleased)) ==>
                var pool, snap := old(w.ds.pool).value, w.reqs[r].snap;
                && HasRead(r, pool, env.got, snap)
                && (ScalesUp(w.c, pool, snap, env) ==> Met(r, env.update, u))
                && (|| o == OutcomeFor(w.c, pool, VerdictFor(w.c, pool, snap, u, env))
                    || (o == None && w.crash == Some(CloseOfNil)))
    {
      u := Refused;
      var found := Arrives(r);
      if found.NotSynced? {
        return Some(Outcome.NotSynced), u;
      }
      o, u := WaitOrServe(r, w.reqs[r], found.pool, env);
    }

    /** Wait for a scale-up in progress, or see to the pool. */
    method WaitOrServe(r: nat, ghost q: Req, pool: Pool, env: Script)
      returns (o: Option<Outcome>, ghost u: UpdateOutcome)
      requires At(r, q) && q.ctrl == AtCheck && q.pool == pool
      modifies w, w.ds, w.gate, w.api
      ensures w.Valid() && old(w.trace) <= w.trace && r in w.reqs
      ensures o == None <==> w.crash.Some?
      ensures o.Some? ==> w.reqs[r].ctrl == Done(o.value) && o != Some(Outcome.NotSynced)
      ensures Checked(r, o == Some(Admitted(GuardReleased)))
      ensures o != Some(Admitted(GuardReleased)) ==>
                var snap := w.reqs[r].snap;
                && HasRead(r, pool, env.got, snap)
                && (ScalesUp(w.c, pool, snap, env) ==> Met(r, env.update, u))
                && (|| o == OutcomeFor(w.c, pool, VerdictFor(w.c, pool, snap, u, env))
                    || (o == None && w.crash == Some(CloseOfNil)))
    {
      u := Refused;
      var scalingUp, guard := CheckGuard(r, q, env.pauses.check);
      ghost var checked := w.trace;
      if scalingUp {
        WaitOnGuard(r, w.reqs[r], guard, DEFAULT_GRACE, env.pauses.guard);
        o := Some(Admitted(GuardReleased));
      } else {
        o, u := ServeOrRefuse(r, w.reqs[r], pool, env);
      }
      StillChecked(checked, r, scalingUp);
    }

    /** The rest of `MayActivate` when no scale-up is in progress. */
    method ServeOrRefuse(r: nat, ghost q: Req, pool: Pool, env: Script)
      returns (o: Option<Outcome>, ghost u: UpdateOutcome)
      requires At(r, q) && q.ctrl == AtGet && q.pool == pool
      modifies w, w.ds, w.gate, w.api
      ensures w.Valid() && old(w.trace) <= w.trace && r in w.reqs
      ensures o == None <==> w.crash.Some?
      ensures o.Some? ==> w.reqs[r].ctrl == Done(o.value)
      ensures o != Some(Admitted(GuardReleased)) && o != Some(Outcome.NotSynced)
      ensures HasRead(r, pool, env.got, w.reqs[r].snap)
      ensures ScalesUp(w.c, pool, w.reqs[r].snap, env) ==> Met(r, env.update, u)
      ensures o == OutcomeFor(w.c, pool, VerdictFor(w.c, pool, w.reqs[r].snap, u, env))
              || (o == None && w.crash == Some(CloseOfNil))
    {
      var v;
      v, u := InferencePoolReady(r, q, pool, env);
      if v == Crashed {
        return None, u;
      }
      if v == NotReady {
        return Some(Unavailable), u;
      }
      ghost var before, snap := w.trace, w.reqs[r].snap;
      o := LetsThrough(r, w.reqs[r], pool, v.why, env.pauses.rearm);
      StillTold(before, r, pool, env, snap, u, ScalesUp(w.c, pool, snap, env));
    }

    /** What the history tells it goes on telling. */
    lemma StillChecked(before: seq<Label>, r: nat, up: bool)
      requires before <= w.trace && |before| > 0 && CheckMet(w.c, w.origin, before, |before| - 1, r, up)
      ensures Checked(r, up)
    {
      CheckMetStays(w.c, w.origin, before, w.trace, |before| - 1, r, up);
    }

    lemma StillTold(before: seq<Label>, r: nat, pool: Pool, env: Script, obj: Scale, u: UpdateOutcome, met: bool)
      requires before <= w.trace && exists k: nat :: ReadMet(w.c, w.origin, before, k, r, pool, env.got, obj)
      requires met ==> exists k: nat :: UpdateMet(w.c, w.origin, before, k, r, env.update, u)
      ensures HasRead(r, pool, env.got, obj) && (met ==> Met(r, env.update, u))
    {
      var k: nat :| ReadMet(w.c, w.origin, before, k, r, pool, env.got, obj);
      ReadMetStays(w.c, w.origin, before, w.trace, k, r, pool, env.got, obj);
      if met {
        var m: nat :| UpdateMet(w.c, w.origin, before, m, r, env.update, u);
        UpdateMetStays(w.c, w.origin, before, w.trace, m, r, env.update, u);
      }
    }

    method Arrives(r: nat) returns (found: PoolResult)
      requires w.Alive() && r !in w.reqs
      modifies w`reqs, w`trace
      ensures w.Alive() && old(w.trace) <= w.trace && r in w.reqs
      ensures found.NotSynced? <==> w.ds.pool == None
      ensures found.NotSynced? ==> w.reqs[r].ctrl == Done(Outcome.NotSynced)
      ensures found.Found? ==> w.ds.pool == Some(found.pool) && w.reqs[r] == Req(found.pool, UNREAD, AtCheck)
    {
      found := w.ds.PoolGet();
      ghost var was := w.Abs();
      w.reqs := w.reqs[r := Arrival(was.store)];
      w.Record(was, Arrive(r));
    }

    method CheckGuard(r: nat, ghost q: Req, pause: nat) returns (scalingUp: bool, guard: Option<nat>)
      requires At(r, q) && q.ctrl == AtCheck
      modifies w, w.ds, w.gate, w.api
      ensures old(w.trace) <= w.trace && CheckMet(w.c, w.origin, w.trace, |w.trace| - 1, r, scalingUp)
      ensures At(r, q.(ctrl := if scalingUp then Parked(guard, w.now + DEFAULT_GRACE) else AtGet))
    {
      w.Interfere(ByRequest(r), pause);
      scalingUp, guard := w.gate.IsScalingUp();
      ghost var was := w.Abs();
      Moved(was, r, Check, q.(ctrl := if scalingUp then Parked(guard, was.now + DEFAULT_GRACE) else AtGet));
    }

    /** Restart the scale-to-zero countdown and let the request through. */
    method LetsThrough(r: nat, ghost q: Req, pool: Pool, why: Reason, pause: nat)
      returns (o: Option<Outcome>)
      requires At(r, q) && q.ctrl == AtRearm(why) && q.pool == pool
      modifies w, w.ds, w.gate, w.api
      ensures w.Valid() && old(w.trace) <= w.trace && r in w.reqs && w.reqs[r] == q.(ctrl := Done(Admitted(why)))
      ensures o == OutcomeFor(w.c, pool, ReadyBecause(why)) && (o == None <==> w.crash.Some?)
    {
      w.Interfere(ByRequest(r), pause);
      ghost var was := w.Abs();
      var panicked := ResetTicker(ScaleDownDelay(w.c, pool));
      Moved(was, r, Rearm, q.(ctrl := Done(Admitted(why))));
      o := if panicked then None else Some(Admitted(why));
    }
  }

  /** The history of a world is a run of the system, and in it the outcome of every answered
      request has its evidence. */
  lemma HistoryExplainsOutcome(w: World, r: nat) returns (run: Run)
    requires w.Valid() && r in w.reqs && w.reqs[r].ctrl.Done?
    ensures IsRun(w.c, run) && run.labels == w.trace && Last(run) == w.Abs()
    ensures forall why :: w.reqs[r].ctrl.outcome == Admitted(why) <==> Evidence(run, |run.labels|, r, why)
  {
    run := ExecIsRun(w.c, w.origin, w.trace);
    forall why
      ensures w.reqs[r].ctrl.outcome == Admitted(why) <==> Evidence(run, |run.labels|, r, why)
    {
      AdmittedIffEvidence(w.c, run, |run.labels|, r, why);
    }
  }

  /** In the history of a world a request checks the guard once and reads the scale object once,
      so what `Checked` and `HasRead` tell is all there is. */
  lemma HistoryChecksAndReadsOnce(w: World, j: nat, k: nat, r: nat)
    requires w.Valid() && j < k < |w.trace| && w.trace[k].Request? && w.trace[k].r == r
    requires w.trace[j].Request? && w.trace[j].r == r
    ensures !(w.trace[j].a == Check && w.trace[k].a == Check) && !(w.trace[j].a.Get? && w.trace[k].a.Get?)
  {
    var run := ExecIsRun(w.c, w.origin, w.trace);
    ChecksAndReadsOnce(w.c, run, j, k, r);
  }
}
