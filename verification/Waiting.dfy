/** How long a request can be held, and what the deactivator can do meanwhile, when the
    request's own timers fire on time. */
module Waiting {
  import opened Pools
  import opened System
  import opened Safety
  import opened Writing
  import opened Admission
  import opened Timing

  /** Time may pass by `dt` without a request oversleeping: code between waits takes no
      time, waits end at their deadlines, and only the scale calls take as long as they
      like. */
  predicate OnTime(k: Ctrl, now: int, dt: int) {
    match k
    case AtCheck => false
    case Parked(_, until) => now + dt <= until
    case AtGet => true
    case PollWait(_, _, deadline) => now + dt <= deadline
    case PollGet(_, _, deadline) => now + dt <= deadline
    case AtBegin => false
    case AtUpdate => true
    case Sleeping(until) => now + dt <= until
    case AtEnd(_) => false
    case AtRearm(_) => false
    case Done(_) => true
  }

  /** Request `r` itself is on time throughout the run; the others may stall as they like. */
  ghost predicate PromptFor(run: Run, r: nat)
    requires |run.labels| <= |run.states|
  {
    forall i: nat :: i < |run.labels| ==> PromptStep(run.states[i], run.labels[i], r)
  }

  predicate PromptStep(s: State, l: Label, r: nat) {
    l.Advance? && r in s.reqs ==> OnTime(s.reqs[r].ctrl, s.now, l.dt)
  }

  // ----- The longest wait -----

  /** The part of a step's duration that request `r` spends in a scale call. */
  function CallTime(s: State, l: Label, r: nat): int {
    if l.Advance? && r in s.reqs && (s.reqs[r].ctrl.AtGet? || s.reqs[r].ctrl.AtUpdate?) then l.dt else 0
  }

  /** Time since the arrival of `r` at step `a`, without its scale calls. */
  ghost function Waited(run: Run, a: nat, i: nat, r: nat): int
    requires a < i < |run.states| <= |run.labels| + 1
  {
    if i == a + 1 then 0
    else Waited(run, a, i - 1, r) + run.states[i].now - run.states[i - 1].now
         - CallTime(run.states[i - 1], run.labels[i - 1], r)
  }

  /** The grace window is only opened when the replica count read is positive. */
  function GraceCost(c: Config, q: Req): int {
    if q.snap.spec > 0 && GracePeriod(c, q.pool) > 0 then GracePeriod(c, q.pool) else 0
  }

  ghost predicate WaitedOk(c: Config, q: Req, now: int, w: int) {
    match q.ctrl
    case AtCheck => w == 0
    case Parked(_, until) => w + until - now == DEFAULT_GRACE && now <= until
    case AtGet => w == 0
    case PollWait(win, _, deadline) => WindowOk(c, q, win, deadline, now, w)
    case PollGet(win, _, deadline) => WindowOk(c, q, win, deadline, now, w)
    case AtBegin => w <= GraceCost(c, q)
    case AtUpdate => w <= GraceCost(c, q)
    case Sleeping(until) => w + until - now <= GraceCost(c, q) + DEFAULT_GRACE + RETENTION && now <= until
    case AtEnd(_) => w <= GraceCost(c, q) + DEFAULT_GRACE + RETENTION
    case AtRearm(_) => w <= GraceCost(c, q) + DEFAULT_GRACE + RETENTION
    case Done(_) => true
  }

  ghost predicate WindowOk(c: Config, q: Req, win: Window, deadline: int, now: int, w: int) {
    if win == Grace then
      && q.snap.spec > 0 && w + deadline - now == GracePeriod(c, q.pool)
      && (now <= deadline || w == 0)
    else
      && w + deadline - now <= GraceCost(c, q) + DEFAULT_GRACE
      && now <= deadline
  }

  lemma WaitedGet(c: Config, s: State, q: Req, got: GetOutcome, w: int)
    requires CanAct(s, q, Get(got)) && WaitedOk(c, q, s.now, w)
    ensures WaitedOk(c, ActGet(c, s, q, got), s.now, w)
  {
  }

  lemma WaitedObserve(c: Config, s: State, q: Req, seen: Sighting, w: int)
    requires q.ctrl.PollGet? && WaitedOk(c, q, s.now, w)
    ensures WaitedOk(c, ActObserve(s, q, seen).req, s.now, w)
  {
  }

  lemma WaitedMove(c: Config, s: State, q: Req, a: Act, w: int)
    requires CanAct(s, q, a) && WaitedOk(c, q, s.now, w)
    ensures WaitedOk(c, ActMove(c, s, q, a).req, s.now, w)
  {
    match a
    case Get(got) => WaitedGet(c, s, q, got, w);
    case Observe(seen) => WaitedObserve(c, s, q, seen, w);
    case _ =>
  }

  lemma WaitedAdvance(c: Config, q: Req, now: int, dt: int, w: int)
    requires dt > 0 && OnTime(q.ctrl, now, dt) && WaitedOk(c, q, now, w)
    ensures WaitedOk(c, q, now + dt, if q.ctrl.AtGet? || q.ctrl.AtUpdate? then w else w + dt)
  {
  }

  lemma WaitedStep(c: Config, s: State, l: Label, r: nat, w: int)
    requires Enabled(s, l) && PromptStep(s, l, r)
    requires r in s.reqs && WaitedOk(c, s.reqs[r], s.now, w)
    ensures r in Next(c, s, l).reqs
    ensures WaitedOk(c, Next(c, s, l).reqs[r], Next(c, s, l).now, w + Next(c, s, l).now - s.now - CallTime(s, l, r))
  {
    TimeOfNext(c, s, l);
    if l.Request? && l.r == r {
      ReqsOfNext(c, s, l);
      WaitedMove(c, s, s.reqs[r], l.a, w);
    } else {
      OthersKeepTheirPlace(c, s, l, r);
      if l.Advance? {
        WaitedAdvance(c, s.reqs[r], s.now, l.dt, w);
      }
    }
  }

  lemma {:induction false} WaitedStaysOk(c: Config, run: Run, a: nat, i: nat, r: nat)
    requires IsRun(c, run) && PromptFor(run, r) && a < i < |run.states| && run.labels[a] == Arrive(r)
    ensures r in run.states[i].reqs
    ensures WaitedOk(c, run.states[i].reqs[r], run.states[i].now, Waited(run, a, i, r))
  {
    assert StepAt(c, run, i - 1) && PromptStep(run.states[i - 1], run.labels[i - 1], r);
    if a < i - 1 {
      WaitedStaysOk(c, run, a, i - 1, r);
      WaitedStep(c, run.states[i - 1], run.labels[i - 1], r, Waited(run, a, i - 1, r));
    }
  }

  /** Blocking bound: as long as a request has not been answered it has waited, its scale
      calls aside, at most 60 s when parked on the guard, at most 65 s when it read zero
      replicas, and at most its grace period plus 65 s otherwise. */
  lemma LongestWait(c: Config, run: Run, a: nat, i: nat, r: nat)
    requires IsRun(c, run) && PromptFor(run, r) && a < i < |run.states| && run.labels[a] == Arrive(r)
    requires r in run.states[i].reqs && !run.states[i].reqs[r].ctrl.Done?
    ensures var q := run.states[i].reqs[r];
            && (q.ctrl.Parked? ==> Waited(run, a, i, r) <= 60 * SECOND)
            && (q.snap.spec <= 0 ==> Waited(run, a, i, r) <= 65 * SECOND)
            && Waited(run, a, i, r) <= GraceCost(c, q) + 65 * SECOND
            && (GRACE_KEY !in q.pool.annotations ==> Waited(run, a, i, r) <= 125 * SECOND)
  {
    WaitedStaysOk(c, run, a, i, r);
  }

  // ----- Polls per window -----

  /** The polls of request `r` in this window among the first `i` steps. */
  ghost function Polls(run: Run, i: nat, r: nat, w: Window): nat
    requires i < |run.states| <= |run.labels| + 1
  {
    if i == 0 then 0 else
    Polls(run, i - 1, r, w) +
    if && run.labels[i - 1] == Request(r, Poll) && r in run.states[i - 1].reqs
       && run.states[i - 1].reqs[r].ctrl.PollWait? && run.states[i - 1].reqs[r].ctrl.window == w
    then 1 else 0
  }

  function WindowLength(c: Config, q: Req, w: Window): int {
    if w == Grace then GracePeriod(c, q.pool) else DEFAULT_GRACE
  }

  /** Before, inside and after window `w`. */
  ghost predicate PollsOk(c: Config, q: Req, w: Window, n: nat) {
    if (q.ctrl.PollWait? || q.ctrl.PollGet?) && q.ctrl.window == w then
      && q.ctrl.next == q.ctrl.deadline - WindowLength(c, q, w) + (n + 1) * POLL_INTERVAL
      && (n == 0 || n * POLL_INTERVAL < WindowLength(c, q, w))
    else if q.ctrl.AtCheck? || q.ctrl.Parked? || q.ctrl.AtGet? then n == 0
    else if w == ScaleUp && (q.ctrl.AtBegin? || q.ctrl.AtUpdate? || InGrace(q.ctrl)) then n == 0
    else n == 0 || n * POLL_INTERVAL < WindowLength(c, q, w)
  }

  lemma PollsStep(c: Config, s: State, l: Label, r: nat, w: Window, n: nat)
    requires Enabled(s, l) && r in s.reqs && PollsOk(c, s.reqs[r], w, n)
    ensures r in Next(c, s, l).reqs
    ensures PollsOk(c, Next(c, s, l).reqs[r], w,
                    n + if l == Request(r, Poll) && s.reqs[r].ctrl.PollWait? && s.reqs[r].ctrl.window == w
                        then 1 else 0)
  {
    ReqsOfNext(c, s, l);
  }

  /** A request polls at most once per second of a window, never at its end: 59 times in the
      default window, and not at all when the grace period is a second or less. */
  lemma {:induction false} PollsAreBounded(c: Config, run: Run, i: nat, r: nat, w: Window)
    requires IsRun(c, run) && i < |run.states|
    ensures r !in run.states[i].reqs ==> Polls(run, i, r, w) == 0
    ensures r in run.states[i].reqs ==> PollsOk(c, run.states[i].reqs[r], w, Polls(run, i, r, w))
  {
    if i > 0 {
      assert StepAt(c, run, i - 1);
      PollsAreBounded(c, run, i - 1, r, w);
      ReqsOfNext(c, run.states[i - 1], run.labels[i - 1]);
      if r in run.states[i - 1].reqs {
        PollsStep(c, run.states[i - 1], run.labels[i - 1], r, w, Polls(run, i - 1, r, w));
      }
    }
  }

  /** At most 59 polls in the window of a scale-up, and in a default grace window. */
  lemma AtMost59Polls(c: Config, run: Run, i: nat, r: nat)
    requires IsRun(c, run) && i < |run.states| && r in run.states[i].reqs
    ensures Polls(run, i, r, ScaleUp) <= 59
    ensures GRACE_KEY !in run.states[i].reqs[r].pool.annotations ==> Polls(run, i, r, Grace) <= 59
  {
    PollsAreBounded(c, run, i, r, ScaleUp);
    PollsAreBounded(c, run, i, r, Grace);
  }

  // ----- The quiet window -----

  /** A scale-up that polled at time `t0` is over 64 s later: at most 59 s of polling are
      left, and 5 s of retention. */
  const QUIET: int := 64 * SECOND

  predicate QuietOk(k: Ctrl, now: int, t0: int) {
    match k
    case PollWait(w, _, deadline) => w == ScaleUp && now <= deadline <= t0 + QUIET - RETENTION
    case PollGet(w, _, deadline) => w == ScaleUp && now <= deadline <= t0 + QUIET - RETENTION
    case Sleeping(until) => now <= until <= t0 + QUIET
    case AtEnd(_) => now <= t0 + QUIET
    case _ => false
  }

  lemma QuietStep(c: Config, s: State, l: Label, r: nat, t0: int)
    requires Enabled(s, l) && PromptStep(s, l, r) && r in s.reqs && QuietOk(s.reqs[r].ctrl, s.now, t0)
    ensures r in Next(c, s, l).reqs
    ensures InScaleUp(Next(c, s, l).reqs[r].ctrl) ==> QuietOk(Next(c, s, l).reqs[r].ctrl, Next(c, s, l).now, t0)
    ensures !InScaleUp(Next(c, s, l).reqs[r].ctrl) ==> l == Request(r, End)
  {
    ReqsOfNext(c, s, l);
  }

  /** A scale-up poll leaves at most 59 s to the deadline of its window. */
  lemma PollsFromFirstSecond(c: Config, run: Run, i: nat, r: nat)
    requires IsRun(c, run) && i < |run.labels| && run.labels[i] == Request(r, Poll)
    requires r in run.states[i].reqs && InScaleUp(run.states[i].reqs[r].ctrl)
    ensures r in run.states[i + 1].reqs
    ensures QuietOk(run.states[i + 1].reqs[r].ctrl, run.states[i + 1].now, run.states[i].now)
  {
    assert StepAt(c, run, i);
    PollsAreBounded(c, run, i, r, ScaleUp);
    ReqsOfNext(c, run.states[i], run.labels[i]);
  }

  /** The run from a scale-up poll of `r` at step `i` up to step `j`, with `r` still scaling
      up. */
  ghost predicate Span(run: Run, i: nat, j: nat, r: nat) {
    && i < j < |run.states| == |run.labels| + 1
    && run.labels[i] == Request(r, Poll)
    && r in run.states[i].reqs && InScaleUp(run.states[i].reqs[r].ctrl)
    && (forall k: nat :: i < k < j ==> run.labels[k] != Request(r, End))
  }

  /** Step `k` resets the ticker to a period shorter than `d`. */
  ghost predicate ResetsBelow(c: Config, run: Run, k: nat, d: int)
    requires IsRun(c, run) && k < |run.labels|
  {
    && StepAt(c, run, k)
    && ResetPeriod(c, run.states[k], run.labels[k]).Some?
    && ResetPeriod(c, run.states[k], run.labels[k]).value < d
  }

  /** A span in which every reset is to `d` or more. */
  ghost predicate SpanAbove(c: Config, run: Run, i: nat, j: nat, r: nat, d: int)
    requires IsRun(c, run)
  {
    Span(run, i, j, r) && forall k: nat :: i <= k < j ==> !ResetsBelow(c, run, k, d)
  }

  lemma {:induction false} QuietThrough(c: Config, run: Run, i: nat, j: nat, r: nat)
    requires IsRun(c, run) && PromptFor(run, r) && SpanAbove(c, run, i, j, r, QUIET + 1) && run.states[j].crash == None
    ensures r in run.states[j].reqs && QuietOk(run.states[j].reqs[r].ctrl, run.states[j].now, run.states[i].now)
    ensures SilentUntil(run.states[j], run.states[i].now + QUIET + 1)
  {
    assert StepAt(c, run, j - 1);
    assert !ResetsBelow(c, run, j - 1, QUIET + 1);
    if i == j - 1 {
      PollsFromFirstSecond(c, run, i, r);
      SilenceStep(c, run.states[i], run.labels[i], 0);
    } else {
      QuietThrough(c, run, i, j - 1, r);
      TimeGrows(c, run, i, j - 1);
      assert PromptStep(run.states[j - 1], run.labels[j - 1], r);
      QuietStep(c, run.states[j - 1], run.labels[j - 1], r, run.states[i].now);
      SilenceStep(c, run.states[j - 1], run.labels[j - 1], run.states[i].now + QUIET + 1);
    }
  }

  /** Quiet window: from a poll of a scale-up to its end the deactivator receives no tick,
      unless some reset in between sets a period of 64 s or less. */
  lemma NoTickDuringScaleUp(c: Config, run: Run, i: nat, j: nat, r: nat)
    requires IsRun(c, run) && PromptFor(run, r) && SpanAbove(c, run, i, j, r, QUIET + 1)
    ensures forall k: nat :: i <= k < j ==> run.labels[k] != Deactivator(Receive)
  {
    forall k: nat | i < k < j
      ensures run.labels[k] != Deactivator(Receive)
    {
      assert StepAt(c, run, k);
      QuietThrough(c, run, i, k, r);
    }
  }

  /** The deactivator has received a tick and not yet finished with it. */
  predicate Acting(d: DCtrl) {
    d.Ticked? || d.Fetching? || d.Holding?
  }

  /** How many writes of zero are stored from step `i` to before step `j`. */
  ghost function ZeroWrites(run: Run, i: nat, j: nat): nat
    requires i <= j <= |run.labels|
  {
    if i == j then 0 else ZeroWrites(run, i, j - 1) + if WritesFor(run.labels[j - 1], ByDeactivator) then 1 else 0
  }

  lemma {:induction false} OneTickOneWrite(c: Config, run: Run, i: nat, j: nat)
    requires IsRun(c, run) && i <= j < |run.states|
    requires forall k: nat :: i <= k < j ==> run.labels[k] != Deactivator(Receive)
    ensures ZeroWrites(run, i, j) + (if Acting(run.states[j].deact) then 1 else 0)
            <= if Acting(run.states[i].deact) then 1 else 0
  {
    if i < j {
      assert StepAt(c, run, j - 1);
      OneTickOneWrite(c, run, i, j - 1);
    }
  }

  /** Hence at most one write of zero lands in that span, and only on a tick that was
      received before it. */
  lemma AtMostOneWriteDuringScaleUp(c: Config, run: Run, i: nat, j: nat, r: nat)
    requires IsRun(c, run) && PromptFor(run, r) && SpanAbove(c, run, i, j, r, QUIET + 1)
    ensures ZeroWrites(run, i, j) <= 1
    ensures ZeroWrites(run, i, j) == 1 ==> Acting(run.states[i].deact)
  {
    NoTickDuringScaleUp(c, run, i, j, r);
    OneTickOneWrite(c, run, i, j);
  }
}
