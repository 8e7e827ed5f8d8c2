/** The whole protocol as a labelled transition system: any number of requests, the
    deactivator, the reconciler, the ticker, the clock and the API server.

    A label names who moves and fixes every outcome the environment decides, so that
    `Next` is a function of the state and the label. */
module System {
  import opened Pools
  import opened Tickers
  import opened Guards
  import opened Reconciling

  // ----- API server -----

  /** The scale subresource: the desired replicas and the resource version. */
  datatype Scale = Scale(spec: int, version: nat)

  datatype GetOutcome = NoResource | GetFailed | GetOk

  /** `Lost`: the server stored the write but the client saw an error. */
  datatype UpdateOutcome = Stored | Refused | Lost

  /** What one poll of the target object sees. */
  datatype Sighting = ObjectFailed | NoStatusMap | NoReadyField | Ready(n: int)

  // ----- Requests -----

  datatype Window = Grace | ScaleUp

  /** Why a request was let through. */
  datatype Reason = GuardReleased | ScaleGetFailed | PodsReady | ScaledUp

  datatype Outcome = Admitted(why: Reason) | NotSynced | Unavailable

  /** Where a request stands inside `MayActivate`. */
  datatype Ctrl =
    | AtCheck
    | Parked(guard: Option<nat>, until: int)
    | AtGet
    | PollWait(window: Window, next: int, deadline: int)
    | PollGet(window: Window, next: int, deadline: int)
    | AtBegin
    | AtUpdate
    | Sleeping(until: int)
    | AtEnd(ready: bool)
    | AtRearm(why: Reason)
    | Done(outcome: Outcome)

  /** `pool` is the pool read on arrival, `snap` the scale object read at `AtGet`. */
  datatype Req = Req(pool: Pool, snap: Scale, ctrl: Ctrl)

  datatype Act =
    | Check
    | Unpark
    | Get(got: GetOutcome)
    | Poll
    | Observe(seen: Sighting)
    | Timeout
    | Begin
    | Update(upd: UpdateOutcome)
    | Wake
    | End
    | Rearm

  // ----- Deactivator -----

  datatype DCtrl = Booting | Idle | Ticked | Fetching | Holding(snap: Scale) | Stopped

  datatype DAct = Boot | Receive | ReadPool | ReadScale(got: GetOutcome) | WriteZero(upd: UpdateOutcome) | Cancel

  // ----- States and labels -----

  datatype Crash = CloseOfNil | NilPool | BadPeriod | StatusNotMap

  datatype State = State(
    now: int,
    store: Option<Pool>,
    ticker: Ticker,
    scale: Scale,
    guard: Guard,
    reqs: map<nat, Req>,
    deact: DCtrl,
    crash: Option<Crash>)

  datatype Label =
    | Arrive(r: nat)
    | Request(r: nat, a: Act)
    | Deactivator(d: DAct)
    | Fire(next: int)
    | Reconcile(f: Fetch)
    | External(spec: int)
    | Advance(dt: int)

  /** A stretch of execution: `labels[i]` leads from `states[i]` to `states[i + 1]`. */
  datatype Run = Run(states: seq<State>, labels: seq<Label>)

  /** What a step of a request or of the deactivator does to the shared state. */
  datatype Effect =
    | NoEffect
    | ResetTo(d: int)
    | StopTick
    | TakeTick
    | BeginUp
    | EndUp
    | Write(spec: int)
    | Panic(kind: Crash)

  datatype Move = Move(req: Req, effect: Effect)
  datatype DMove = DMove(ctrl: DCtrl, effect: Effect)

  const NO_POOL := Pool("", "", map[])
  const UNREAD := Scale(0, 0)

  /** The number of ready replicas a poll in this window waits for. */
  function Wanted(q: Req, w: Window): int {
    if w == Grace then q.snap.spec else 1
  }

  predicate SeesReady(q: Req, w: Window, seen: Sighting) {
    seen.Ready? && Wanted(q, w) == ToInt32(seen.n)
  }

  predicate Writes(u: UpdateOutcome) {
    u.Stored? || u.Lost?
  }

  /** When a request can take a step. A poll reads its object under the context of its window,
      but an answer that arrived in time may be looked at late, so `Observe` is not tied to the
      deadline: results for all runs cover both, and the witnesses that attain a bound look at
      their answer at the very instant the window closes. */
  predicate CanAct(s: State, q: Req, a: Act) {
    match (q.ctrl, a)
    case (AtCheck, Check) => true
    case (Parked(g, until), Unpark) => until <= s.now || (g.Some? && g.value in s.guard.closed)
    case (AtGet, Get(_)) => true
    case (PollWait(_, next, deadline), Poll) => next <= s.now < deadline
    case (PollWait(_, _, deadline), Timeout) => deadline <= s.now
    case (PollGet(_, _, _), Observe(_)) => true
    case (AtBegin, Begin) => true
    case (AtUpdate, Update(u)) => Writes(u) ==> q.snap.version == s.scale.version
    case (Sleeping(until), Wake) => until <= s.now
    case (AtEnd(_), End) => true
    case (AtRearm(_), Rearm) => true
    case _ => false
  }

  function OpenWindow(s: State, w: Window, timeout: int): Ctrl {
    PollWait(w, s.now + POLL_INTERVAL, s.now + timeout)
  }

  function ActGet(c: Config, s: State, q: Req, got: GetOutcome): Req {
    if !Annotated(q.pool) || got == NoResource then q.(ctrl := Done(Unavailable))
    else if got == GetFailed then q.(ctrl := AtRearm(ScaleGetFailed))
    else if s.scale.spec > 0 then q.(snap := s.scale, ctrl := OpenWindow(s, Grace, GracePeriod(c, q.pool)))
    else q.(snap := s.scale, ctrl := AtBegin)
  }

  function ActObserve(s: State, q: Req, seen: Sighting): Move
    requires q.ctrl.PollGet?
  {
    if seen == NoStatusMap then Move(q, Panic(StatusNotMap))
    else if !SeesReady(q, q.ctrl.window, seen) then
      Move(q.(ctrl := PollWait(q.ctrl.window, q.ctrl.next, q.ctrl.deadline)), NoEffect)
    else if q.ctrl.window == Grace then Move(q.(ctrl := AtRearm(PodsReady)), NoEffect)
    else Move(q.(ctrl := Sleeping(s.now + RETENTION)), NoEffect)
  }

  /** One step of a request: its next control point and its effect on the shared state. */
  function ActMove(c: Config, s: State, q: Req, a: Act): Move
    requires CanAct(s, q, a)
  {
    match a
    case Check =>
      if s.guard.scalingUp
      then Move(q.(ctrl := Parked(s.guard.current, s.now + DEFAULT_GRACE)), NoEffect)
      else Move(q.(ctrl := AtGet), NoEffect)
    case Unpark => Move(q.(ctrl := Done(Admitted(GuardReleased))), NoEffect)
    case Get(got) => Move(ActGet(c, s, q, got), NoEffect)
    case Poll =>
      Move(q.(ctrl := PollGet(q.ctrl.window, q.ctrl.next + POLL_INTERVAL, q.ctrl.deadline)),
           ResetTo(DEFAULT_SCALE_DOWN_DELAY))
    case Observe(seen) => ActObserve(s, q, seen)
    case Timeout =>
      if q.ctrl.window == Grace then Move(q.(ctrl := AtBegin), NoEffect)
      else Move(q.(ctrl := AtEnd(false)), NoEffect)
    case Begin => Move(q.(ctrl := AtUpdate), BeginUp)
    case Update(u) =>
      Move(if u.Stored? then q.(ctrl := OpenWindow(s, ScaleUp, DEFAULT_GRACE)) else q.(ctrl := AtEnd(false)),
           if Writes(u) then Write(1) else NoEffect)
    case Wake => Move(q.(ctrl := AtEnd(true)), NoEffect)
    case End =>
      Move(q.(ctrl := if q.ctrl.ready then AtRearm(ScaledUp) else Done(Unavailable)), EndUp)
    case Rearm => Move(q.(ctrl := Done(Admitted(q.ctrl.why))), ResetTo(ScaleDownDelay(c, q.pool)))
  }

  predicate CanDeact(s: State, d: DAct) {
    match (s.deact, d)
    case (Booting, Boot) => true
    case (Idle, Receive) => s.ticker.pending
    case (Idle, Cancel) => true
    case (Ticked, ReadPool) => true
    case (Fetching, ReadScale(_)) => true
    case (Holding(snap), WriteZero(u)) => Writes(u) ==> snap.version == s.scale.version
    case _ => false
  }

  function DeactMove(s: State, d: DAct): DMove
    requires CanDeact(s, d)
  {
    match d
    case Boot => DMove(Idle, ResetTo(DEFAULT_SCALE_DOWN_DELAY))
    case Cancel => DMove(Stopped, StopTick)
    case Receive => DMove(Ticked, TakeTick)
    case ReadPool =>
      // on an empty store the log line reads fields of a nil pool
      if s.store == None then DMove(Ticked, Panic(NilPool))
      else if !Annotated(s.store.value) then DMove(Idle, NoEffect)
      else DMove(Fetching, NoEffect)
    case ReadScale(got) => DMove(if got == GetOk then Holding(s.scale) else Idle, NoEffect)
    case WriteZero(u) => DMove(Idle, if Writes(u) then Write(0) else NoEffect)
  }

  function Apply(s: State, e: Effect): State {
    match e
    case NoEffect => s
    case ResetTo(d) => if d > 0 then s.(ticker := s.ticker.Reset(s.now, d)) else s.(crash := Some(BadPeriod))
    case StopTick => s.(ticker := s.ticker.Stop())
    case TakeTick => s.(ticker := s.ticker.Take())
    case BeginUp => s.(guard := s.guard.Begin())
    case EndUp =>
      if s.guard.current.Some? then s.(guard := s.guard.End())
      else s.(guard := s.guard.(scalingUp := false), crash := Some(CloseOfNil))
    case Write(n) => s.(scale := Scale(n, s.scale.version + 1))
    case Panic(k) => s.(crash := Some(k))
  }

  /** A crashed process takes no further step. */
  predicate Enabled(s: State, l: Label) {
    && s.crash == None
    && match l
       case Arrive(r) => r !in s.reqs
       case Request(r, a) => r in s.reqs && CanAct(s, s.reqs[r], a)
       case Deactivator(d) => CanDeact(s, d)
       case Fire(next) => s.ticker.CanFire(s.now, next)
       case Reconcile(_) => true
       case External(_) => true
       case Advance(dt) => dt > 0
  }

  /** A request arrives and reads the pool. */
  function Arrival(store: Option<Pool>): Req {
    if store.Some? then Req(store.value, UNREAD, AtCheck) else Req(NO_POOL, UNREAD, Done(NotSynced))
  }

  function EffectOf(c: Config, s: State, l: Label): Effect
    requires Enabled(s, l)
  {
    match l
    case Request(r, a) => ActMove(c, s, s.reqs[r], a).effect
    case Deactivator(d) => DeactMove(s, d).effect
    case External(n) => Write(n)
    case _ => NoEffect
  }

  /** The part of a step that is not an effect: control points, clock, store, firing. */
  function Control(c: Config, s: State, l: Label): State
    requires Enabled(s, l)
  {
    match l
    case Arrive(r) => s.(reqs := s.reqs[r := Arrival(s.store)])
    case Request(r, a) => s.(reqs := s.reqs[r := ActMove(c, s, s.reqs[r], a).req])
    case Deactivator(d) => s.(deact := DeactMove(s, d).ctrl)
    case Fire(next) => s.(ticker := s.ticker.Fire(next))
    case Reconcile(f) => s.(store := Reconciled(c.group, s.store, f))
    case External(_) => s
    case Advance(dt) => s.(now := s.now + dt)
  }

  function Next(c: Config, s: State, l: Label): State
    requires Enabled(s, l)
  {
    Apply(Control(c, s, l), EffectOf(c, s, l))
  }

  /** The initial state, with any desired replica count on the server. */
  function Init(spec: int): State {
    State(0, None, Ticker(true, INITIAL_PERIOD, INITIAL_PERIOD, false), Scale(spec, 0), IDLE, map[], Booting, None)
  }

  // ----- What a step leaves alone -----

  lemma ReqsOfNext(c: Config, s: State, l: Label)
    requires Enabled(s, l)
    ensures Next(c, s, l).reqs == match l
                                  case Arrive(r) => s.reqs[r := Arrival(s.store)]
                                  case Request(r, a) => s.reqs[r := ActMove(c, s, s.reqs[r], a).req]
                                  case _ => s.reqs
  {
  }

  lemma OthersKeepTheirPlace(c: Config, s: State, l: Label, r: nat)
    requires Enabled(s, l) && r in s.reqs && !(l.Request? && l.r == r)
    ensures r in Next(c, s, l).reqs && Next(c, s, l).reqs[r] == s.reqs[r]
  {
  }

  lemma TimeOfNext(c: Config, s: State, l: Label)
    requires Enabled(s, l)
    ensures Next(c, s, l).now == if l.Advance? then s.now + l.dt else s.now
  {
  }

  lemma GuardOfNext(c: Config, s: State, l: Label)
    requires Enabled(s, l)
    ensures l.Request? && l.a == Begin ==> Next(c, s, l).guard == s.guard.Begin() && Next(c, s, l).crash == None
    ensures l.Request? && l.a == End && s.guard.current.Some? ==>
              Next(c, s, l).guard == s.guard.End() && Next(c, s, l).crash == None
    ensures l.Request? && l.a == End && s.guard.current == None ==>
              Next(c, s, l).guard == s.guard.(scalingUp := false) && Next(c, s, l).crash == Some(CloseOfNil)
    ensures !(l.Request? && (l.a == Begin || l.a == End)) ==>
              Next(c, s, l).guard == s.guard && Next(c, s, l).crash != Some(CloseOfNil)
  {
  }

  // ----- Runs -----

  ghost predicate Start(s: State) {
    s == Init(s.scale.spec)
  }

  ghost predicate StepAt(c: Config, run: Run, i: nat)
    requires i < |run.labels| < |run.states|
  {
    && Enabled(run.states[i], run.labels[i])
    && run.states[i + 1] == Next(c, run.states[i], run.labels[i])
  }

  /** A run starts in an initial state and takes one enabled step after another. */
  ghost predicate IsRun(c: Config, run: Run) {
    && |run.states| == |run.labels| + 1
    && Start(run.states[0])
    && (forall i: nat :: i < |run.labels| ==> StepAt(c, run, i))
  }

  /** The last state of a run. */
  ghost function Last(run: Run): State
    requires |run.states| > 0
  {
    run.states[|run.states| - 1]
  }

  /** The state after these labels, if each is enabled in its turn. */
  ghost function Exec(c: Config, s: State, ls: seq<Label>): Option<State> {
    if ls == [] then Some(s) else
    var before := Exec(c, s, ls[..|ls| - 1]);
    if before.Some? && Enabled(before.value, ls[|ls| - 1]) then Some(Next(c, before.value, ls[|ls| - 1])) else None
  }

  lemma ExecOneMore(c: Config, s: State, ls: seq<Label>, l: Label)
    requires Exec(c, s, ls).Some? && Enabled(Exec(c, s, ls).value, l)
    ensures Exec(c, s, ls + [l]) == Some(Next(c, Exec(c, s, ls).value, l))
  {
    assert (ls + [l])[..|ls|] == ls;
  }

  /** What can be executed from an initial state is a run. */
  lemma {:induction false} ExecIsRun(c: Config, s: State, ls: seq<Label>) returns (run: Run)
    requires Start(s) && Exec(c, s, ls).Some?
    ensures IsRun(c, run) && run.labels == ls && Last(run) == Exec(c, s, ls).value
    decreases |ls|
  {
    if ls == [] {
      run := Run([s], []);
    } else {
      var before := ExecIsRun(c, s, ls[..|ls| - 1]);
      run := Run(before.states + [Exec(c, s, ls).value], ls);
      forall i: nat | i < |ls|
        ensures StepAt(c, run, i)
      {
        assert i < |ls| - 1 ==> StepAt(c, before, i);
      }
    }
  }
}
