/** The deactivator's loop as it is written, run among everybody else. As for the activator,
    each method proves that its steps are steps of the transition system, and what it does is
    tied to what the environment answered. */
module Deactivators {
  import opened Pools
  import opened System
  import opened Writing
  import opened Timing
  import opened Worlds

  /** How long the deactivator is kept from running before each of its steps. */
  datatype Delays = Delays(select: nat, pool: nat, get: nat, update: nat)

  /** One round of the select loop as the environment decides it: whether the context is
      cancelled, and what the scale calls answer if it is not. */
  datatype Round = Round(cancelled: bool, delays: Delays, got: GetOutcome, update: UpdateOutcome)

  /** Position `k` of a history is the last step of handling a tick: the pool lacks an annotation,
      or the scale object could not be read, or zero was sent with the object that was read and
      met what the environment had in store, unless somebody had written in between. */
  ghost predicate TickEnds(c: Config, origin: State, trace: seq<Label>, k: nat, round: Round) {
    && k < |trace| && Exec(c, origin, trace[..k]).Some?
    && var s := Exec(c, origin, trace[..k]).value;
       match s.deact
       case Ticked => trace[k] == Deactivator(ReadPool) && s.store.Some? && !Annotated(s.store.value)
       case Fetching => round.got != GetOk && trace[k] == Deactivator(DAct.ReadScale(round.got))
       case Holding(snap) =>
         && round.got == GetOk
         && trace[k] == Deactivator(WriteZero(if snap.version != s.scale.version then Refused else round.update))
       case _ => false
  }

  lemma TickEndsStays(c: Config, origin: State, trace: seq<Label>, longer: seq<Label>, k: nat, round: Round)
    requires TickEnds(c, origin, trace, k, round) && trace <= longer
    ensures TickEnds(c, origin, longer, k, round)
  {
    assert longer[..k] == trace[..k];
  }

  /** The rounds so far each handled one tick, one after the other, from position `from` on. */
  ghost predicate TicksEnd(c: Config, origin: State, trace: seq<Label>, from: nat, ends: seq<nat>, rounds: seq<Round>) {
    && |ends| <= |rounds|
    && (forall k: nat :: k < |ends| ==>
          from <= ends[k] && !rounds[k].cancelled && TickEnds(c, origin, trace, ends[k], rounds[k]))
    && (forall j: nat, k: nat :: j < k < |ends| ==> ends[j] < ends[k])
  }

  lemma TicksEndStay(c: Config, origin: State, trace: seq<Label>, longer: seq<Label>, from: nat,
                     ends: seq<nat>, rounds: seq<Round>)
    requires TicksEnd(c, origin, trace, from, ends, rounds) && trace <= longer
    ensures TicksEnd(c, origin, longer, from, ends, rounds)
  {
    forall k: nat | k < |ends|
      ensures TickEnds(c, origin, longer, ends[k], rounds[k])
    {
      TickEndsStays(c, origin, trace, longer, ends[k], rounds[k]);
    }
  }

  lemma OneTickMore(c: Config, origin: State, trace: seq<Label>, longer: seq<Label>, from: nat,
                    ends: seq<nat>, rounds: seq<Round>)
    requires TicksEnd(c, origin, trace, from, ends, rounds) && trace <= longer
    requires from <= |trace| < |longer| && |ends| < |rounds| && !rounds[|ends|].cancelled
    requires TickEnds(c, origin, longer, |longer| - 1, rounds[|ends|])
    ensures TicksEnd(c, origin, longer, from, ends + [|longer| - 1], rounds)
  {
    TicksEndStay(c, origin, trace, longer, from, ends, rounds);
    assert forall k: nat :: k < |ends| ==> TickEnds(c, origin, trace, ends[k], rounds[k]);
  }

  class Deactivator {
    const w: World

    constructor (world: World)
      ensures w == world
    {
      w := world;
    }

    ghost predicate At(k: DCtrl)
      reads w, w.ds, w.gate, w.api
    {
      w.Alive() && w.deact == k
    }

    /** The last step in the history ended the handling of a tick. */
    ghost predicate JustEnded(round: Round)
      reads w
    {
      |w.trace| > 0 && TickEnds(w.c, w.origin, w.trace, |w.trace| - 1, round)
    }

    /** Enter in the history a step of the deactivator that has just been made from `was`. */
    ghost method Moved(was: State, d: DAct)
      requires Start(w.origin) && Exec(w.c, w.origin, w.trace) == Some(was) && was.crash == None
      requires CanDeact(was, d) && w.deact == was.deact
      requires w.Abs() == Apply(was, DeactMove(was, d).effect)
      modifies w`deact, w`trace
      ensures w.Valid() && w.trace == old(w.trace) + [Deactivator(d)]
      ensures w.deact == DeactMove(was, d).ctrl
      ensures Exec(w.c, w.origin, w.trace[..|w.trace| - 1]) == Some(was)
    {
      ghost var before := w.trace;
      w.deact := DeactMove(was, d).ctrl;
      w.Record(was, Deactivator(d));
      assert w.trace[..|w.trace| - 1] == before;
    }

    /** The endless loop, for as many rounds as the environment gives it; `panicked` when a
        tick finds no pool. `ends` says where in the history each round's tick was dealt with. */
    method MonitorInferencePoolIdleness(rounds: seq<Round>) returns (panicked: bool, ghost ends: seq<nat>)
      requires At(Booting)
      modifies w, w.ds, w.gate, w.api
      ensures w.Valid() && old(w.trace) <= w.trace
      ensures TicksEnd(w.c, w.origin, w.trace, |old(w.trace)|, ends, rounds)
      ensures panicked ==> w.crash == Some(NilPool) && |ends| < |rounds| && !rounds[|ends|].cancelled
      ensures !panicked ==> At(if |ends| == |rounds| then Idle else Stopped)
      ensures !panicked && |ends| < |rounds| ==> rounds[|ends|].cancelled && !w.ds.ticker.running
    {
      Boots();
      ends := [];
      var k := 0;
      while k < |rounds|
        invariant 0 <= k == |ends| <= |rounds|
        invariant At(Idle) && old(w.trace) <= w.trace
        invariant TicksEnd(w.c, w.origin, w.trace, |old(w.trace)|, ends, rounds)
      {
        panicked, ends := Turn(rounds, k, |old(w.trace)|, ends);
        if panicked || rounds[k].cancelled {
          return;
        }
        k := k + 1;
      }
      return false, ends;
    }

    /** The `k`-th time around the loop. */
    method Turn(rounds: seq<Round>, k: nat, ghost from: nat, ghost ends: seq<nat>)
      returns (panicked: bool, ghost ends': seq<nat>)
      requires k == |ends| < |rounds|
      requires At(Idle) && from <= |w.trace| && TicksEnd(w.c, w.origin, w.trace, from, ends, rounds)
      modifies w, w.ds, w.gate, w.api
      ensures w.Valid() && old(w.trace) <= w.trace && TicksEnd(w.c, w.origin, w.trace, from, ends', rounds)
      ensures panicked ==> w.crash == Some(NilPool) && !rounds[k].cancelled
      ensures !panicked ==> At(if rounds[k].cancelled then Stopped else Idle)
      ensures rounds[k].cancelled ==> !w.ds.ticker.running
      ensures |ends'| == if panicked || rounds[k].cancelled then k else k + 1
    {
      panicked := Select(rounds[k]);
      if panicked || rounds[k].cancelled {
        TicksEndStay(w.c, w.origin, old(w.trace), w.trace, from, ends, rounds);
        return panicked, ends;
      }
      OneTickMore(w.c, w.origin, old(w.trace), w.trace, from, ends, rounds);
      return false, ends + [|w.trace| - 1];
    }

    /** One round: a cancelled context stops the loop and the ticker, otherwise it blocks until
        there is a tick, which is received and handled. */
    method Select(round: Round) returns (panicked: bool)
      requires At(Idle)
      modifies w, w.ds, w.gate, w.api
      ensures w.Valid() && old(w.trace) <= w.trace
      ensures panicked ==> w.crash == Some(NilPool) && w.deact == Ticked && !round.cancelled
      ensures !panicked ==> At(if round.cancelled then Stopped else Idle)
      ensures round.cancelled ==> !w.ds.ticker.running
      ensures round.cancelled ==> |w.trace| > 0 && w.trace[|w.trace| - 1] == Deactivator(Cancel)
      ensures !round.cancelled && !panicked ==> |w.trace| > |old(w.trace)| && JustEnded(round)
    {
      w.Interfere(ByDeactivator, round.delays.select);
      if round.cancelled {
        Stops();
        return false;
      }
      AwaitTick();
      panicked := HandleTick(round);
    }

    method Boots()
      requires At(Booting)
      modifies w, w.ds
      ensures At(Idle) && old(w.trace) <= w.trace
    {
      ghost var was := w.Abs();
      var _ := w.ds.ResetTicker(w.now, DEFAULT_SCALE_DOWN_DELAY);
      Moved(was, Boot);
    }

    method Stops()
      requires At(Idle)
      modifies w, w.ds
      ensures At(Stopped) && w.trace == old(w.trace) + [Deactivator(Cancel)] && !w.ds.ticker.running
    {
      ghost var was := w.Abs();
      w.ds.StopTicker();
      Moved(was, Cancel);
    }

    /** Receive from the ticker's channel. With no tick there, the ticker is running and fires
        when its time comes: the resets that put it off are over by now. */
    method AwaitTick()
      requires At(Idle)
      modifies w, w.ds
      ensures At(Idle) && old(w.trace) <= w.trace && w.ds.ticker.pending
      ensures w.now == if old(w.ds.ticker.pending) || old(w.ds.ticker.next) <= old(w.now) then old(w.now)
                       else old(w.ds.ticker.next)
    {
      if w.ds.ticker.pending {
        return;
      }
      ghost var run := ExecIsRun(w.c, w.origin, w.trace);
      TickerRuns(w.c, run, |run.states| - 1);
      w.SleepUntil(w.ds.ticker.next);
      ghost var was := w.Abs();
      var next := w.now + w.ds.ticker.period;
      w.ds.ticker := w.ds.ticker.Fire(next);
      w.Record(was, Fire(next));
    }

    /** The body of the loop on a tick: read the pool, read the scale object, write zero. */
    method HandleTick(round: Round) returns (panicked: bool)
      requires At(Idle) && w.ds.ticker.pending
      modifies w, w.ds, w.gate, w.api
      ensures w.Valid() && old(w.trace) + [Deactivator(Receive)] <= w.trace
      ensures panicked ==> w.crash == Some(NilPool) && w.deact == Ticked
      ensures !panicked ==> At(Idle) && JustEnded(round)
    {
      Receives();
      var pool;
      panicked, pool := ReadsPool(round);
      if panicked {
        return true;
      }
      if !Annotated(pool) {
        return false;
      }
      var scaleObject := ReadsScale(round);
      if round.got != GetOk {
        return false;
      }
      WritesZero(scaleObject, round);
      return false;
    }

    method Receives()
      requires At(Idle) && w.ds.ticker.pending
      modifies w, w.ds
      ensures At(Ticked) && w.trace == old(w.trace) + [Deactivator(Receive)]
    {
      ghost var was := w.Abs();
      w.ds.ticker := w.ds.ticker.Take();
      Moved(was, Receive);
    }

    /** On an empty store the log line reads fields of a nil pool. */
    method ReadsPool(round: Round) returns (panicked: bool, pool: Pool)
      requires At(Ticked)
      modifies w, w.ds, w.gate, w.api
      ensures w.Valid() && old(w.trace) <= w.trace
      ensures panicked ==> w.crash == Some(NilPool) && w.deact == Ticked && w.ds.pool == None
      ensures !panicked ==> w.ds.pool == Some(pool) && At(if Annotated(pool) then Fetching else Idle)
      ensures !panicked && !Annotated(pool) ==> JustEnded(round)
    {
      w.Interfere(ByDeactivator, round.delays.pool);
      var found := w.ds.PoolGet();
      ghost var was := w.Abs();
      panicked := found.NotSynced?;
      if panicked {
        pool := NO_POOL;
        w.crash := Some(NilPool);
      } else {
        pool := found.pool;
      }
      Moved(was, ReadPool);
    }

    method ReadsScale(round: Round) returns (scaleObject: Scale)
      requires At(Fetching)
      modifies w, w.ds, w.gate, w.api
      ensures At(if round.got == GetOk then Holding(scaleObject) else Idle) && old(w.trace) <= w.trace
      ensures round.got != GetOk ==> JustEnded(round)
    {
      w.Interfere(ByDeactivator, round.delays.get);
      scaleObject := w.api.Get();
      ghost var was := w.Abs();
      Moved(was, DAct.ReadScale(round.got));
    }

    method WritesZero(scaleObject: Scale, round: Round)
      requires At(Holding(scaleObject)) && round.got == GetOk
      modifies w, w.ds, w.gate, w.api
      ensures At(Idle) && old(w.trace) <= w.trace && JustEnded(round)
    {
      w.Interfere(ByDeactivator, round.delays.update);
      ghost var was := w.Abs();
      var u := w.api.Update(scaleObject.(spec := 0), round.update);
      Moved(was, WriteZero(u));
    }
  }
}
