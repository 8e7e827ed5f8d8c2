/** The datastore's read-write lock: when its callers get stuck, and what `PoolGet` returns
    under every interleaving.

    The lock follows Go's `sync.RWMutex`: a read lock is granted only while no writer holds
    the lock or waits for it; a writer first excludes the other writers, from then on it
    waits, and it gets the lock when the last reader has left. */
module StoreLocks {
  import opened Pools

  /** `Nested` is `PoolGet` as written: it keeps its read lock while `PoolHasSynced` takes a
      second one. `Single` tests under the first lock; `Unguarded` drops the outer lock. */
  datatype Mode = Nested | Single | Unguarded

  /** What `PoolGet` returns: the pool pointer and whether there is an error. */
  datatype Result = Result(pool: Option<Pool>, err: bool)

  datatype Thread =
    | GetStart
    | GetOuter
    | GetInner
    | GetTested(synced: bool)
    | GetDone(result: Result)
    | SetStart(value: Option<Pool>)
    | SetPending(value: Option<Pool>)
    | SetHolding(value: Option<Pool>)
    | SetWritten(value: Option<Pool>)
    | SetDone(value: Option<Pool>)
    | SyncStart
    | SyncHolding
    | SyncDone(synced: bool)

  /** `completed` is history: the value of the `PoolSet` that returned last. */
  datatype Store = Store(threads: seq<Thread>, pool: Option<Pool>, completed: Option<Pool>)

  predicate Reading(m: Mode, th: Thread) {
    || th.GetInner? || th.SyncHolding?
    || (m != Unguarded && (th.GetOuter? || th.GetTested?))
  }

  predicate Locked(th: Thread) {
    th.SetHolding? || th.SetWritten?
  }

  predicate Writer(th: Thread) {
    th.SetPending? || Locked(th)
  }

  predicate Finished(th: Thread) {
    th.GetDone? || th.SetDone? || th.SyncDone?
  }

  ghost predicate NoWriter(s: Store) {
    forall i :: 0 <= i < |s.threads| ==> !Writer(s.threads[i])
  }

  ghost predicate NoReader(m: Mode, s: Store) {
    forall i :: 0 <= i < |s.threads| ==> !Reading(m, s.threads[i])
  }

  /** Whether thread `t` can take its next step. */
  ghost predicate CanStep(m: Mode, s: Store, t: nat)
    requires t < |s.threads|
  {
    match s.threads[t]
    case GetStart => m != Unguarded ==> NoWriter(s)
    case GetOuter => m != Single ==> NoWriter(s)
    case GetInner => true
    case GetTested(_) => true
    case SetStart(_) => NoWriter(s)
    case SetPending(_) => NoReader(m, s)
    case SetHolding(_) => true
    case SetWritten(_) => true
    case SyncStart => NoWriter(s)
    case SyncHolding => true
    case _ => false
  }

  function Stepped(m: Mode, th: Thread, pool: Option<Pool>): Thread {
    match th
    case GetStart => GetOuter
    case GetOuter => if m == Single then GetTested(pool.Some?) else GetInner
    case GetInner => GetTested(pool.Some?)
    case GetTested(synced) => GetDone(if synced then Result(pool, false) else Result(None, true))
    case SetStart(v) => SetPending(v)
    case SetPending(v) => SetHolding(v)
    case SetHolding(v) => SetWritten(v)
    case SetWritten(v) => SetDone(v)
    case SyncStart => SyncHolding
    case SyncHolding => SyncDone(pool.Some?)
    case _ => th
  }

  function Step(m: Mode, s: Store, t: nat): Store
    requires t < |s.threads|
  {
    var th := s.threads[t];
    Store(s.threads[t := Stepped(m, th, s.pool)],
          if th.SetHolding? then th.value else s.pool,
          if th.SetWritten? then th.value else s.completed)
  }

  // ----- Invariant -----

  ghost predicate OneWriter(s: Store) {
    forall i, j ::
      0 <= i < |s.threads| && 0 <= j < |s.threads| && Writer(s.threads[i]) && Writer(s.threads[j]) ==> i == j
  }

  ghost predicate Exclusive(m: Mode, s: Store) {
    forall i, j :: 0 <= i < |s.threads| && 0 <= j < |s.threads| && Locked(s.threads[i]) ==> !Reading(m, s.threads[j])
  }

  /** What a thread's progress says about the pool. */
  ghost predicate Agrees(m: Mode, s: Store, th: Thread) {
    match th
    case GetTested(synced) => m != Unguarded ==> (synced <==> s.pool.Some?)
    case GetDone(r) => m != Unguarded ==> (r.err <==> r.pool == None)
    case SetWritten(v) => s.pool == v
    case _ => true
  }

  ghost predicate Valid(m: Mode, s: Store) {
    && OneWriter(s)
    && Exclusive(m, s)
    && (forall i :: 0 <= i < |s.threads| ==> Agrees(m, s, s.threads[i]))
    && ((forall i :: 0 <= i < |s.threads| ==> !s.threads[i].SetWritten?) ==> s.pool == s.completed)
  }

  lemma LocksStep(m: Mode, s: Store, t: nat)
    requires Valid(m, s) && t < |s.threads| && CanStep(m, s, t)
    ensures OneWriter(Step(m, s, t)) && Exclusive(m, Step(m, s, t))
  {
  }

  lemma ValidStep(m: Mode, s: Store, t: nat)
    requires Valid(m, s) && t < |s.threads| && CanStep(m, s, t)
    ensures Valid(m, Step(m, s, t))
  {
    LocksStep(m, s, t);
    var n := Step(m, s, t);
    assert n.threads[t] == Stepped(m, s.threads[t], s.pool);
    forall i | 0 <= i < |n.threads|
      ensures Agrees(m, n, n.threads[i])
    {
      assert Agrees(m, s, s.threads[i]) && Agrees(m, s, s.threads[t]);
      assert i != t ==> n.threads[i] == s.threads[i];
    }
    if forall i :: 0 <= i < |n.threads| ==> !n.threads[i].SetWritten? {
      forall i | 0 <= i < |s.threads| && i != t
        ensures !s.threads[i].SetWritten?
      {
        assert n.threads[i] == s.threads[i];
      }
    }
  }

  // ----- Schedules -----

  /** The threads can take their steps in this order. */
  ghost predicate Plays(m: Mode, s: Store, order: seq<nat>)
    decreases |order|
  {
    order != [] ==>
      && order[0] < |s.threads| && CanStep(m, s, order[0])
      && Plays(m, Step(m, s, order[0]), order[1..])
  }

  ghost function Played(m: Mode, s: Store, order: seq<nat>): Store
    requires Plays(m, s, order)
    decreases |order|
  {
    if order == [] then s else Played(m, Step(m, s, order[0]), order[1..])
  }

  /** Nobody has begun. */
  ghost predicate Fresh(s: Store) {
    && (forall i ::
          0 <= i < |s.threads| ==> s.threads[i].GetStart? || s.threads[i].SetStart? || s.threads[i].SyncStart?)
    && s.pool == s.completed
  }

  lemma {:induction false} ReachableValid(m: Mode, s: Store, order: seq<nat>)
    requires Valid(m, s) || Fresh(s)
    requires Plays(m, s, order)
    ensures Valid(m, Played(m, s, order))
    decreases |order|
  {
    if order != [] {
      ValidStep(m, s, order[0]);
      ReachableValid(m, Step(m, s, order[0]), order[1..]);
    }
  }

  // ----- Progress -----

  ghost predicate AllFinished(s: Store) {
    forall i :: 0 <= i < |s.threads| ==> Finished(s.threads[i])
  }

  ghost predicate Deadlocked(m: Mode, s: Store, r: nat, w: nat) {
    && m == Nested && r < |s.threads| && w < |s.threads|
    && s.threads[r].GetOuter? && s.threads[w].SetPending?
  }

  /** Some `PoolGet` holds its outer read lock and wants the inner one while a writer waits. */
  ghost predicate Doomed(m: Mode, s: Store) {
    exists r: nat, w: nat :: Deadlocked(m, s, r, w)
  }

  /** The two threads block each other for good: no step by anyone, and no new caller, frees
      them. */
  lemma DeadlockStays(m: Mode, s: Store, r: nat, w: nat, t: nat, newcomer: Thread)
    requires Deadlocked(m, s, r, w) && t < |s.threads| && CanStep(m, s, t)
    ensures Deadlocked(m, Step(m, s, t), r, w)
    ensures Deadlocked(m, s.(threads := s.threads + [newcomer]), r, w)
  {
    assert Reading(m, s.threads[r]) && Writer(s.threads[w]);
  }

  lemma {:induction false} DoomedNeverFinishes(m: Mode, s: Store, order: seq<nat>)
    requires Doomed(m, s) && Plays(m, s, order)
    ensures Doomed(m, Played(m, s, order)) && !AllFinished(Played(m, s, order))
    decreases |order|
  {
    var r: nat, w: nat :| Deadlocked(m, s, r, w);
    if order != [] {
      DeadlockStays(m, s, r, w, order[0], GetStart);
      DoomedNeverFinishes(m, Step(m, s, order[0]), order[1..]);
    }
  }

  lemma WriterProgress(m: Mode, s: Store, w: nat) returns (t: nat)
    requires Valid(m, s) && !Doomed(m, s) && w < |s.threads| && Writer(s.threads[w])
    ensures t < |s.threads| && CanStep(m, s, t) && !Doomed(m, Step(m, s, t))
  {
    t := w;
    if s.threads[w].SetPending? && !NoReader(m, s) {
      t :| t < |s.threads| && Reading(m, s.threads[t]);
      assert s.threads[t].GetOuter? ==> m == Single || Deadlocked(m, s, t, w);
    }
    StaysUndoomed(m, s, t);
  }

  /** Only a writer that starts waiting while a `PoolGet` is between its two locks can doom. */
  lemma StaysUndoomed(m: Mode, s: Store, t: nat)
    requires Valid(m, s) && !Doomed(m, s) && t < |s.threads| && CanStep(m, s, t)
    requires s.threads[t].SetStart? ==> forall i :: 0 <= i < |s.threads| ==> !s.threads[i].GetOuter?
    ensures !Doomed(m, Step(m, s, t))
  {
    var n := Step(m, s, t);
    forall r: nat, w: nat
      ensures !Deadlocked(m, n, r, w)
    {
      assert !Deadlocked(m, s, r, w);
      assert r < |s.threads| && r != t ==> n.threads[r] == s.threads[r];
      assert w < |s.threads| && w != t ==> n.threads[w] == s.threads[w];
      assert NoWriter(s) && w < |s.threads| ==> !Writer(s.threads[w]);
    }
  }

  /** As long as the callers are not doomed, one of them can step without dooming them. */
  lemma UndoomedProgress(m: Mode, s: Store) returns (t: nat)
    requires Valid(m, s) && !Doomed(m, s) && !AllFinished(s)
    ensures t < |s.threads| && CanStep(m, s, t) && !Doomed(m, Step(m, s, t))
  {
    if !NoWriter(s) {
      var w: nat :| w < |s.threads| && Writer(s.threads[w]);
      t := WriterProgress(m, s, w);
    } else if exists r: nat :: r < |s.threads| && s.threads[r].GetOuter? {
      t :| t < |s.threads| && s.threads[t].GetOuter?;
      StaysUndoomed(m, s, t);
    } else {
      t :| t < |s.threads| && !Finished(s.threads[t]);
      StaysUndoomed(m, s, t);
    }
  }

  function Rank(th: Thread): nat {
    match th
    case GetStart => 4
    case GetOuter => 3
    case GetInner => 2
    case GetTested(_) => 1
    case SetStart(_) => 4
    case SetPending(_) => 3
    case SetHolding(_) => 2
    case SetWritten(_) => 1
    case SyncStart => 2
    case SyncHolding => 1
    case _ => 0
  }

  /** The steps left to all threads together, at most. */
  function TotalRank(ths: seq<Thread>): nat {
    if ths == [] then 0 else Rank(ths[0]) + TotalRank(ths[1..])
  }

  lemma {:induction false} RankUpdate(ths: seq<Thread>, t: nat, th: Thread)
    requires t < |ths|
    ensures TotalRank(ths[t := th]) == TotalRank(ths) - Rank(ths[t]) + Rank(th)
  {
    if t > 0 {
      RankUpdate(ths[1..], t - 1, th);
      assert ths[t := th][1..] == ths[1..][t - 1 := th];
    }
  }

  lemma RankDrops(m: Mode, s: Store, t: nat)
    requires t < |s.threads| && CanStep(m, s, t)
    ensures TotalRank(Step(m, s, t).threads) < TotalRank(s.threads)
  {
    RankUpdate(s.threads, t, Stepped(m, s.threads[t], s.pool));
  }

  /** Every order of steps comes to an end. */
  lemma {:induction false} SchedulesEnd(m: Mode, s: Store, order: seq<nat>)
    requires Plays(m, s, order)
    ensures |order| <= TotalRank(s.threads)
    decreases |order|
  {
    if order != [] {
      RankDrops(m, s, order[0]);
      SchedulesEnd(m, Step(m, s, order[0]), order[1..]);
    }
  }

  ghost predicate CanFinish(m: Mode, s: Store) {
    exists order :: Plays(m, s, order) && AllFinished(Played(m, s, order))
  }

  lemma {:induction false} FinishingOrder(m: Mode, s: Store) returns (order: seq<nat>)
    requires Valid(m, s) && !Doomed(m, s)
    ensures Plays(m, s, order) && AllFinished(Played(m, s, order))
    decreases TotalRank(s.threads)
  {
    order := [];
    if !AllFinished(s) {
      var t := UndoomedProgress(m, s);
      ValidStep(m, s, t);
      RankDrops(m, s, t);
      var rest := FinishingOrder(m, Step(m, s, t));
      order := [t] + rest;
      assert order[1..] == rest;
    }
  }

  /** Lock progress: the callers of the datastore can all return exactly when they are not
      doomed. */
  lemma FinishIffNotDoomed(m: Mode, s: Store)
    requires Valid(m, s)
    ensures CanFinish(m, s) <==> !Doomed(m, s)
  {
    if CanFinish(m, s) {
      var order :| Plays(m, s, order) && AllFinished(Played(m, s, order));
      if Doomed(m, s) {
        DoomedNeverFinishes(m, s, order);
      }
    }
    if !Doomed(m, s) {
      var _ := FinishingOrder(m, s);
    }
  }

  /** A state in which nobody can step, and not everybody has returned, is a doomed one; with
      a single acquire there is none. */
  lemma StuckOnlyIfDoomed(m: Mode, s: Store)
    requires Valid(m, s) && !AllFinished(s)
    requires forall t: nat :: t < |s.threads| ==> !CanStep(m, s, t)
    ensures m == Nested && Doomed(m, s)
  {
    if !Doomed(m, s) {
      var _ := UndoomedProgress(m, s);
    }
  }

  /** One reader and one writer suffice to doom the nested form. */
  lemma NestedCanBeDoomed(p: Option<Pool>) returns (s: Store, order: seq<nat>)
    ensures Fresh(s) && Plays(Nested, s, order) && Doomed(Nested, Played(Nested, s, order))
  {
    s := Store([GetStart, SetStart(p)], None, None);
    order := [0, 1];
    var s1 := Step(Nested, s, 0);
    var s2 := Step(Nested, s1, 1);
    assert order[1..] == [1] && order[1..][1..] == [];
    assert Plays(Nested, s2, []) && Plays(Nested, s1, [1]);
    assert Played(Nested, s1, [1]) == s2;
    assert Deadlocked(Nested, s2, 0, 1);
  }

  // ----- What PoolGet returns -----

  predicate Getting(th: Thread) {
    th.GetOuter? || th.GetInner? || th.GetTested?
  }

  lemma {:induction false} DoneIsFinal(m: Mode, s: Store, order: seq<nat>, t: nat)
    requires Plays(m, s, order) && t < |s.threads| && Finished(s.threads[t])
    ensures t < |Played(m, s, order).threads| && Played(m, s, order).threads[t] == s.threads[t]
    decreases |order|
  {
    if order != [] {
      DoneIsFinal(m, Step(m, s, order[0]), order[1..], t);
    }
  }

  /** Atomicity: whatever else runs meanwhile, a `PoolGet` that has its read lock returns the
      value of the latest completed `PoolSet`, with an error exactly when that value is nil. */
  lemma {:induction false} PoolGetIsAtomic(m: Mode, s: Store, order: seq<nat>, t: nat)
    requires m != Unguarded && Valid(m, s) && Plays(m, s, order)
    requires t < |s.threads| && Getting(s.threads[t])
    requires t < |Played(m, s, order).threads| && Played(m, s, order).threads[t].GetDone?
    ensures Played(m, s, order).threads[t].result == Result(s.completed, s.completed == None)
    decreases |order|
  {
    var u := order[0];
    var next := Step(m, s, u);
    ValidStep(m, s, u);
    assert Reading(m, s.threads[t]) && Agrees(m, s, s.threads[t]);
    assert forall i :: 0 <= i < |s.threads| ==> !s.threads[i].SetWritten? by {
      assert forall i :: 0 <= i < |s.threads| && Locked(s.threads[i]) ==> !Reading(m, s.threads[t]);
    }
    if next.threads[t].GetDone? {
      DoneIsFinal(m, next, order[1..], t);
    } else {
      PoolGetIsAtomic(m, next, order[1..], t);
    }
  }

  /** And so is `PoolHasSynced`: once it has its lock it tells whether the latest completed
      `PoolSet` left a pool. */
  lemma {:induction false} PoolHasSyncedIsAtomic(m: Mode, s: Store, order: seq<nat>, t: nat)
    requires Valid(m, s) && Plays(m, s, order)
    requires t < |s.threads| && s.threads[t].SyncHolding?
    requires t < |Played(m, s, order).threads| && Played(m, s, order).threads[t].SyncDone?
    ensures Played(m, s, order).threads[t].synced <==> s.completed.Some?
    decreases |order|
  {
    var u := order[0];
    var next := Step(m, s, u);
    ValidStep(m, s, u);
    assert Reading(m, s.threads[t]);
    assert forall i :: 0 <= i < |s.threads| ==> !s.threads[i].SetWritten? by {
      assert forall i :: 0 <= i < |s.threads| && Locked(s.threads[i]) ==> !Reading(m, s.threads[t]);
    }
    if next.threads[t].SyncDone? {
      DoneIsFinal(m, next, order[1..], t);
    } else {
      PoolHasSyncedIsAtomic(m, next, order[1..], t);
    }
  }

  /** Without the outer lock a deletion between the test and the read yields a nil pool and
      no error. */
  lemma UnguardedReturnsNil(p: Pool) returns (s: Store, order: seq<nat>)
    ensures Fresh(s) && Plays(Unguarded, s, order)
    ensures |Played(Unguarded, s, order).threads| == 2
    ensures Played(Unguarded, s, order).threads[0] == GetDone(Result(None, false))
  {
    s := Store([GetStart, SetStart(None)], Some(p), Some(p));
    order := [0, 0, 0] + ([1, 1, 1] + [0]);
    var tested := Store([GetTested(true), SetStart(None)], Some(p), Some(p));
    var cleared := Store([GetTested(true), SetWritten(None)], None, Some(p));
    PlaysThree(Unguarded, s, 0, Store([GetOuter, SetStart(None)], Some(p), Some(p)),
               Store([GetInner, SetStart(None)], Some(p), Some(p)), tested, [1, 1, 1] + [0]);
    PlaysThree(Unguarded, tested, 1, Store([GetTested(true), SetPending(None)], Some(p), Some(p)),
               Store([GetTested(true), SetHolding(None)], Some(p), Some(p)), cleared, [0]);
    var returned := Step(Unguarded, cleared, 0);
    assert [0][1..] == [] && Plays(Unguarded, returned, []) && Played(Unguarded, returned, []) == returned;
    assert Plays(Unguarded, cleared, [0]) && Played(Unguarded, cleared, [0]) == returned;
    assert Plays(Unguarded, tested, [1, 1, 1] + [0]);
    assert returned.threads == [GetDone(Result(None, false)), SetWritten(None)];
  }

  lemma PlaysThree(m: Mode, s: Store, t: nat, a: Store, b: Store, e: Store, rest: seq<nat>)
    requires t < |s.threads| == |a.threads| == |b.threads|
    requires CanStep(m, s, t) && CanStep(m, a, t) && CanStep(m, b, t)
    requires Step(m, s, t) == a && Step(m, a, t) == b && Step(m, b, t) == e
    ensures Plays(m, e, rest) <==> Plays(m, s, [t, t, t] + rest)
    ensures Plays(m, e, rest) ==> Played(m, s, [t, t, t] + rest) == Played(m, e, rest)
  {
    assert ([t, t, t] + rest)[1..] == [t, t] + rest;
    assert ([t, t] + rest)[1..] == [t] + rest;
    assert ([t] + rest)[1..] == rest;
    assert Plays(m, b, [t] + rest) <==> Plays(m, e, rest);
    assert Plays(m, a, [t, t] + rest) <==> Plays(m, b, [t] + rest);
    if Plays(m, e, rest) {
      assert Played(m, b, [t] + rest) == Played(m, e, rest);
      assert Played(m, a, [t, t] + rest) == Played(m, b, [t] + rest);
    }
  }
}
