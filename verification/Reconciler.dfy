/** The reconciler, the only writer of the pool cache. */
module Reconciling {
  import opened Pools
  import opened Datastores

  /** What one reconcile request finds on the API server. `original` is the object as a v1
      pool; `converted` is what the v1alpha2 conversion yields, if it succeeds. */
  datatype Fetch =
    | Missing
    | FetchFailed
    | Fetched(deleting: bool, original: Pool, converted: Option<Pool>)

  /** A fetch that tells what the pool is now, as opposed to one that only failed. */
  predicate Conclusive(g: Group, f: Fetch) {
    && !g.OtherGroup?
    && (f.Missing? || (f.Fetched? && (f.deleting || g.V1? || f.converted.Some?)))
  }

  /** The pool that a conclusive fetch reports: none after deletion. */
  function Reported(g: Group, f: Fetch): Option<Pool>
    requires Conclusive(g, f)
  {
    if f.Missing? || f.deleting then None
    else if g.V1? then Some(f.original)
    else f.converted
  }

  function Reconciled(g: Group, store: Option<Pool>, f: Fetch): Option<Pool> {
    if Conclusive(g, f) then Reported(g, f) else store
  }

  class Reconciler {
    const group: Group
    const ds: Datastore

    constructor (g: Group, d: Datastore)
      ensures group == g && ds == d
    {
      group, ds := g, d;
    }

    /** One call of `Reconcile`; `err` is whether it returns an error and is retried. */
    method Reconcile(f: Fetch) returns (err: bool)
      modifies ds`pool
      ensures ds.pool == Reconciled(group, old(ds.pool), f)
      ensures err <==> !Conclusive(group, f)
      ensures err <==> || group == OtherGroup || f == FetchFailed
                       || (group == V1Alpha2 && f.Fetched? && !f.deleting && f.converted == None)
      ensures err ==> ds.pool == old(ds.pool)
      ensures !err ==> (ds.pool == None <==> f == Missing || f.deleting)
      ensures !err && ds.pool.Some? ==> ds.pool == if group == V1 then Some(f.original) else f.converted
    {
      if group == OtherGroup {
        return true;
      }
      if f == Missing {
        ds.Clear();
        return false;
      }
      if f == FetchFailed {
        return true;
      }
      if f.deleting {
        ds.Clear();
        return false;
      }
      if group == V1 {
        ds.PoolSet(Some(f.original));
      } else {
        if f.converted == None {
          return true;
        }
        ds.PoolSet(f.converted);
      }
      return false;
    }
  }

  /** The cache after a history of reconcile calls. */
  ghost function CacheAfter(g: Group, store: Option<Pool>, fs: seq<Fetch>): Option<Pool> {
    if fs == [] then store
    else Reconciled(g, CacheAfter(g, store, fs[..|fs| - 1]), fs[|fs| - 1])
  }

  /** The cache is what the last conclusive fetch reported, however many inconclusive ones
      follow it. */
  lemma {:induction false} CacheIsLastConclusive(g: Group, store: Option<Pool>, fs: seq<Fetch>, k: nat)
    requires k < |fs| && Conclusive(g, fs[k])
    requires forall i :: k < i < |fs| ==> !Conclusive(g, fs[i])
    ensures CacheAfter(g, store, fs) == Reported(g, fs[k])
  {
    var init := fs[..|fs| - 1];
    if k < |fs| - 1 {
      assert init[k] == fs[k];
      CacheIsLastConclusive(g, store, init, k);
    }
  }

  /** So a pool is cached exactly if the last conclusive fetch found one that is not being
      deleted: the object itself under v1, its conversion under v1alpha2. */
  lemma CachedPool(g: Group, store: Option<Pool>, fs: seq<Fetch>, k: nat)
    requires k < |fs| && Conclusive(g, fs[k])
    requires forall i :: k < i < |fs| ==> !Conclusive(g, fs[i])
    ensures CacheAfter(g, store, fs) == None <==> fs[k] == Missing || fs[k].deleting
    ensures g == V1 && fs[k] != Missing && !fs[k].deleting ==> CacheAfter(g, store, fs) == Some(fs[k].original)
    ensures g == V1Alpha2 && fs[k] != Missing && !fs[k].deleting ==>
              fs[k].converted.Some? && CacheAfter(g, store, fs) == fs[k].converted
  {
    CacheIsLastConclusive(g, store, fs, k);
  }

  /** With no conclusive fetch at all the cache keeps its initial value. */
  lemma {:induction false} CacheKeptWithoutConclusive(g: Group, store: Option<Pool>, fs: seq<Fetch>)
    requires forall i :: 0 <= i < |fs| ==> !Conclusive(g, fs[i])
    ensures CacheAfter(g, store, fs) == store
  {
    if fs != [] {
      CacheKeptWithoutConclusive(g, store, fs[..|fs| - 1]);
    }
  }
}
