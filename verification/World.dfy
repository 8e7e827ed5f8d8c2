/** The mutable world that the activator and the deactivator run in: the shared objects, the
    clock, and the history of what everybody has done to them. */
module Worlds {
  import opened Pools
  import opened Guards
  import opened Datastores
  import opened System
  import opened Writing

  /** The API server's scale subresource, with optimistic concurrency. */
  class ScaleServer {
    var scale: Scale

    constructor (spec: int)
      ensures scale == Scale(spec, 0)
    {
      scale := Scale(spec, 0);
    }

    method Get() returns (obj: Scale)
      ensures obj == scale
    {
      return scale;
    }

    /** `fate` is what the environment has in store; a stale object is refused whatever it is. */
    method Update(obj: Scale, fate: UpdateOutcome) returns (u: UpdateOutcome)
      modifies this
      ensures u == if obj.version != old(scale.version) then Refused else fate
      ensures scale == if Writes(u) then Scale(obj.spec, old(scale.version) + 1) else old(scale)
    {
      if obj.version != scale.version {
        return Refused;
      }
      if Writes(fate) {
        scale := Scale(obj.spec, scale.version + 1);
      }
      return fate;
    }
  }

  class World {
    const c: Config
    const ds: Datastore
    const gate: ScaleUpGuard
    const api: ScaleServer
    var now: int
    ghost const origin: State
    ghost var reqs: map<nat, Req>
    ghost var deact: DCtrl
    ghost var crash: Option<Crash>
    ghost var trace: seq<Label>

    constructor (cfg: Config, spec: int)
      ensures Alive() && trace == [] && reqs == map[] && fresh(ds) && fresh(gate) && fresh(api)
    {
      c := cfg;
      ds := new Datastore(0);
      gate := new ScaleUpGuard();
      api := new ScaleServer(spec);
      now := 0;
      origin := Init(spec);
      reqs, deact, crash, trace := map[], Booting, None, [];
    }

    /** The state of the transition system that this world stands for. */
    ghost function Abs(): State
      reads this, ds, gate, api
    {
      State(now, ds.pool, ds.ticker, api.scale, gate.View(), reqs, deact, crash)
    }

    /** The history is executable from an initial state and leads to the present. */
    ghost predicate Valid()
      reads this, ds, gate, api
    {
      Start(origin) && Exec(c, origin, trace) == Some(Abs())
    }

    ghost predicate Alive()
      reads this, ds, gate, api
    {
      Valid() && crash == None
    }

    /** Enter in the history a step that has just been made from state `was`. */
    ghost method Record(was: State, l: Label)
      requires Start(origin) && Exec(c, origin, trace) == Some(was)
      requires Enabled(was, l) && Abs() == Next(c, was, l)
      modifies this`trace
      ensures Valid() && trace == old(trace) + [l]
    {
      ExecOneMore(c, origin, trace, l);
      trace := trace + [l];
    }

    /** Everybody else runs for a while, which takes the time `pause`. The body only lets that
        time pass; callers know what the contract says, so they must work after any steps of the
        others. */
    method Interfere(ghost who: Actor, pause: nat)
      requires Alive()
      modifies this, ds, gate, api
      ensures Alive() && old(trace) <= trace && now == old(now) + pause
      ensures Untouched(old(Abs()), Abs(), who)
    {
      SleepUntil(now + pause);
    }

    /** Block until the clock shows `t`. */
    method SleepUntil(t: int)
      requires Alive()
      modifies this`now, this`trace
      ensures Alive() && old(trace) <= trace && now == if t > old(now) then t else old(now)
      ensures reqs == old(reqs) && deact == old(deact)
    {
      if t > now {
        ghost var was := Abs();
        now := t;
        Record(was, Advance(t - was.now));
      }
    }
  }

  /** The others leave an actor's own control point alone. */
  ghost predicate Untouched(s: State, t: State, who: Actor) {
    match who
    case ByRequest(r) => (r in s.reqs <==> r in t.reqs) && (r in s.reqs ==> s.reqs[r] == t.reqs[r])
    case ByDeactivator => s.deact == t.deact
  }

  /** At position `k` of a history, request `r` checked the guard, which was up or not. */
  ghost predicate CheckMet(c: Config, origin: State, trace: seq<Label>, k: nat, r: nat, up: bool) {
    && k < |trace| && trace[k] == Request(r, Check)
    && var s := Exec(c, origin, trace[..k]);
       s.Some? && s.value.guard.scalingUp == up
  }

  /** At position `k` of a history, request `r` read the scale object of its pool with this
      outcome, and if that was a success the object was `obj`. */
  ghost predicate ReadMet(c: Config, origin: State, trace: seq<Label>, k: nat, r: nat,
                          pool: Pool, got: GetOutcome, obj: Scale)
  {
    && k < |trace| && trace[k] == Request(r, Get(got))
    && var s := Exec(c, origin, trace[..k]);
       s.Some? && (Annotated(pool) && got == GetOk ==> s.value.scale == obj)
  }

  /** At position `k` of a history, request `r` sent the object it had read with its replicas
      changed, and met `u`: what the environment had in store for it, unless somebody had written
      since it read. */
  ghost predicate UpdateMet(c: Config, origin: State, trace: seq<Label>, k: nat, r: nat,
                            fate: UpdateOutcome, u: UpdateOutcome)
  {
    && k < |trace| && trace[k] == Request(r, Update(u))
    && var s := Exec(c, origin, trace[..k]);
       && s.Some? && r in s.value.reqs
       && u == if s.value.reqs[r].snap.version != s.value.scale.version then Refused else fate
  }

  lemma UpdateMetStays(c: Config, origin: State, trace: seq<Label>, longer: seq<Label>, k: nat, r: nat,
                       fate: UpdateOutcome, u: UpdateOutcome)
    requires UpdateMet(c, origin, trace, k, r, fate, u) && trace <= longer
    ensures UpdateMet(c, origin, longer, k, r, fate, u)
  {
    assert longer[..k] == trace[..k];
  }

  lemma CheckMetStays(c: Config, origin: State, trace: seq<Label>, longer: seq<Label>, k: nat, r: nat, up: bool)
    requires CheckMet(c, origin, trace, k, r, up) && trace <= longer
    ensures CheckMet(c, origin, longer, k, r, up)
  {
    assert longer[..k] == trace[..k];
  }

  lemma ReadMetStays(c: Config, origin: State, trace: seq<Label>, longer: seq<Label>, k: nat, r: nat,
                     pool: Pool, got: GetOutcome, obj: Scale)
    requires ReadMet(c, origin, trace, k, r, pool, got, obj) && trace <= longer
    ensures ReadMet(c, origin, longer, k, r, pool, got, obj)
  {
    assert longer[..k] == trace[..k];
  }
}
