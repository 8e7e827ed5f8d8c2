/** The scale-up guard of the activator: the `scalingUp` flag and the `guard` channel. */
module Guards {
  import opened Pools

  /** Channels are numbered in the order they are made. `closed` and `dropped` are history:
      the channels closed so far, and those overwritten while still open. */
  datatype Guard = Guard(scalingUp: bool, current: Option<nat>, made: nat,
                         closed: set<nat>, dropped: set<nat>)
  {
    function Begin(): Guard {
      Guard(true, Some(made), made + 1, closed,
            if current.Some? then dropped + {current.value} else dropped)
    }

    /** `close(nil)` panics, so ending needs a current channel. */
    function End(): Guard
      requires current.Some?
    {
      Guard(false, None, made, closed + {current.value}, dropped)
    }

    function Current(): set<nat> {
      if current.Some? then {current.value} else {}
    }

    /** The flag mirrors the channel, the current channel is open, and every channel ever
        made is in exactly one place. */
    predicate Valid() {
      && (scalingUp <==> current.Some?)
      && (closed !! dropped)
      && (closed + dropped) !! Current()
      && (forall x: nat :: x < made ==> x in closed + dropped + Current())
      && (forall x: nat :: x in closed + dropped + Current() ==> x < made)
    }
  }

  lemma BeginValid(g: Guard)
    requires g.Valid()
    ensures g.Begin().Valid()
  {
    var h := g.Begin();
    assert h.closed + h.dropped == g.closed + g.dropped + g.Current();
    assert h.Current() == {g.made};
  }

  lemma EndValid(g: Guard)
    requires g.Valid() && g.current.Some?
    ensures g.End().Valid()
  {
    var h := g.End();
    assert h.closed + h.dropped + h.Current() == g.closed + g.dropped + g.Current();
  }

  const IDLE := Guard(false, None, 0, {}, {})

  /** The activator's two fields, changed under its mutex. */
  class ScaleUpGuard {
    var scalingUp: bool
    var guard: Option<nat>
    var made: nat // names the channel that the next `make` returns
    var closed: set<nat> // the channels on which a receive no longer blocks
    ghost var dropped: set<nat>

    constructor ()
      ensures View() == IDLE
    {
      scalingUp, guard, made, closed, dropped := false, None, 0, {}, {};
    }

    ghost function View(): Guard
      reads this
    {
      Guard(scalingUp, guard, made, closed, dropped)
    }

    method BeginScalingUp()
      modifies this
      ensures View() == old(View()).Begin()
    {
      scalingUp := true;
      dropped := if guard.Some? then dropped + {guard.value} else dropped;
      guard := Some(made);
      made := made + 1;
    }

    /** `panicked` is the panic of closing a nil channel. */
    method EndScalingUp() returns (panicked: bool)
      modifies this
      ensures panicked <==> old(guard) == None
      ensures !panicked ==> View() == old(View()).End()
      ensures panicked ==> View() == old(View()).(scalingUp := false)
    {
      scalingUp := false;
      if guard == None {
        return true;
      }
      closed := closed + {guard.value};
      guard := None;
      return false;
    }

    method IsScalingUp() returns (up: bool, captured: Option<nat>)
      ensures up == View().scalingUp && captured == View().current
    {
      return scalingUp, guard;
    }
  }

  // ----- Sequences of begins and ends -----

  datatype GuardOp = BeginOp | EndOp

  /** The guard after a sequence of calls; `None` once an end has closed a nil channel. */
  function After(ops: seq<GuardOp>): Option<Guard> {
    if ops == [] then Some(IDLE) else
    var before := After(ops[..|ops| - 1]);
    if before == None then None
    else if ops[|ops| - 1] == BeginOp then Some(before.value.Begin())
    else if before.value.current == None then None
    else Some(before.value.End())
  }

  /** Begins minus ends: how many scale-ups are in flight. */
  function InFlight(ops: seq<GuardOp>): int {
    if ops == [] then 0
    else InFlight(ops[..|ops| - 1]) + (if ops[|ops| - 1] == BeginOp then 1 else -1)
  }

  /** Begin, end, begin, end, ... */
  predicate Alternates(ops: seq<GuardOp>) {
    forall i :: 0 <= i < |ops| ==> (ops[i] == BeginOp <==> i % 2 == 0)
  }

  lemma {:induction false} DroppedCounts(ops: seq<GuardOp>)
    requires After(ops).Some?
    ensures After(ops).value.Valid()
    ensures InFlight(ops) == |After(ops).value.dropped| + |After(ops).value.Current()|
  {
    if ops != [] {
      DroppedCounts(ops[..|ops| - 1]);
      var g := After(ops[..|ops| - 1]).value;
      BeginValid(g);
      if g.current.Some? {
        EndValid(g);
        assert g.current.value !in g.dropped by { assert g.current.value in g.Current(); }
      }
    }
  }

  /** How many of the ends closed channel `x`. */
  function TimesClosed(ops: seq<GuardOp>, x: nat): nat
    requires After(ops).Some?
  {
    if ops == [] then 0 else
    var init := ops[..|ops| - 1];
    TimesClosed(init, x) + if ops[|ops| - 1] == EndOp && After(init).value.current == Some(x) then 1 else 0
  }

  /** No end closes a channel that is closed already. */
  lemma {:induction false} ClosedOnce(ops: seq<GuardOp>, x: nat)
    requires After(ops).Some?
    ensures TimesClosed(ops, x) == if x in After(ops).value.closed then 1 else 0
  {
    if ops != [] {
      var init := ops[..|ops| - 1];
      ClosedOnce(init, x);
      DroppedCounts(init);
      var g := After(init).value;
      assert g.current == Some(x) ==> x in g.Current();
    }
  }

  lemma {:induction false} AlternatingIsSafe(ops: seq<GuardOp>)
    requires Alternates(ops)
    ensures After(ops).Some? && After(ops).value.dropped == {}
    ensures After(ops).value.current.Some? <==> |ops| % 2 == 1
    ensures InFlight(ops) == |ops| % 2
  {
    if ops != [] {
      AlternatingIsSafe(ops[..|ops| - 1]);
    }
  }

  lemma {:induction false} NothingDroppedAlternates(ops: seq<GuardOp>)
    requires After(ops).Some? && After(ops).value.dropped == {}
    ensures Alternates(ops)
    ensures After(ops).value.current.Some? <==> |ops| % 2 == 1
  {
    if ops != [] {
      var init := ops[..|ops| - 1];
      NothingDroppedAlternates(init);
      assert ops == init + [ops[|init|]];
    }
  }

  /** When every begin has had its end: no end closed a nil channel if and only if begins
      and ends strictly alternate, and then every channel made has been closed exactly once. */
  lemma BalancedSafeIffAlternates(ops: seq<GuardOp>)
    requires InFlight(ops) == 0
    ensures After(ops).Some? <==> Alternates(ops)
    ensures After(ops).Some? ==> forall x: nat :: TimesClosed(ops, x) == if x < After(ops).value.made then 1 else 0
  {
    if Alternates(ops) {
      AlternatingIsSafe(ops);
    }
    if After(ops).Some? {
      DroppedCounts(ops);
      NothingDroppedAlternates(ops);
      var g := After(ops).value;
      assert g.closed + g.dropped + g.Current() == g.closed;
      forall x: nat
        ensures TimesClosed(ops, x) == if x < g.made then 1 else 0
      {
        ClosedOnce(ops, x);
      }
    }
  }
}
