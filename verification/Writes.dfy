/** Who writes the scale object, what, and on the strength of which read. */
module Writing {
  import opened Pools
  import opened System
  import opened Safety

  /** The two kinds of writer inside the program. */
  datatype Actor = ByRequest(r: nat) | ByDeactivator

  /** The step reads the scale object for this actor. */
  predicate Reads(l: Label, who: Actor) {
    match who
    case ByRequest(r) => l == Request(r, Get(GetOk))
    case ByDeactivator => l == Deactivator(ReadScale(GetOk))
  }

  /** The step is an update by this actor that the server stores. */
  predicate WritesFor(l: Label, who: Actor) {
    match who
    case ByRequest(r) => l.Request? && l.r == r && l.a.Update? && Writes(l.a.upd)
    case ByDeactivator => l.Deactivator? && l.d.WriteZero? && Writes(l.d.upd)
  }

  /** The step stores a write, by the program or by anyone else. */
  predicate IsWrite(l: Label) {
    || l.External?
    || (l.Request? && WritesFor(l, ByRequest(l.r)))
    || WritesFor(l, ByDeactivator)
  }

  /** The read that the actor's update would carry. */
  function Held(s: State, who: Actor): Option<Scale> {
    match who
    case ByRequest(r) =>
      if r in s.reqs && Carries(s.reqs[r].ctrl) then Some(s.reqs[r].snap) else None
    case ByDeactivator =>
      if s.deact.Holding? then Some(s.deact.snap) else None
  }

  predicate Carries(k: Ctrl) {
    k.AtBegin? || k.AtUpdate? || ((k.PollWait? || k.PollGet?) && k.window == Grace)
  }

  lemma ScaleOfNext(c: Config, s: State, l: Label)
    requires Enabled(s, l)
    ensures IsWrite(l) ==> Next(c, s, l).scale.version == s.scale.version + 1
    ensures !IsWrite(l) ==> Next(c, s, l).scale == s.scale
    ensures l.Request? && IsWrite(l) ==> Next(c, s, l).scale.spec == 1
    ensures l.Deactivator? && IsWrite(l) ==> Next(c, s, l).scale.spec == 0
    ensures l.Request? && l.a.Update? ==> (l.a.upd == Refused <==> Next(c, s, l).scale.version == s.scale.version)
    ensures l.Deactivator? && l.d.WriteZero? ==>
              (l.d.upd == Refused <==> Next(c, s, l).scale.version == s.scale.version)
  {
  }

  lemma HeldStep(c: Config, s: State, l: Label, who: Actor)
    requires Enabled(s, l)
    requires Held(Next(c, s, l), who).Some?
    ensures Held(s, who) == Held(Next(c, s, l), who) || (Reads(l, who) && Held(Next(c, s, l), who) == Some(s.scale))
  {
    ReqsOfNext(c, s, l);
  }

  lemma {:induction false} VersionsGrow(c: Config, run: Run, a: nat, b: nat)
    requires IsRun(c, run) && a <= b < |run.states|
    ensures run.states[a].scale.version <= run.states[b].scale.version
    ensures run.states[a].scale.version == run.states[b].scale.version ==> run.states[a].scale == run.states[b].scale
  {
    if a < b {
      VersionsGrow(c, run, a, b - 1);
      assert StepAt(c, run, b - 1);
      ScaleOfNext(c, run.states[b - 1], run.labels[b - 1]);
    }
  }

  /** What an actor holds is what it read, at some earlier step of its own. */
  lemma {:induction false} HeldWasRead(c: Config, run: Run, i: nat, who: Actor) returns (g: nat)
    requires IsRun(c, run) && i < |run.states| && Held(run.states[i], who).Some?
    ensures g < i && Reads(run.labels[g], who)
    ensures Held(run.states[i], who) == Some(run.states[g].scale)
  {
    assert i > 0;
    assert StepAt(c, run, i - 1);
    HeldStep(c, run.states[i - 1], run.labels[i - 1], who);
    if Held(run.states[i - 1], who) == Held(run.states[i], who) {
      g := HeldWasRead(c, run, i - 1, who);
    } else {
      g := i - 1;
    }
  }

  ghost predicate UntouchedBetween(run: Run, g: nat, i: nat)
    requires g <= i < |run.labels| < |run.states|
  {
    && (forall k :: g <= k <= i ==> run.states[k].scale == run.states[g].scale)
    && (forall k :: g <= k < i ==> !IsWrite(run.labels[k]))
  }

  /** No lost decision: when the server stores an update of a request or of the deactivator,
      nobody has written since that actor's own read, so the value it replaces is the value
      it read. */
  lemma NoLostDecision(c: Config, run: Run, i: nat, who: Actor) returns (g: nat)
    requires IsRun(c, run) && i < |run.labels| && WritesFor(run.labels[i], who)
    ensures g < i && Reads(run.labels[g], who) && UntouchedBetween(run, g, i)
    ensures Held(run.states[i], who) == Some(run.states[i].scale)
  {
    assert StepAt(c, run, i);
    g := HeldWasRead(c, run, i, who);
    forall k | g <= k <= i
      ensures run.states[k].scale == run.states[g].scale
    {
      VersionsGrow(c, run, g, k);
      VersionsGrow(c, run, k, i);
    }
    forall k | g <= k < i
      ensures !IsWrite(run.labels[k])
    {
      assert StepAt(c, run, k);
      ScaleOfNext(c, run.states[k], run.labels[k]);
      assert run.states[k + 1].scale == run.states[g].scale;
    }
  }

  /** Of all the actors that read the same version, at most one gets its update stored. */
  lemma SameReadOneWinner(c: Config, run: Run, i: nat, j: nat, who: Actor, other: Actor)
    requires IsRun(c, run) && i < j < |run.labels|
    requires WritesFor(run.labels[i], who) && WritesFor(run.labels[j], other)
    ensures Held(run.states[i], who).Some? && Held(run.states[j], other).Some?
    ensures Held(run.states[i], who).value.version < Held(run.states[j], other).value.version
  {
    var _ := NoLostDecision(c, run, i, who);
    var _ := NoLostDecision(c, run, j, other);
    assert StepAt(c, run, i);
    ScaleOfNext(c, run.states[i], run.labels[i]);
    VersionsGrow(c, run, i + 1, j);
  }

  /** Left alone by others, the desired replica count is only ever the initial one, 0 or 1. */
  lemma {:induction false} OnlyZeroOrOne(c: Config, run: Run, i: nat)
    requires IsRun(c, run) && i < |run.states|
    requires forall k :: 0 <= k < i ==> !run.labels[k].External?
    ensures run.states[i].scale.spec in {run.states[0].scale.spec, 0, 1}
  {
    if i > 0 {
      OnlyZeroOrOne(c, run, i - 1);
      assert StepAt(c, run, i - 1);
      ScaleOfNext(c, run.states[i - 1], run.labels[i - 1]);
    }
  }

  // ----- Single flight -----

  /** With no overlap so far there is at most one scale-up in flight. */
  lemma AtMostOneInFlight(c: Config, run: Run, i: nat, r: nat, q: nat)
    requires IsRun(c, run) && i < |run.states| && !OverlapBefore(run, i)
    requires run.states[i].crash == None
    requires r in Scaling(run.states[i]) && q in Scaling(run.states[i])
    ensures r == q
  {
    var s := run.states[i];
    OverlapIffDropped(c, run, i);
    ScaleUpsConserved(c, run, i);
    assert |Scaling(s) - {r}| == 0;
    assert Scaling(s) == {r} + (Scaling(s) - {r});
  }

  predicate PastUpdate(s: State, r: nat) {
    r in s.reqs && InScaleUp(s.reqs[r].ctrl) && !s.reqs[r].ctrl.AtUpdate?
  }

  lemma PastUpdateStep(c: Config, s: State, l: Label, r: nat)
    requires Enabled(s, l) && l != Request(r, End)
    requires PastUpdate(s, r) || (l.Request? && l.r == r && l.a.Update?)
    ensures PastUpdate(Next(c, s, l), r)
  {
    ReqsOfNext(c, s, l);
  }

  lemma {:induction false} StaysPastUpdate(c: Config, run: Run, i: nat, j: nat, r: nat)
    requires IsRun(c, run) && i < j < |run.states|
    requires run.labels[i].Request? && run.labels[i].r == r && run.labels[i].a.Update?
    requires forall e :: i < e < j ==> run.labels[e] != Request(r, End)
    ensures PastUpdate(run.states[j], r)
  {
    assert StepAt(c, run, j - 1);
    if i < j - 1 {
      StaysPastUpdate(c, run, i, j - 1, r);
    }
    PastUpdateStep(c, run.states[j - 1], run.labels[j - 1], r);
  }

  /** Single flight: with no overlap so far, between two updates issued by requests the scale-up
      that issued the first has ended, so one episode issues at most one update. */
  lemma SingleFlight(c: Config, run: Run, i: nat, j: nat)
    requires IsRun(c, run) && i < j < |run.labels| && !OverlapBefore(run, j)
    requires run.labels[i].Request? && run.labels[i].a.Update?
    requires run.labels[j].Request? && run.labels[j].a.Update?
    ensures exists e :: i < e < j && run.labels[e] == Request(run.labels[i].r, End)
  {
    var r, q := run.labels[i].r, run.labels[j].r;
    if forall e :: i < e < j ==> run.labels[e] != Request(r, End) {
      StaysPastUpdate(c, run, i, j, r);
      assert StepAt(c, run, j);
      assert run.states[j].reqs[q].ctrl.AtUpdate?;
      AtMostOneInFlight(c, run, j, r, q);
    }
  }
}
