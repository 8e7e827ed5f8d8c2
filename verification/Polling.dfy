/** One polling window as a function of what the environment answers. */
module Polling {
  import opened Pools
  import opened System

  /** One poll as the environment decides it: how late it comes after its second, how long
      the object takes to arrive, and what it shows. */
  datatype Round = Round(late: nat, latency: nat, seen: Sighting)

  datatype PollResult = PodsSeen | TimedOut | Panicked

  datatype PollEnd = PollEnd(result: PollResult, elapsed: int)

  function Later(s: int, t: int): int {
    if s < t then t else s
  }

  /** What a sighting decides, if it decides anything. */
  function Decides(wanted: int, seen: Sighting): Option<PollResult> {
    if seen == NoStatusMap then Some(Panicked)
    else if seen.Ready? && wanted == ToInt32(seen.n) then Some(PodsSeen)
    else None
  }

  /** How a window of length `timeout` ends when it is `t` old and its next poll is due at age
      `next`. */
  function PollsTo(wanted: int, timeout: int, t: int, next: int, rounds: seq<Round>): PollEnd
    decreases |rounds|
  {
    if rounds == [] then PollEnd(TimedOut, Later(t, timeout)) else
    var at := Later(t, next + rounds[0].late);
    if at >= timeout then PollEnd(TimedOut, at) else
    var seenAt := at + rounds[0].latency;
    var decided := Decides(wanted, rounds[0].seen);
    if decided.Some? then PollEnd(decided.value, seenAt)
    else PollsTo(wanted, timeout, seenAt, next + POLL_INTERVAL, rounds[1..])
  }

  function PollWindow(wanted: int, timeout: int, rounds: seq<Round>): PollEnd {
    PollsTo(wanted, timeout, 0, POLL_INTERVAL, rounds)
  }

  /** Round `k` is the first that decides anything. */
  ghost predicate FirstToDecide(wanted: int, rounds: seq<Round>, k: nat) {
    && k < |rounds| && Decides(wanted, rounds[k].seen).Some?
    && (forall j :: 0 <= j < k ==> Decides(wanted, rounds[j].seen) == None)
  }

  lemma {:induction false} ResultComesFrom(wanted: int, timeout: int, t: int, next: int, rounds: seq<Round>)
    ensures var e := PollsTo(wanted, timeout, t, next, rounds);
            && (e.result == TimedOut ==> e.elapsed >= timeout)
            && (e.result != TimedOut ==>
                  exists k: nat ::
                     FirstToDecide(wanted, rounds, k) && Decides(wanted, rounds[k].seen) == Some(e.result))
    decreases |rounds|
  {
    var e := PollsTo(wanted, timeout, t, next, rounds);
    if rounds != [] && e.result != TimedOut {
      if Decides(wanted, rounds[0].seen).Some? {
        assert FirstToDecide(wanted, rounds, 0);
      } else {
        var seenAt := Later(t, next + rounds[0].late) + rounds[0].latency;
        ResultComesFrom(wanted, timeout, seenAt, next + POLL_INTERVAL, rounds[1..]);
        var j: nat :| FirstToDecide(wanted, rounds[1..], j) && Decides(wanted, rounds[1..][j].seen) == Some(e.result);
        assert FirstToDecide(wanted, rounds, j + 1);
      }
    } else if rounds != [] {
      var seenAt := Later(t, next + rounds[0].late) + rounds[0].latency;
      ResultComesFrom(wanted, timeout, seenAt, next + POLL_INTERVAL, rounds[1..]);
    }
  }

  /** A window ends with pods seen, or with a panic, only on the first sighting that decides so;
      it times out only when its whole length has passed. */
  lemma WindowEndsForAReason(wanted: int, timeout: int, rounds: seq<Round>)
    ensures var e := PollWindow(wanted, timeout, rounds);
            && (e.result == TimedOut ==> e.elapsed >= timeout)
            && (e.result != TimedOut ==>
                  exists k: nat ::
                     FirstToDecide(wanted, rounds, k) && Decides(wanted, rounds[k].seen) == Some(e.result))
  {
    ResultComesFrom(wanted, timeout, 0, POLL_INTERVAL, rounds);
  }

  // ----- When the polls come -----

  /** The age of the window at its `k + 1`-st poll: at its second, however late the timer is,
      and not before the poll ahead of it is answered. */
  function PolledAt(rounds: seq<Round>, k: nat): int
    requires k < |rounds|
    decreases k, 1
  {
    Later(AnsweredAt(rounds, k), (k + 1) * POLL_INTERVAL + rounds[k].late)
  }

  /** The age of the window when `k` polls have been answered. */
  function AnsweredAt(rounds: seq<Round>, k: nat): int
    requires k <= |rounds|
    decreases k, 0
  {
    if k == 0 then 0 else PolledAt(rounds, k - 1) + rounds[k - 1].latency
  }

  /** All lateness and all latency of the first `k` rounds. */
  function Delays(rounds: seq<Round>, k: nat): nat
    requires k <= |rounds|
  {
    if k == 0 then 0 else Delays(rounds, k - 1) + rounds[k - 1].late + rounds[k - 1].latency
  }

  /** A poll is never early, and late at most by what went before it. */
  lemma {:induction false} PolledInTime(rounds: seq<Round>, k: nat)
    requires k < |rounds|
    ensures (k + 1) * POLL_INTERVAL <= PolledAt(rounds, k) <= (k + 1) * POLL_INTERVAL + Delays(rounds, k + 1)
    ensures AnsweredAt(rounds, k) <= PolledAt(rounds, k)
    ensures AnsweredAt(rounds, k + 1) <= (k + 1) * POLL_INTERVAL + Delays(rounds, k + 1)
  {
    if k > 0 {
      PolledInTime(rounds, k - 1);
    }
  }

  lemma {:induction false} PollsInOrder(rounds: seq<Round>, j: nat, k: nat)
    requires j <= k < |rounds|
    ensures PolledAt(rounds, j) <= PolledAt(rounds, k)
  {
    if j < k {
      PollsInOrder(rounds, j, k - 1);
    }
  }

  /** While nothing is decided and the window is open, polling goes on. */
  lemma {:induction false} GoesOn(wanted: int, timeout: int, rounds: seq<Round>, k: nat)
    requires k <= |rounds|
    requires forall j :: 0 <= j < k ==> Decides(wanted, rounds[j].seen) == None
    requires k > 0 ==> PolledAt(rounds, k - 1) < timeout
    ensures PollWindow(wanted, timeout, rounds) ==
            PollsTo(wanted, timeout, AnsweredAt(rounds, k), (k + 1) * POLL_INTERVAL, rounds[k..])
  {
    if k == 0 {
      assert rounds[0..] == rounds;
    } else {
      if k > 1 {
        PollsInOrder(rounds, k - 2, k - 1);
      }
      GoesOn(wanted, timeout, rounds, k - 1);
      assert rounds[k - 1..][1..] == rounds[k..];
    }
  }

  /** Round `k` ends the window with `result`: it is the first that decides anything, and its
      poll comes before the window closes. */
  ghost predicate EndsOn(wanted: int, timeout: int, rounds: seq<Round>, k: nat, result: PollResult) {
    && FirstToDecide(wanted, rounds, k) && Decides(wanted, rounds[k].seen) == Some(result)
    && PolledAt(rounds, k) < timeout
  }

  /** Some round ends the window with `result`. */
  ghost predicate Ends(wanted: int, timeout: int, rounds: seq<Round>, result: PollResult) {
    exists k: nat :: EndsOn(wanted, timeout, rounds, k, result)
  }

  lemma EndsThere(wanted: int, timeout: int, rounds: seq<Round>, k: nat, result: PollResult)
    requires EndsOn(wanted, timeout, rounds, k, result)
    ensures PollWindow(wanted, timeout, rounds) == PollEnd(result, AnsweredAt(rounds, k + 1))
  {
    if k > 0 {
      PollsInOrder(rounds, k - 1, k);
    }
    GoesOn(wanted, timeout, rounds, k);
  }

  lemma {:induction false} TimesOutBefore(wanted: int, timeout: int, rounds: seq<Round>, k: nat)
    requires k < |rounds| && PolledAt(rounds, k) >= timeout
    requires forall j :: 0 <= j < k ==> Decides(wanted, rounds[j].seen) == None
    ensures PollWindow(wanted, timeout, rounds).result == TimedOut
  {
    if k > 0 && PolledAt(rounds, k - 1) >= timeout {
      TimesOutBefore(wanted, timeout, rounds, k - 1);
    } else {
      GoesOn(wanted, timeout, rounds, k);
    }
  }

  /** How a window ends, exactly: with the pods seen, or with a panic, if and only if its first
      deciding poll says so and comes before the window closes; otherwise it times out. */
  lemma WindowEndsExactly(wanted: int, timeout: int, rounds: seq<Round>, result: PollResult)
    requires result != TimedOut
    ensures PollWindow(wanted, timeout, rounds).result == result <==> Ends(wanted, timeout, rounds, result)
  {
    if PollWindow(wanted, timeout, rounds).result == result {
      WindowEndsForAReason(wanted, timeout, rounds);
      var k: nat :| FirstToDecide(wanted, rounds, k) && Decides(wanted, rounds[k].seen) == Some(result);
      if PolledAt(rounds, k) >= timeout {
        TimesOutBefore(wanted, timeout, rounds, k);
      }
      assert EndsOn(wanted, timeout, rounds, k, result);
    }
    if Ends(wanted, timeout, rounds, result) {
      var k: nat :| EndsOn(wanted, timeout, rounds, k, result);
      EndsThere(wanted, timeout, rounds, k, result);
    }
  }

  /** A window that times out although its `k + 1`-st poll would have decided was late: the
      seconds up to that poll and all delays up to it fill the window. */
  lemma LateWindow(wanted: int, timeout: int, rounds: seq<Round>, k: nat)
    requires FirstToDecide(wanted, rounds, k) && PollWindow(wanted, timeout, rounds).result == TimedOut
    ensures (k + 1) * POLL_INTERVAL + Delays(rounds, k + 1) >= timeout
  {
    PolledInTime(rounds, k);
    if PolledAt(rounds, k) < timeout {
      EndsThere(wanted, timeout, rounds, k, Decides(wanted, rounds[k].seen).value);
    }
  }

  ghost predicate Punctual(rounds: seq<Round>) {
    forall j :: 0 <= j < |rounds| ==> rounds[j].late == 0 && rounds[j].latency == 0
  }

  lemma {:induction false} NoDelays(rounds: seq<Round>, k: nat)
    requires Punctual(rounds) && k <= |rounds|
    ensures Delays(rounds, k) == 0
  {
    if k > 0 {
      NoDelays(rounds, k - 1);
    }
  }

  /** When polls come on the second and are answered at once, the window sees the pods exactly
      if the first deciding poll, the `k + 1`-st, shows them and comes before the window closes. */
  lemma PunctualWindow(wanted: int, timeout: int, rounds: seq<Round>, k: nat)
    requires Punctual(rounds) && FirstToDecide(wanted, rounds, k)
    ensures PollWindow(wanted, timeout, rounds).result == PodsSeen <==>
            && rounds[k].seen.Ready? && ToInt32(rounds[k].seen.n) == wanted
            && (k + 1) * POLL_INTERVAL < timeout
  {
    NoDelays(rounds, k + 1);
    PolledInTime(rounds, k);
    if PolledAt(rounds, k) < timeout {
      EndsThere(wanted, timeout, rounds, k, Decides(wanted, rounds[k].seen).value);
    } else {
      TimesOutBefore(wanted, timeout, rounds, k);
    }
  }
}
