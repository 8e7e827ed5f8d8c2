/** The contract of `time.Ticker` (Go 1.23 and later) that the program relies on. */
module Tickers {

  /** `next` is when the ticker fires next; `pending` is the at most one fired tick that
      nobody has received yet. */
  datatype Ticker = Ticker(running: bool, period: int, next: int, pending: bool) {

    /** `Reset(d)`: panics unless `d > 0`; no tick fired before the call is received after it. */
    function Reset(now: int, d: int): Ticker
      requires d > 0
    {
      Ticker(true, d, now + d, false)
    }

    function Stop(): Ticker {
      this.(running := false, pending := false)
    }

    predicate CanFire(now: int, next': int) {
      running && next <= now < next' <= now + period
    }

    /** Firing: a second tick on top of an unreceived one is dropped. `next'` is the first
        multiple of the period after `now`; any instant in `(now, now + period]` is allowed. */
    function Fire(next': int): Ticker {
      this.(next := next', pending := true)
    }

    function Take(): Ticker {
      this.(pending := false)
    }
  }
}
