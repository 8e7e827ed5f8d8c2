/** The datastore object: the cached pool and the deactivator's ticker. */
module Datastores {
  import opened Pools
  import opened Tickers

  datatype PoolResult = Found(pool: Pool) | NotSynced

  class Datastore {
    var pool: Option<Pool>
    var ticker: Ticker

    constructor (now: int)
      ensures pool == None
      ensures ticker == Ticker(true, INITIAL_PERIOD, now + INITIAL_PERIOD, false)
    {
      pool := None;
      ticker := Ticker(true, INITIAL_PERIOD, now + INITIAL_PERIOD, false);
    }

    method PoolSet(p: Option<Pool>)
      modifies this`pool
      ensures pool == p
    {
      pool := p;
    }

    method PoolGet() returns (r: PoolResult)
      ensures r.NotSynced? <==> pool == None
      ensures r.Found? ==> pool == Some(r.pool)
    {
      var synced := PoolHasSynced();
      if !synced {
        return NotSynced;
      }
      return Found(pool.value);
    }

    method PoolHasSynced() returns (synced: bool)
      ensures synced <==> pool.Some?
    {
      return pool != None;
    }

    method Clear()
      modifies this`pool
      ensures pool == None
    {
      PoolSet(None);
    }

    /** `panicked` is the panic of `time.Ticker.Reset` on a period that is not positive. */
    method ResetTicker(now: int, d: int) returns (panicked: bool)
      modifies this`ticker
      ensures panicked <==> d <= 0
      ensures panicked ==> ticker == old(ticker)
      ensures !panicked ==> ticker.running && !ticker.pending
      ensures !panicked ==> ticker.next == now + d && ticker.period == d
    {
      if d <= 0 {
        return true;
      }
      ticker := ticker.Reset(now, d);
      return false;
    }

    method GetTicker() returns (t: Ticker)
      ensures t == ticker
    {
      return ticker;
    }

    method StopTicker()
      modifies this`ticker
      ensures !ticker.running && !ticker.pending
      ensures ticker.period == old(ticker.period) && ticker.next == old(ticker.next)
    {
      ticker := ticker.Stop();
    }
  }
}
