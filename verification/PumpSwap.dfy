/** `PoolResolver` and the two live processors, step by step as the source runs them. */
module PumpSwap {
  import opened Rows
  import opened Store
  import opened Interpret
  import opened Database
  import Gaps
  import Pools

  class PoolResolver {
    const db: Database
    var cache: Cache
    var queue: seq<Pubkey>
    var worker: Pools.Worker

    constructor (db: Database)
      ensures this.db == db && cache == map[] && queue == [] && worker == Pools.Idle
    {
      this.db := db;
      cache, queue, worker := map[], [], Pools.Idle;
    }

    function Get(pool: Pubkey): (r: Option<PoolInfo>)
      reads this`cache
      ensures r == Lookup(cache, pool)
    {
      if pool in cache then Some(cache[pool]) else None
    }

    /** `save`: a failed write is only counted. */
    method Save(pool: Pubkey, info: PoolInfo, ok: bool)
      modifies db`pools
      ensures db.pools == if ok then UpsertPool(old(db.pools), Base58(pool), Pools.RowOf(info)) else old(db.pools)
    {
      if ok {
        db.WritePool(Base58(pool), Pools.RowOf(info));
      }
    }

    method Insert(pool: Pubkey, info: PoolInfo, ok: bool)
      modifies this`cache, db`pools
      ensures cache == old(cache)[pool := info]
      ensures db.pools == if ok then UpsertPool(old(db.pools), Base58(pool), Pools.RowOf(info)) else old(db.pools)
    {
      cache := cache[pool := info];
      Save(pool, info, ok);
    }

    /** `try_send`: a full queue drops the request. */
    method Request(pool: Pubkey)
      modifies this`queue
      ensures queue == if |old(queue)| < 1000 then old(queue) + [pool] else old(queue)
    {
      if |queue| < Pools.LOOKUP_QUEUE_SIZE {
        queue := queue + [pool];
      }
    }

    /** The worker up to its RPC call. */
    method WorkerTake()
      requires worker.Idle? && queue != []
      modifies this`queue, this`worker
      ensures queue == old(queue)[1..]
      ensures worker == if old(queue)[0] in cache then Pools.Idle else Pools.Fetching(old(queue)[0])
    {
      var pool := queue[0];
      queue := queue[1..];
      if pool !in cache {
        worker := Pools.Fetching(pool);
      }
    }

    /** The worker after its RPC call: it does not look at the cache again. */
    method WorkerAnswer(answer: Option<PoolInfo>, ok: bool)
      requires worker.Fetching?
      modifies this`cache, this`worker, db`pools
      ensures worker == Pools.Idle
      ensures answer.None? ==> cache == old(cache) && db.pools == old(db.pools)
      ensures answer.Some? ==>
                && cache == old(cache)[old(worker).pool := answer.value]
                && db.pools == if ok then UpsertPool(old(db.pools), Base58(old(worker).pool), Pools.RowOf(answer.value))
                               else old(db.pools)
    {
      var pool := worker.pool;
      match answer {
        case None =>
        case Some(info) =>
          cache := cache[pool := info];
          Save(pool, info, ok);
      }
      worker := Pools.Idle;
    }

    /** `prime`: fill the cache from the table and report its size; the first text that is no
        key ends it, with some rows already cached. */
    method Prime() returns (primed: Option<nat>)
      modifies this`cache
      ensures primed.Some? <==> forall t :: t in db.pools ==> Parses(t, db.pools[t])
      ensures primed.Some? ==> primed.value == |db.pools|
      ensures old(cache).Keys <= cache.Keys
      ensures forall p :: p in cache ==>
                (p in old(cache) && cache[p] == old(cache)[p]) || PrimedFrom(db.pools, p, cache[p])
      ensures primed.Some? ==> forall p :: Base58(p) in db.pools ==> p in cache && PrimedFrom(db.pools, p, cache[p])
    {
      var todo := db.pools.Keys;
      while todo != {}
        invariant todo <= db.pools.Keys
        invariant forall t :: t in db.pools && t !in todo ==> Parses(t, db.pools[t])
        invariant old(cache).Keys <= cache.Keys
        invariant forall p :: p in cache ==>
                    (p in old(cache) && cache[p] == old(cache)[p]) || PrimedFrom(db.pools, p, cache[p])
        invariant forall p :: Base58(p) in db.pools && Base58(p) !in todo ==>
                    p in cache && PrimedFrom(db.pools, p, cache[p])
        decreases |todo|
      {
        var t :| t in todo;
        var row := db.pools[t];
        match (FromStr(t), FromStr(row.baseMint), FromStr(row.quoteMint)) {
          case (Some(pool), Some(base), Some(quote)) =>
            cache := cache[pool :=
              PoolInfo(base, quote, SmallDecimals(row.baseDecimals), SmallDecimals(row.quoteDecimals))];
          case _ =>
            assert !Parses(t, db.pools[t]);
            return None;
        }
        todo := todo - {t};
      }
      primed := Some(|db.pools|);
    }
  }

  /** The entry is the table's row: its mints, and its decimals where they fit a byte. */
  predicate PrimedFrom(table: Store.Pools, pool: Pubkey, info: PoolInfo) {
    && Base58(pool) in table && Pools.RowMints(table[Base58(pool)], info)
    && info.baseDecimals == SmallDecimals(table[Base58(pool)].baseDecimals)
    && info.quoteDecimals == SmallDecimals(table[Base58(pool)].quoteDecimals)
  }

  predicate Parses(pool: Text, row: PoolRow) {
    pool.Base58? && row.baseMint.Base58? && row.quoteMint.Base58?
  }

  // ----- The processors -----

  datatype Instruction =
    | Event(event: Decoded)
    | CreatePool(pool: Pubkey, info: PoolInfo)
    | Ignored

  datatype Update = Update(key: EventKey, slot: nat, blockTime: Option<int>, failed: bool, instruction: Instruction)

  /** The pump.fun and PumpSwap processors of one pipeline. Counters as in `metrics.rs`;
      `oriented` and `unoriented` count PumpSwap trades only. */
  class Processors {
    const resolver: PoolResolver
    const watermark: Gaps.Watermark
    var requested: map<Pubkey, nat>
    var clock: nat
    var sent: seq<PendingWrite>
    var eventLog: seq<EventKey>
    var skippedFailed: nat
    var decoded: nat
    var hits: nat
    var misses: nat
    var tradesWritten: nat
    var unoriented: nat
    // history
    ghost var creating: Option<(Pubkey, PoolInfo)>
    ghost var log: seq<Pools.Lookup>
    ghost var pumpfun: nat
    ghost var swaps: nat

    ghost function View(): Pools.State
      reads this, resolver, resolver.db
    {
      Pools.State(resolver.cache, resolver.db.pools, creating, resolver.queue, resolver.worker,
                  requested, clock, hits, misses, log)
    }

    /** Every swap is a hit or a miss, and oriented or not; every decoded event is a swap or a
        pump.fun trade, is logged once and sends one row. */
    ghost predicate Valid()
      reads this, resolver, resolver.db, watermark
    {
      Pools.Throttled(View()) && creating.None? && hits + misses == swaps && Booked() && Checked()
    }

    /** Every row sent went through `check_slot` first, so HEAD_SLOT is not below its slot. */
    ghost predicate Checked()
      reads this`sent, watermark`headSlot
    {
      forall i :: 0 <= i < |sent| ==> sent[i].event.slot <= watermark.headSlot
    }

    ghost predicate Booked()
      reads this`decoded, this`swaps, this`pumpfun, this`sent, this`eventLog, this`tradesWritten, this`unoriented
    {
      && tradesWritten + unoriented == swaps
      && decoded == swaps + pumpfun == |sent| == |eventLog|
      && (forall i :: 0 <= i < |sent| ==> sent[i].event.key == eventLog[i])
      && SidesOk(sent)
    }

    constructor (resolver: PoolResolver, watermark: Gaps.Watermark)
      ensures Valid() && this.resolver == resolver && this.watermark == watermark && sent == []
    {
      this.resolver, this.watermark := resolver, watermark;
      requested, clock, sent, eventLog := map[], 0, [], [];
      skippedFailed, decoded, hits, misses, tradesWritten, unoriented := 0, 0, 0, 0, 0, 0;
      creating, log, pumpfun, swaps := None, [], 0, 0;
    }

    method Resolve(pool: Pubkey, waited: nat) returns (info: Option<PoolInfo>)
      requires creating.None?
      modifies this`requested, this`clock, this`hits, this`misses, this`log, resolver`queue
      ensures info == Lookup(resolver.cache, pool)
      ensures View() == Pools.Next(old(View()), Pools.Resolve(pool, waited))
    {
      clock := clock + waited;
      info := resolver.Get(pool);
      if info.Some? {
        hits := hits + 1;
        return;
      }
      misses := misses + 1;
      var stale := true;
      if pool in requested {
        stale := clock - requested[pool] >= Pools.RETRY_AFTER;
      }
      if stale {
        requested := requested[pool := clock];
        log := log + [Pools.Lookup(pool, clock)];
        resolver.Request(pool);
      }
    }

    /** `record`. */
    method Record(key: EventKey)
      modifies this`decoded, this`eventLog
      ensures decoded == old(decoded) + 1 && eventLog == old(eventLog) + [key]
    {
      decoded := decoded + 1;
      eventLog := eventLog + [key];
    }

    /** One instruction: a failed transaction is skipped, an event is logged, interpreted with
        the cache as it is and sent, a created pool is cached and saved. */
    method Process(u: Update, waited: nat, saveOk: bool)
      requires Valid()
      modifies this, resolver`queue, resolver`cache, resolver.db`pools, watermark
      ensures Valid()
      ensures u.failed ==> watermark.mark == old(watermark.mark) && watermark.channel == old(watermark.channel)
      ensures !u.failed ==> watermark.mark >= u.slot && watermark.headSlot >= u.slot
      ensures u.failed || !u.instruction.Event? ==> sent == old(sent)
      ensures !u.failed && u.instruction.Event? ==>
                var e := u.instruction.event;
                && sent == old(sent)
                           + [PendingWrite(EventOf(u.key, u.slot, u.blockTime, e), LiveTrade(e, old(resolver.cache)))]
                && View() == if e.PumpfunTrade? then old(View())
                             else Pools.Next(old(View()), Pools.Resolve(e.pool, waited))
      ensures !u.failed && u.instruction.CreatePool? ==>
                var run := [Pools.Create(u.instruction.pool, u.instruction.info), Pools.SaveCreated(saveOk)];
                Some(View()) == Pools.Exec(old(View()), run)
      ensures u.failed || u.instruction.Ignored? ==> View() == old(View())
      ensures skippedFailed == old(skippedFailed) + if u.failed then 1 else 0
      ensures var swap := !u.failed && u.instruction.Event? && !u.instruction.event.PumpfunTrade?;
              && swaps == old(swaps) + (if swap then 1 else 0)
              && tradesWritten == old(tradesWritten)
                   + (if swap && LiveTrade(u.instruction.event, old(resolver.cache)).Some? then 1 else 0)
              && unoriented == old(unoriented)
                   + (if swap && LiveTrade(u.instruction.event, old(resolver.cache)).None? then 1 else 0)
              && decoded == old(decoded) + (if !u.failed && u.instruction.Event? then 1 else 0)
    {
      hide Pools.Throttled, LiveTrade, EventOf, Pools.ResolveStep, UpsertPool;
      if u.failed {
        skippedFailed := skippedFailed + 1;
        return;
      }
      watermark.CheckSlot(u.slot);
      match u.instruction {
        case Ignored =>
        case CreatePool(pool, info) =>
          CreateRun(View(), pool, info, saveOk);
          resolver.Insert(pool, info, saveOk);
        case Event(e) =>
          if e.PumpfunTrade? {
            ProcessPumpfun(u, e);
          } else {
            ProcessSwap(u, e, waited);
          }
      }
    }

    method ProcessPumpfun(u: Update, e: Decoded)
      requires Valid() && e.PumpfunTrade? && u.slot <= watermark.headSlot
      modifies this`decoded, this`eventLog, this`pumpfun, this`sent
      ensures Valid() && View() == old(View())
      ensures sent == old(sent) + [PendingWrite(EventOf(u.key, u.slot, u.blockTime, e), LiveTrade(e, resolver.cache))]
      ensures var row := sent[|old(sent)|].trade;
              && row.Some? && row.value.side == (if e.isBuy then "buy" else "sell")
              && row.value.solAmount == e.solAmount && row.value.tokenAmount == e.tokenAmount
              && row.value.tokenMint == Base58(e.mint) && row.value.trader == Base58(e.user)
              && row.value.fee == Some(e.fee)
      ensures decoded == old(decoded) + 1
    {
      hide Pools.Throttled;
      var row := TradeRow(None, Base58(e.mint), if e.isBuy then "buy" else "sell", e.solAmount, e.tokenAmount,
                          Base58(e.user), Some(e.fee));
      var write := PendingWrite(EventOf(u.key, u.slot, u.blockTime, e), Some(row));
      SidesAppend(sent, write);
      Record(u.key);
      pumpfun := pumpfun + 1;
      sent := sent + [write];
    }

    /** Record the event of a swap, count it and send its row. */
    method EmitSwap(key: EventKey, write: PendingWrite)
      requires Booked() && write.event.key == key && (write.trade.Some? ==> SideOk(write.trade.value))
      modifies this`decoded, this`eventLog, this`swaps, this`sent, this`tradesWritten, this`unoriented
      ensures Booked() && sent == old(sent) + [write] && swaps == old(swaps) + 1 && decoded == old(decoded) + 1
      ensures tradesWritten == old(tradesWritten) + (if write.trade.Some? then 1 else 0)
      ensures unoriented == old(unoriented) + (if write.trade.None? then 1 else 0)
    {
      SidesAppend(sent, write);
      Record(key);
      swaps := swaps + 1;
      sent := sent + [write];
      match write.trade {
        case Some(_) => tradesWritten := tradesWritten + 1;
        case None => unoriented := unoriented + 1;
      }
    }

    method ProcessSwap(u: Update, e: Decoded, waited: nat)
      requires Valid() && !e.PumpfunTrade? && u.slot <= watermark.headSlot
      modifies this`decoded, this`eventLog, this`swaps, this`sent, this`tradesWritten, this`unoriented
      modifies this`requested, this`clock, this`hits, this`misses, this`log, resolver`queue
      ensures Valid() && View() == Pools.Next(old(View()), Pools.Resolve(e.pool, waited))
      ensures sent == old(sent) + [PendingWrite(EventOf(u.key, u.slot, u.blockTime, e), LiveTrade(e, resolver.cache))]
      ensures swaps == old(swaps) + 1 && decoded == old(decoded) + 1
      ensures tradesWritten == old(tradesWritten) + (if LiveTrade(e, resolver.cache).Some? then 1 else 0)
      ensures unoriented == old(unoriented) + (if LiveTrade(e, resolver.cache).None? then 1 else 0)
    {
      hide Pools.Throttled, Orient, OrientEvent, SidesOk, SideOk, Pools.ResolveStep, Pools.Next, LiveTrade, EventOf,
           Booked;
      SwapStep(View(), e.pool, waited);
      var info := Resolve(e.pool, waited);
      var row := OrientedRow(e, info);
      LiveSidesOk(e, resolver.cache);
      EventKeyOf(u, e);
      EmitSwap(u.key, PendingWrite(EventOf(u.key, u.slot, u.blockTime, e), row));
    }

    /** The trade row of a swap whose pool resolved, if it has a SOL side. */
    method OrientedRow(e: Decoded, info: Option<PoolInfo>) returns (row: Option<TradeRow>)
      requires !e.PumpfunTrade? && info == Lookup(resolver.cache, e.pool)
      ensures row == LiveTrade(e, resolver.cache)
    {
      var oriented := if info.None? then None else OrientEvent(e, info.value);
      match oriented {
        case None => row := None;
        case Some(t) =>
          row := Some(TradeRow(Some(Base58(e.pool)), Base58(t.tokenMint), if t.isBuy then "buy" else "sell",
                               t.solAmount, t.tokenAmount, Base58(e.user), Some(e.protocolFee)));
      }
    }
  }

  lemma SwapStep(s: Pools.State, pool: Pubkey, waited: nat)
    requires Pools.Throttled(s) && s.creating.None?
    ensures var s' := Pools.Next(s, Pools.Resolve(pool, waited));
            Pools.Throttled(s') && s'.creating.None? && s'.cache == s.cache
            && s'.hits + s'.misses == s.hits + s.misses + 1
  {
    Pools.ThrottledStep(s, Pools.Resolve(pool, waited));
  }

  lemma EventKeyOf(u: Update, e: Decoded)
    ensures EventOf(u.key, u.slot, u.blockTime, e).key == u.key
    ensures EventOf(u.key, u.slot, u.blockTime, e).slot == u.slot
  {}

  lemma SidesAppend(rows: seq<PendingWrite>, row: PendingWrite)
    requires SidesOk(rows) && (row.trade.Some? ==> SideOk(row.trade.value))
    ensures SidesOk(rows + [row])
  {}

  lemma CreateRun(s: Pools.State, pool: Pubkey, info: PoolInfo, ok: bool)
    requires s.creating.None?
    ensures Pools.Exec(s, [Pools.Create(pool, info), Pools.SaveCreated(ok)])
            == Some(s.(cache := s.cache[pool := info],
                       table := if ok then UpsertPool(s.table, Base58(pool), Pools.RowOf(info)) else s.table))
    ensures Pools.Throttled(s) ==>
              Pools.Throttled(Pools.Exec(s, [Pools.Create(pool, info), Pools.SaveCreated(ok)]).value)
  {
    var run := [Pools.Create(pool, info), Pools.SaveCreated(ok)];
    assert run[1..] == [Pools.SaveCreated(ok)];
    var s1 := Pools.Next(s, run[0]);
    assert Pools.Exec(s1, run[1..]) == Some(Pools.Next(s1, run[1]));
  }
}
