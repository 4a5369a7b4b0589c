/** Late interpretation: trading before a pool is known, then repairing, against knowing every
    pool from the start. */
module ColdWarm {
  import opened Rows
  import opened Store
  import opened Interpret
  import opened Repair
  import opened Convergence
  import PoolCache = Pools

  /** One decoded event of the stream. */
  datatype Sighting = Sighting(key: EventKey, slot: nat, blockTime: Option<int>, event: Decoded)

  function Event(x: Sighting): EventRow {
    EventOf(x.key, x.slot, x.blockTime, x.event)
  }

  /** The rows the processors send when `caches[i]` is the cache at event `i`. */
  function LiveRows(stream: seq<Sighting>, caches: seq<Cache>): (rows: seq<PendingWrite>)
    requires |caches| == |stream|
    ensures |rows| == |stream|
    ensures forall i :: 0 <= i < |rows| ==>
              rows[i] == PendingWrite(Event(stream[i]), LiveTrade(stream[i].event, caches[i]))
  {
    seq(|stream|, i requires 0 <= i < |stream| => PendingWrite(Event(stream[i]), LiveTrade(stream[i].event, caches[i])))
  }

  function Warm(stream: seq<Sighting>, chain: Cache): (caches: seq<Cache>)
    ensures |caches| == |stream| && forall i :: 0 <= i < |caches| ==> caches[i] == chain
  {
    seq(|stream|, _ => chain)
  }

  /** Every cached pool has the mints the chain gives it; any pool may be missing anywhere. */
  predicate Discovered(caches: seq<Cache>, chain: Cache) {
    forall i, p :: 0 <= i < |caches| && p in caches[i] ==>
      p in chain && caches[i][p].baseMint == chain[p].baseMint && caches[i][p].quoteMint == chain[p].quoteMint
  }

  /** The pools table holds every pool the stream mentions, with the chain's mints. */
  predicate TableKnows(table: Pools, stream: seq<Sighting>, chain: Cache) {
    forall i :: 0 <= i < |stream| && !stream[i].event.PumpfunTrade? ==>
      RowKnown(table, chain, stream[i].event.pool)
  }

  predicate RowKnown(table: Pools, chain: Cache, pool: Pubkey) {
    pool in chain && Base58(pool) in table && PoolCache.RowMints(table[Base58(pool)], chain[pool])
  }

  /** `repair` loads from such a row what the chain says. */
  lemma LoadedMints(table: Pools, chain: Cache, pool: Pubkey)
    requires RowKnown(table, chain, pool)
    ensures SameMints(KnownPools(table), chain, pool)
  {
    KnownPoolsAre(table, Base58(pool));
  }

  /** One instruction belongs to one program. */
  predicate OneProgram(stream: seq<Sighting>) {
    forall i, j :: 0 <= i < |stream| && 0 <= j < |stream| && stream[i].key == stream[j].key ==>
      (stream[i].event.PumpfunTrade? <==> stream[j].event.PumpfunTrade?)
  }

  // ----- The outcome under one key -----

  /** The event that ends up stored under the key of `stream[i]`. */
  function Keeper(events: Events, stream: seq<Sighting>, i: nat): EventRow
    requires i < |stream|
  {
    if stream[i].key in events then events[stream[i].key]
    else Event(stream[FirstSighting(stream, stream[i].key, i)])
  }

  function FirstSighting(stream: seq<Sighting>, k: EventKey, i: nat): (f: nat)
    requires i < |stream| && stream[i].key == k
    ensures f <= i && stream[f].key == k && forall m :: 0 <= m < f ==> stream[m].key != k
  {
    if stream[0].key == k then 0 else 1 + FirstSighting(stream[1..], k, i - 1)
  }

  function TradeOf(e: EventRow, t: Option<TradeRow>): Option<StoredTrade> {
    if t.Some? then Some(Stored(e, t.value)) else None
  }

  /** The trade live writes for `x` when its pool is known. */
  function WarmTrade(x: Sighting, chain: Cache): Option<StoredTrade> {
    TradeOf(Event(x), LiveTrade(x.event, chain))
  }

  /** The trade repair builds from a stored event. */
  function BuiltTrade(e: EventRow, table: Pools): Option<StoredTrade> {
    match Build(e, KnownPools(table))
    case Ok(row) => Some(Stored(e, row))
    case Err(_) => None
  }

  lemma BuiltIsWarm(x: Sighting, chain: Cache, table: Pools)
    requires !x.event.PumpfunTrade? ==> RowKnown(table, chain, x.event.pool)
    ensures BuiltTrade(Event(x), table) == WarmTrade(x, chain)
  {
    if !x.event.PumpfunTrade? { LoadedMints(table, chain, x.event.pool); }
    hide KnownPools, Build, LiveTrade;
    LiveAndRepairAgree(x.key, x.slot, x.blockTime, x.event, KnownPools(table), chain);
    var live := LiveTrade(x.event, chain);
    if live.Some? {
      assert Build(Event(x), KnownPools(table)) == Ok(live.value);
    }
  }

  /** Before its pool is cached a PumpSwap event has no trade; afterwards it has the warm one. */
  lemma ColdOrWarm(x: Sighting, cache: Cache, chain: Cache)
    requires !x.event.PumpfunTrade? && x.event.pool in cache ==>
               x.event.pool in chain && cache[x.event.pool].baseMint == chain[x.event.pool].baseMint
               && cache[x.event.pool].quoteMint == chain[x.event.pool].quoteMint
    ensures x.event.PumpfunTrade? || x.event.pool in cache ==> LiveTrade(x.event, cache) == LiveTrade(x.event, chain)
    ensures !x.event.PumpfunTrade? && x.event.pool !in cache ==> LiveTrade(x.event, cache) == None
  {
    if !x.event.PumpfunTrade? && x.event.pool in cache {
      OrientReadsMints(cache[x.event.pool], chain[x.event.pool], x.event);
    }
  }

  /** Tables after committing the rows, in any batching, over tables that know the pools. */
  function Ingested(start: Tables, rows: seq<PendingWrite>, table: Pools): Tables {
    start.(events := Insert(start.events, EventPairs(rows)),
           trades := Insert(start.trades, TradePairs(rows)),
           pools := table)
  }

  /** What repair leaves under a key the stream mentions. */
  lemma OutcomeAt(start: Tables, stream: seq<Sighting>, caches: seq<Cache>, table: Pools, i: nat)
    requires |caches| == |stream| && i < |stream| && stream[i].key !in start.trades && KeysMatch(start.events)
    ensures var rows, k := LiveRows(stream, caches), stream[i].key;
            var after := RepairedTrades(Ingested(start, rows, table));
            && (First(TradePairs(rows), k).Some? ==> Lookup(after, k) == First(TradePairs(rows), k))
            && (First(TradePairs(rows), k).None? ==>
                  Lookup(after, k) == BuiltTrade(Keeper(start.events, stream, i), table))
  {
    var rows, k := LiveRows(stream, caches), stream[i].key;
    var t := Ingested(start, rows, table);
    hide KnownPools, Build, LiveTrade, EventOf;
    InsertLookup(start.trades, TradePairs(rows), k);
    assert Lookup(t.trades, k) == First(TradePairs(rows), k);
    InsertLookup(start.events, EventPairs(rows), k);
    assert Lookup(t.events, k) == if k in start.events then Some(start.events[k]) else First(EventPairs(rows), k);
    if k !in start.events {
      var f := FirstSighting(stream, k, i);
      assert forall m :: 0 <= m < f ==> rows[m].event.key == stream[m].key;
      assert rows[f].event == Event(stream[f]);
      RowKeys(stream, caches);
      FirstAt(rows, f);
    }
    assert Lookup(t.events, k) == Some(Keeper(start.events, stream, i));
  }

  lemma RowKeys(stream: seq<Sighting>, caches: seq<Cache>)
    requires |caches| == |stream|
    ensures forall i :: 0 <= i < |stream| ==> LiveRows(stream, caches)[i].event.key == stream[i].key
  {}

  /** The condition: whenever a PumpSwap sighting of a key without a trade can be interpreted,
      it interprets like the event stored under that key. */
  predicate Alike(start: Tables, stream: seq<Sighting>, chain: Cache, table: Pools) {
    forall i :: 0 <= i < |stream| && stream[i].key !in start.trades && !stream[i].event.PumpfunTrade?
                && WarmTrade(stream[i], chain).Some? ==>
      BuiltTrade(Keeper(start.events, stream, i), table) == WarmTrade(stream[i], chain)
  }

  /** Under that condition the outcome of a key does not depend on when pools were found. */
  lemma OutcomeFixed(start: Tables, stream: seq<Sighting>, caches: seq<Cache>, chain: Cache, table: Pools, i: nat)
    requires |caches| == |stream| && i < |stream| && stream[i].key !in start.trades && KeysMatch(start.events)
    requires OneProgram(stream) && Discovered(caches, chain) && Alike(start, stream, chain, table)
    ensures Lookup(RepairedTrades(Ingested(start, LiveRows(stream, caches), table)), stream[i].key)
            == if stream[i].event.PumpfunTrade? then WarmTrade(stream[FirstSighting(stream, stream[i].key, i)], chain)
               else BuiltTrade(Keeper(start.events, stream, i), table)
  {
    hide KnownPools, Build, LiveTrade, EventOf, RepairedTrades, Ingested, TradePairs, First, LiveRows;
    OutcomeAt(start, stream, caches, table, i);
    if stream[i].event.PumpfunTrade? {
      PumpfunFirst(stream, caches, chain, i);
    } else {
      PumpswapFirst(start, stream, caches, chain, table, i);
    }
  }

  /** The row whose trade is the first under a key. */
  lemma FirstTradeRow(rows: seq<PendingWrite>, k: EventKey) returns (n: nat)
    requires First(TradePairs(rows), k).Some?
    ensures n < |rows| && rows[n].event.key == k && rows[n].trade.Some?
    ensures First(TradePairs(rows), k) == Some(Stored(rows[n].event, rows[n].trade.value))
  {
    FirstTrade(rows, k);
    n :| 0 <= n < |rows| && rows[n].event.key == k && rows[n].trade.Some?
         && First(TradePairs(rows), k).value == Stored(rows[n].event, rows[n].trade.value);
  }

  lemma PumpswapFirst(start: Tables, stream: seq<Sighting>, caches: seq<Cache>, chain: Cache, table: Pools, i: nat)
    requires |caches| == |stream| && i < |stream| && stream[i].key !in start.trades && !stream[i].event.PumpfunTrade?
    requires OneProgram(stream) && Discovered(caches, chain) && Alike(start, stream, chain, table)
    ensures var first := First(TradePairs(LiveRows(stream, caches)), stream[i].key);
            first.Some? ==> first == BuiltTrade(Keeper(start.events, stream, i), table)
  {
    var rows, k := LiveRows(stream, caches), stream[i].key;
    hide KnownPools, Build, LiveTrade, EventOf, BuiltTrade, First, TradePairs, Keeper;
    if First(TradePairs(rows), k).Some? {
      var n := FirstTradeRow(rows, k);
      assert rows[n].event == Event(stream[n]) && Event(stream[n]).key == stream[n].key by { RowKeys(stream, caches); }
      ColdOrWarm(stream[n], caches[n], chain);
      assert WarmTrade(stream[n], chain) == First(TradePairs(rows), k);
      SameKeeper(start.events, stream, n, i);
    }
  }

  lemma SameKeeper(events: Events, stream: seq<Sighting>, n: nat, i: nat)
    requires n < |stream| && i < |stream| && stream[n].key == stream[i].key
    ensures Keeper(events, stream, n) == Keeper(events, stream, i)
  {}

  lemma PumpfunFirst(stream: seq<Sighting>, caches: seq<Cache>, chain: Cache, i: nat)
    requires |caches| == |stream| && i < |stream| && OneProgram(stream) && stream[i].event.PumpfunTrade?
    ensures var f := FirstSighting(stream, stream[i].key, i);
            First(TradePairs(LiveRows(stream, caches)), stream[i].key) == WarmTrade(stream[f], chain)
            && WarmTrade(stream[f], chain).Some?
  {
    hide LiveTrade, EventOf, First, TradePairs, FirstSighting, LiveRows;
    var rows, k := LiveRows(stream, caches), stream[i].key;
    var f := FirstSighting(stream, k, i);
    FirstTrade(rows, k);
    RowKeys(stream, caches);
    assert stream[f].event.PumpfunTrade?;
    PumpfunHasTrade(stream[f].event, caches[f], chain);
    assert rows[f].trade.Some? && rows[f].event.key == k;
    var n :| 0 <= n < |rows| && rows[n].event.key == k && rows[n].trade.Some?
             && First(TradePairs(rows), k).value == Stored(rows[n].event, rows[n].trade.value)
             && forall j :: 0 <= j < n && rows[j].event.key == k ==> rows[j].trade == None;
    assert n == f;
  }

  /** The trade of a pump.fun event asks no cache. */
  lemma PumpfunHasTrade(e: Decoded, cache: Cache, chain: Cache)
    requires e.PumpfunTrade?
    ensures LiveTrade(e, cache).Some? && LiveTrade(e, cache) == LiveTrade(e, chain)
  {}

  /** A key the stream does not mention is as if there had been no stream. */
  lemma OutcomeElsewhere(start: Tables, stream: seq<Sighting>, caches: seq<Cache>, table: Pools, k: EventKey)
    requires |caches| == |stream| && forall i :: 0 <= i < |stream| ==> stream[i].key != k
    ensures Lookup(RepairedTrades(Ingested(start, LiveRows(stream, caches), table)), k)
            == Lookup(RepairedTrades(start.(pools := table)), k)
  {
    var rows := LiveRows(stream, caches);
    hide KnownPools, Build, LiveTrade, EventOf;
    RowKeys(stream, caches);
    FirstTrade(rows, k);
    FirstMeaning(EventPairs(rows), k);
    InsertLookup(start.trades, TradePairs(rows), k);
    InsertLookup(start.events, EventPairs(rows), k);
    var t, t0 := Ingested(start, rows, table), start.(pools := table);
    assert Lookup(t.trades, k) == Lookup(t0.trades, k);
    assert Lookup(t.events, k) == Lookup(t0.events, k);
  }

  lemma OutcomeKept(start: Tables, rows: seq<PendingWrite>, table: Pools, k: EventKey)
    requires k in start.trades
    ensures Lookup(RepairedTrades(Ingested(start, rows, table)), k) == Some(start.trades[k])
  {
    hide KnownPools, Build;
    InsertLookup(start.trades, TradePairs(rows), k);
    var t := Ingested(start, rows, table);
    assert Lookup(t.trades, k) == Some(start.trades[k]);
  }

  /** Cold and repaired equals warm and repaired. */
  lemma ColdEqualsWarm(start: Tables, stream: seq<Sighting>, caches: seq<Cache>, chain: Cache, table: Pools)
    requires |caches| == |stream| && KeysMatch(start.events)
    requires OneProgram(stream) && Discovered(caches, chain) && Alike(start, stream, chain, table)
    ensures RepairedTrades(Ingested(start, LiveRows(stream, caches), table))
            == RepairedTrades(Ingested(start, LiveRows(stream, Warm(stream, chain)), table))
  {
    var cold := RepairedTrades(Ingested(start, LiveRows(stream, caches), table));
    var warm := RepairedTrades(Ingested(start, LiveRows(stream, Warm(stream, chain)), table));
    hide RepairedTrades, Ingested, Alike, OneProgram;
    forall k ensures Lookup(cold, k) == Lookup(warm, k) {
      ColdEqualsWarmAt(start, stream, caches, chain, table, k);
    }
    MapsEqual(cold, warm);
  }

  lemma ColdEqualsWarmAt(start: Tables, stream: seq<Sighting>, caches: seq<Cache>, chain: Cache, table: Pools,
                         k: EventKey)
    requires |caches| == |stream| && KeysMatch(start.events)
    requires OneProgram(stream) && Discovered(caches, chain) && Alike(start, stream, chain, table)
    ensures Lookup(RepairedTrades(Ingested(start, LiveRows(stream, caches), table)), k)
            == Lookup(RepairedTrades(Ingested(start, LiveRows(stream, Warm(stream, chain)), table)), k)
  {
    hide RepairedTrades, Ingested, Alike, OneProgram, LiveRows, KeysMatch, Keeper, BuiltTrade, WarmTrade;
    if k in start.trades {
      OutcomeKept(start, LiveRows(stream, caches), table, k);
      OutcomeKept(start, LiveRows(stream, Warm(stream, chain)), table, k);
    } else if i :| 0 <= i < |stream| && stream[i].key == k {
      OutcomeFixed(start, stream, caches, chain, table, i);
      OutcomeFixed(start, stream, Warm(stream, chain), chain, table, i);
    } else {
      OutcomeElsewhere(start, stream, caches, table, k);
      OutcomeElsewhere(start, stream, Warm(stream, chain), table, k);
    }
  }

  // ----- The condition is exact -----

  ghost predicate Agrees(start: Tables, stream: seq<Sighting>, chain: Cache, table: Pools) {
    forall caches: seq<Cache> :: |caches| == |stream| && Discovered(caches, chain) ==>
      RepairedTrades(Ingested(start, LiveRows(stream, caches), table))
      == RepairedTrades(Ingested(start, LiveRows(stream, Warm(stream, chain)), table))
  }

  /** Only event `i` finds its pool cached. */
  function Only(stream: seq<Sighting>, chain: Cache, i: int): (caches: seq<Cache>)
    ensures |caches| == |stream|
    ensures forall j :: 0 <= j < |caches| ==> caches[j] == if j == i then chain else map[]
  {
    seq(|stream|, j => if j == i then chain else map[])
  }

  lemma OnlyOutcome(start: Tables, stream: seq<Sighting>, chain: Cache, table: Pools, i: nat, only: int)
    requires i < |stream| && stream[i].key !in start.trades && !stream[i].event.PumpfunTrade?
    requires OneProgram(stream) && KeysMatch(start.events)
    requires only == -1 || (only == i && WarmTrade(stream[i], chain).Some?)
    ensures Lookup(RepairedTrades(Ingested(start, LiveRows(stream, Only(stream, chain, only)), table)), stream[i].key)
            == if only == i then WarmTrade(stream[i], chain) else BuiltTrade(Keeper(start.events, stream, i), table)
  {
    var caches, k := Only(stream, chain, only), stream[i].key;
    var rows := LiveRows(stream, caches);
    hide KnownPools, Build, EventOf, RepairedTrades, Ingested, Keeper, TradePairs, First;
    OutcomeAt(start, stream, caches, table, i);
    assert rows[i].event == Event(stream[i]);
    RowKeys(stream, caches);
    if First(TradePairs(rows), k).Some? {
      var n := FirstTradeRow(rows, k);
      assert stream[n].key == k;
      assert n == only;
    } else {
      NoTradeRow(rows, k, i);
    }
  }

  lemma NoTradeRow(rows: seq<PendingWrite>, k: EventKey, i: nat)
    requires First(TradePairs(rows), k) == None && i < |rows| && rows[i].event.key == k
    ensures rows[i].trade == None
  {
    FirstTrade(rows, k);
  }

  /** Cold-and-repaired equals warm-and-repaired for every pattern of discoveries exactly when
      sightings of one key interpret alike. */
  lemma ColdWarmExactly(start: Tables, stream: seq<Sighting>, chain: Cache, table: Pools)
    requires KeysMatch(start.events) && OneProgram(stream)
    ensures Agrees(start, stream, chain, table) <==> Alike(start, stream, chain, table)
  {
    hide RepairedTrades, Ingested, LiveRows, KnownPools, Keeper, WarmTrade, BuiltTrade;
    if Alike(start, stream, chain, table) {
      forall caches: seq<Cache> | |caches| == |stream| && Discovered(caches, chain)
        ensures RepairedTrades(Ingested(start, LiveRows(stream, caches), table))
                == RepairedTrades(Ingested(start, LiveRows(stream, Warm(stream, chain)), table))
      {
        ColdEqualsWarm(start, stream, caches, chain, table);
      }
    } else {
      var i :| 0 <= i < |stream| && stream[i].key !in start.trades && !stream[i].event.PumpfunTrade?
               && WarmTrade(stream[i], chain).Some?
               && BuiltTrade(Keeper(start.events, stream, i), table) != WarmTrade(stream[i], chain);
      Disagrees(start, stream, chain, table, i);
    }
  }

  /** Finding the pool just for one sighting, or for none, gives two different outcomes. */
  lemma Disagrees(start: Tables, stream: seq<Sighting>, chain: Cache, table: Pools, i: nat)
    requires KeysMatch(start.events) && OneProgram(stream)
    requires i < |stream| && stream[i].key !in start.trades && !stream[i].event.PumpfunTrade?
    requires WarmTrade(stream[i], chain).Some? &&
               BuiltTrade(Keeper(start.events, stream, i), table) != WarmTrade(stream[i], chain)
    ensures !Agrees(start, stream, chain, table)
  {
    hide RepairedTrades, Ingested, LiveRows, KnownPools, Keeper, WarmTrade, BuiltTrade, OneProgram, KeysMatch;
    OnlyOutcome(start, stream, chain, table, i, i);
    OnlyOutcome(start, stream, chain, table, i, -1);
    assert Discovered(Only(stream, chain, i), chain) && Discovered(Only(stream, chain, -1), chain);
  }

  /** Sightings of one key, and the event already stored under it, are the same chain event. */
  predicate OneEventPerKey(events: Events, stream: seq<Sighting>) {
    && (forall i, j :: 0 <= i < |stream| && 0 <= j < |stream| && stream[i].key == stream[j].key ==>
          stream[i] == stream[j])
    && (forall i :: 0 <= i < |stream| && stream[i].key in events ==> events[stream[i].key] == Event(stream[i]))
  }

  /** One event per key is enough: every sighting of a key, and the event already stored under
      it, are the same chain event. */
  lemma OneEventPerKeyIsAlike(start: Tables, stream: seq<Sighting>, chain: Cache, table: Pools)
    requires TableKnows(table, stream, chain) && OneEventPerKey(start.events, stream)
    ensures Alike(start, stream, chain, table)
  {
    hide KnownPools, BuiltTrade, WarmTrade, EventOf;
    forall i | 0 <= i < |stream|
      ensures BuiltTrade(Keeper(start.events, stream, i), table) == WarmTrade(stream[i], chain)
    {
      assert Keeper(start.events, stream, i) == Event(stream[i]);
      BuiltIsWarm(stream[i], chain, table);
    }
  }

  // ----- The theorem -----

  lemma LiveRowsSides(stream: seq<Sighting>, caches: seq<Cache>)
    requires |caches| == |stream|
    ensures SidesOk(LiveRows(stream, caches))
  {
    forall i | 0 <= i < |stream| && LiveRows(stream, caches)[i].trade.Some?
      ensures SideOk(LiveRows(stream, caches)[i].trade.value)
    {
      LiveSidesOk(stream[i].event, caches[i]);
    }
  }

  /** Warm ingestion over tables with nothing left to repair leaves nothing to repair. */
  lemma WarmNeedsNoRepair(start: Tables, stream: seq<Sighting>, chain: Cache, table: Pools)
    requires KeysMatch(start.events) && TableKnows(table, stream, chain)
    requires Repairable(start.(pools := table)) == {}
    ensures RepairedTrades(Ingested(start, LiveRows(stream, Warm(stream, chain)), table))
            == Insert(start.trades, TradePairs(LiveRows(stream, Warm(stream, chain))))
  {
    var rows := LiveRows(stream, Warm(stream, chain));
    var trades := Insert(start.trades, TradePairs(rows));
    var after := RepairedTrades(Ingested(start, rows, table));
    hide RepairedTrades, Ingested, KnownPools, Insert, TradePairs, First, LiveRows, EventOf, LiveTrade;
    forall k ensures Lookup(after, k) == Lookup(trades, k) {
      InsertLookup(start.trades, TradePairs(rows), k);
      if k in start.trades {
        OutcomeKept(start, rows, table, k);
      } else if i :| 0 <= i < |stream| && stream[i].key == k {
        OutcomeAt(start, stream, Warm(stream, chain), table, i);
        if First(TradePairs(rows), k) == None {
          NothingToBuild(start, stream, chain, table, i);
        }
      } else {
        OutcomeElsewhere(start, stream, Warm(stream, chain), table, k);
        NothingElsewhere(start, stream, chain, table, k);
      }
    }
    MapsEqual(after, trades);
  }

  lemma NothingToBuild(start: Tables, stream: seq<Sighting>, chain: Cache, table: Pools, i: nat)
    requires i < |stream| && stream[i].key !in start.trades && TableKnows(table, stream, chain)
    requires Repairable(start.(pools := table)) == {}
    requires First(TradePairs(LiveRows(stream, Warm(stream, chain))), stream[i].key) == None
    ensures BuiltTrade(Keeper(start.events, stream, i), table) == None
  {
    var k := stream[i].key;
    var rows := LiveRows(stream, Warm(stream, chain));
    hide KnownPools, Build, LiveTrade, TradePairs, First;
    if k in start.events {
      assert k !in Repairable(start.(pools := table));
    } else {
      var f := FirstSighting(stream, k, i);
      RowKeys(stream, Warm(stream, chain));
      NoTradeRow(rows, k, f);
      BuiltIsWarm(stream[f], chain, table);
    }
  }

  lemma NothingElsewhere(start: Tables, stream: seq<Sighting>, chain: Cache, table: Pools, k: EventKey)
    requires k !in start.trades && Repairable(start.(pools := table)) == {}
    requires forall i :: 0 <= i < |stream| ==> stream[i].key != k
    ensures Lookup(RepairedTrades(start.(pools := table)), k) == None
    ensures First(TradePairs(LiveRows(stream, Warm(stream, chain))), k) == None
  {
    hide KnownPools, Build, LiveTrade;
    assert k !in Repairable(start.(pools := table));
    RowKeys(stream, Warm(stream, chain));
    FirstTrade(LiveRows(stream, Warm(stream, chain)), k);
  }

  /** Cold cache plus repair equals warm cache: whatever pools were known when, and however
      both ingestions were batched, an untruncated repair over a pools table that knows every
      pool of the stream leaves exactly the trades of the ingestion that knew them from the
      start. */
  lemma ColdPlusRepairIsWarm(start: Tables, stream: seq<Sighting>, caches: seq<Cache>, chain: Cache, table: Pools,
                             cold: seq<seq<PendingWrite>>, warm: seq<seq<PendingWrite>>, limit: nat, es: seq<EventRow>)
    requires KeysMatch(start.events) && Repairable(start.(pools := table)) == {}
    requires |caches| == |stream| && OneProgram(stream) && Discovered(caches, chain)
    requires TableKnows(table, stream, chain) && Alike(start, stream, chain, table)
    requires Flatten(cold) == LiveRows(stream, caches) && Flatten(warm) == LiveRows(stream, Warm(stream, chain))
    requires var t := AttemptAll(start, cold).(pools := table); IsLoad(t, limit, es) && |Unrepaired(t)| <= limit
    ensures var t := AttemptAll(start, cold).(pools := table);
            Insert(t.trades, RepairPairs(es, KnownPools(table))) == AttemptAll(start, warm).trades
  {
    var t := AttemptAll(start, cold).(pools := table);
    hide RepairedTrades, KnownPools, Insert, TradePairs, LiveRows, RepairPairs, IsLoad, Alike, TableKnows,
         OneProgram, AttemptAll;
    LiveRowsSides(stream, caches);
    LiveRowsSides(stream, Warm(stream, chain));
    AttemptAllInserts(start, cold);
    AttemptAllInserts(start, warm);
    InsertedKeysMatch(start.events, LiveRows(stream, caches));
    UntruncatedRepair(t, limit, es);
    SameRepaired(t, Ingested(start, LiveRows(stream, caches), table));
    ColdEqualsWarm(start, stream, caches, chain, table);
    WarmNeedsNoRepair(start, stream, chain, table);
  }

  lemma InsertedKeysMatch(events: Events, rows: seq<PendingWrite>)
    requires KeysMatch(events)
    ensures KeysMatch(Insert(events, EventPairs(rows)))
  {
    forall k | k in Insert(events, EventPairs(rows)) ensures Insert(events, EventPairs(rows))[k].key == k {
      InsertSource(events, EventPairs(rows), k);
      if k in events { InsertKeeps(events, EventPairs(rows)); }
    }
  }

  lemma SameRepaired(a: Tables, b: Tables)
    requires a.events == b.events && a.trades == b.trades && a.pools == b.pools
    ensures RepairedTrades(a) == RepairedTrades(b)
  {}
}
