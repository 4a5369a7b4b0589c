/** Late interpretation over process lives: crashes, refused and hung batches, and a different
    pool cache in every life, against one run that knew every pool from the start. */
module ColdLives {
  import opened Rows
  import opened Store
  import opened Protocol
  import opened Interpret
  import opened Repair
  import opened Convergence
  import opened ColdWarm

  /** The cache has the chain's mints for every pool it knows. */
  predicate Consistent(cache: Cache, chain: Cache) {
    forall p :: p in cache ==>
      p in chain && cache[p].baseMint == chain[p].baseMint && cache[p].quoteMint == chain[p].quoteMint
  }

  /** The row a processor sends for an event of the stream, with some cache. */
  ghost predicate Seen(row: PendingWrite, stream: seq<Sighting>, chain: Cache) {
    exists i, cache: Cache :: 0 <= i < |stream| && Consistent(cache, chain)
      && row == PendingWrite(Event(stream[i]), LiveTrade(stream[i].event, cache))
  }

  /** The rows that pass `check_slot` in a run, and in all lives. */
  function Checked(run: seq<Action>): seq<PendingWrite> {
    if run == [] then []
    else (if run[0].Check? then [run[0].row] else []) + Checked(run[1..])
  }

  function CheckedInLives(lives: seq<seq<Action>>): seq<PendingWrite> {
    if lives == [] then [] else Checked(lives[0]) + CheckedInLives(lives[1..])
  }

  /** Every life reads the stream, each event with whatever its cache knew then. */
  ghost predicate ReadsStream(lives: seq<seq<Action>>, stream: seq<Sighting>, chain: Cache) {
    forall row :: row in CheckedInLives(lives) ==> Seen(row, stream, chain)
  }

  lemma {:induction false} CheckedReads(run: seq<Action>)
    ensures Reads(run, Checked(run))
  {
    if run != [] {
      CheckedReads(run[1..]);
      forall i | 0 <= i < |run| && run[i].Check? ensures run[i].row in Checked(run) {
        if i > 0 { assert run[1..][i - 1] == run[i]; }
      }
    }
  }

  lemma {:induction false} LivesRead(lives: seq<seq<Action>>)
    ensures forall run :: run in lives ==> Reads(run, CheckedInLives(lives))
  {
    hide Checked;
    if lives != [] {
      LivesRead(lives[1..]);
      CheckedReads(lives[0]);
      forall run | run in lives ensures Reads(run, CheckedInLives(lives)) {
        if run != lives[0] { assert run in lives[1..]; }
      }
    }
  }

  /** The last life read the whole stream in order, committed every batch and stopped. */
  predicate CleanStream(s: State, stream: seq<Sighting>) {
    && CleanPass(s, s.accepted) && |s.accepted| == |stream|
    && forall i :: 0 <= i < |stream| ==> s.accepted[i].event == Event(stream[i])
  }

  /** Rows seen on the stream are the live rows of some stream over the same sightings. */
  lemma {:induction false} Traced(rows: seq<PendingWrite>, stream: seq<Sighting>, chain: Cache)
    returns (xs: seq<Sighting>, caches: seq<Cache>)
    requires forall row :: row in rows ==> Seen(row, stream, chain)
    ensures |xs| == |caches| == |rows| && rows == LiveRows(xs, caches)
    ensures Discovered(caches, chain) && forall x :: x in xs ==> x in stream
  {
    hide LiveTrade, EventOf, Consistent;
    if rows == [] {
      return [], [];
    }
    hide LiveRows, Discovered;
    var rest, others := Traced(rows[1..], stream, chain);
    assert Seen(rows[0], stream, chain);
    var i, cache: Cache :| 0 <= i < |stream| && Consistent(cache, chain)
                           && rows[0] == PendingWrite(Event(stream[i]), LiveTrade(stream[i].event, cache));
    xs, caches := [stream[i]] + rest, [cache] + others;
    OneMore(stream[i], cache, rest, others, chain);
    assert rows == [rows[0]] + rows[1..];
  }

  lemma OneMore(x: Sighting, cache: Cache, xs: seq<Sighting>, caches: seq<Cache>, chain: Cache)
    requires |xs| == |caches| && Consistent(cache, chain) && Discovered(caches, chain)
    ensures LiveRows([x] + xs, [cache] + caches) ==
              [PendingWrite(Event(x), LiveTrade(x.event, cache))] + LiveRows(xs, caches)
    ensures Discovered([cache] + caches, chain)
  {
    hide LiveTrade, EventOf;
  }

  predicate SameSightings(a: seq<Sighting>, b: seq<Sighting>) {
    (forall x :: x in a ==> x in b) && (forall x :: x in b ==> x in a)
  }

  lemma PartOfStream(xs: seq<Sighting>, stream: seq<Sighting>, events: Events, table: Pools, chain: Cache)
    requires (forall x :: x in xs ==> x in stream) && OneEventPerKey(events, stream) && TableKnows(table, stream, chain)
    ensures OneEventPerKey(events, xs) && TableKnows(table, xs, chain) && OneProgram(xs)
  {
    hide KnownPools, EventOf, SameMints;
    forall i | 0 <= i < |xs| ensures exists n :: 0 <= n < |stream| && stream[n] == xs[i] {
      assert xs[i] in stream;
    }
  }

  /** The first warm trade of a key is that of any of its sightings. */
  lemma WarmFirst(xs: seq<Sighting>, chain: Cache, events: Events, i: nat)
    requires i < |xs| && OneEventPerKey(events, xs)
    ensures First(TradePairs(LiveRows(xs, Warm(xs, chain))), xs[i].key) == WarmTrade(xs[i], chain)
  {
    var rows, k := LiveRows(xs, Warm(xs, chain)), xs[i].key;
    hide LiveTrade, EventOf, First, TradePairs;
    RowKeys(xs, Warm(xs, chain));
    if First(TradePairs(rows), k).Some? {
      var n := FirstTradeRow(rows, k);
      assert xs[n] == xs[i];
    } else {
      NoTradeRow(rows, k, i);
    }
  }

  lemma NoFirst(xs: seq<Sighting>, chain: Cache, k: EventKey)
    requires forall i :: 0 <= i < |xs| ==> xs[i].key != k
    ensures First(TradePairs(LiveRows(xs, Warm(xs, chain))), k) == None
  {
    RowKeys(xs, Warm(xs, chain));
    FirstTrade(LiveRows(xs, Warm(xs, chain)), k);
  }

  /** The warm trades depend only on which events the stream has. */
  lemma SameSightingsSameTrades(trades: Trades, a: seq<Sighting>, b: seq<Sighting>, chain: Cache, events: Events)
    requires SameSightings(a, b) && OneEventPerKey(events, a) && OneEventPerKey(events, b)
    ensures Insert(trades, TradePairs(LiveRows(a, Warm(a, chain)))) ==
              Insert(trades, TradePairs(LiveRows(b, Warm(b, chain))))
  {
    var p, q := TradePairs(LiveRows(a, Warm(a, chain))), TradePairs(LiveRows(b, Warm(b, chain)));
    hide LiveRows, TradePairs, First, Insert, WarmTrade, OneEventPerKey;
    forall k ensures Lookup(Insert(trades, p), k) == Lookup(Insert(trades, q), k) {
      InsertLookup(trades, p, k);
      InsertLookup(trades, q, k);
      if i :| 0 <= i < |a| && a[i].key == k {
        assert a[i] in b;
        var j :| 0 <= j < |b| && b[j] == a[i];
        WarmFirst(a, chain, events, i);
        WarmFirst(b, chain, events, j);
      } else {
        forall j | 0 <= j < |b| ensures b[j].key != k { assert b[j] in a; }
        NoFirst(a, chain, k);
        NoFirst(b, chain, k);
      }
    }
    MapsEqual(Insert(trades, p), Insert(trades, q));
  }

  /** Lives that end in a clean pass landed every event of the stream. */
  lemma LandedStream(s: State, stream: seq<Sighting>, xs: seq<Sighting>, caches: seq<Cache>, events: Events)
    requires LifeInv(s) && CleanStream(s, stream) && |xs| == |caches| && Flatten(s.landed) == LiveRows(xs, caches)
    requires (forall x :: x in xs ==> x in stream) && OneEventPerKey(events, stream)
    ensures SameSightings(xs, stream)
  {
    CleanPassLandsAll(s, s.accepted);
    RowKeys(xs, caches);
    hide LifeInv, EventOf, LiveTrade, Flatten;
    forall x | x in stream ensures x in xs {
      var i :| 0 <= i < |stream| && stream[i] == x;
      assert s.accepted[i] in s.accepted;
      var n :| 0 <= n < |xs| && LiveRows(xs, caches)[n] == s.accepted[i];
      assert xs[n].key == Event(x).key == x.key by { EventKeys(x); }
      assert xs[n] in stream;
      var j :| 0 <= j < |stream| && stream[j] == xs[n];
      assert stream[j] == stream[i];
    }
  }

  lemma EventKeys(x: Sighting)
    ensures Event(x).key == x.key
  {}

  /** The trades a full repair leaves after the lives are the warm trades. */
  lemma LivesRepairedIsWarm(capacity: nat, start: Tables, stream: seq<Sighting>, chain: Cache, table: Pools,
                            lives: seq<seq<Action>>)
    requires KeysMatch(start.events) && Repairable(start.(pools := table)) == {}
    requires OneEventPerKey(start.events, stream) && TableKnows(table, stream, chain)
    requires Lives(Init(capacity, start, 0, 0), lives).Some? && ReadsStream(lives, stream, chain)
    requires CleanStream(Lives(Init(capacity, start, 0, 0), lives).value, stream)
    ensures var e := Lives(Init(capacity, start, 0, 0), lives).value;
            && KeysMatch(e.store.events)
            && RepairedTrades(e.store.(pools := table)) ==
                 Insert(start.trades, TradePairs(LiveRows(stream, Warm(stream, chain))))
  {
    var s, e := Init(capacity, start, 0, 0), Lives(Init(capacity, start, 0, 0), lives).value;
    var input := CheckedInLives(lives);
    InitFromInput(capacity, start, input);
    LivesRead(lives);
    hide RepairedTrades, Ingested, Insert, TradePairs, LiveRows, CheckedInLives, Lives, OneEventPerKey, TableKnows;
    hide Reads, CleanStream, LifeInv, KeysMatch, Flatten;
    FromInputLives(s, start, input, lives);
    LifeInvLives(s, lives);
    var xs, caches := Traced(Flatten(e.landed), stream, chain);
    PartOfStream(xs, stream, start.events, table, chain);
    LandedStream(e, stream, xs, caches, start.events);
    OneEventPerKeyIsAlike(start, xs, chain, table);
    ColdEqualsWarm(start, xs, caches, chain, table);
    WarmNeedsNoRepair(start, xs, chain, table);
    SameSightingsSameTrades(start.trades, xs, stream, chain, start.events);
    InsertedKeysMatch(start.events, Flatten(e.landed));
    SameRepaired(e.store.(pools := table), Ingested(start, LiveRows(xs, caches), table)) by {
      IngestedIs(start, LiveRows(xs, caches), table);
    }
  }

  lemma IngestedIs(start: Tables, rows: seq<PendingWrite>, table: Pools)
    ensures var t := Ingested(start, rows, table);
            && t.events == Insert(start.events, EventPairs(rows)) && t.trades == Insert(start.trades, TradePairs(rows))
            && t.pools == table
  {}

  /** Crash-restart and late interpretation together: after any lives with refused, hung and
      late-landing batches and kills, each life with its own pattern of pool discoveries, a clean
      pass and an untruncated repair over a pools table that knows every pool of the stream leave
      exactly the trades of one undisturbed ingestion that knew every pool from the start. */
  lemma CrashedColdPlusRepairIsWarm(capacity: nat, start: Tables, stream: seq<Sighting>, chain: Cache, table: Pools,
                                    lives: seq<seq<Action>>, warm: seq<seq<PendingWrite>>, limit: nat,
                                    es: seq<EventRow>)
    requires KeysMatch(start.events) && Repairable(start.(pools := table)) == {}
    requires OneEventPerKey(start.events, stream) && TableKnows(table, stream, chain)
    requires Lives(Init(capacity, start, 0, 0), lives).Some? && ReadsStream(lives, stream, chain)
    requires CleanStream(Lives(Init(capacity, start, 0, 0), lives).value, stream)
    requires Flatten(warm) == LiveRows(stream, Warm(stream, chain))
    requires var t := Lives(Init(capacity, start, 0, 0), lives).value.store.(pools := table);
             IsLoad(t, limit, es) && |Unrepaired(t)| <= limit
    ensures var t := Lives(Init(capacity, start, 0, 0), lives).value.store.(pools := table);
            Insert(t.trades, RepairPairs(es, KnownPools(table))) == AttemptAll(start, warm).trades
  {
    var t := Lives(Init(capacity, start, 0, 0), lives).value.store.(pools := table);
    hide RepairedTrades, KnownPools, Insert, TradePairs, LiveRows, RepairPairs, IsLoad, TableKnows, AttemptAll, Lives,
         ReadsStream, CleanStream, OneEventPerKey;
    LivesRepairedIsWarm(capacity, start, stream, chain, table, lives);
    UntruncatedRepair(t, limit, es);
    LiveRowsSides(stream, Warm(stream, chain));
    AttemptAllInserts(start, warm);
  }
}
