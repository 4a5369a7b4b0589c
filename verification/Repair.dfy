/** `run_repair`: load events without a trade, rebuild what can be rebuilt, write it in chunks. */
module Repair {
  import opened Rows
  import opened Store
  import opened Interpret
  import opened Database

  /** The pools whose mints parse. */
  function KnownPools(table: Pools): map<Text, PoolInfo> {
    map p | p in table && table[p].baseMint.Base58? && table[p].quoteMint.Base58? ::
      PoolInfo(table[p].baseMint.key, table[p].quoteMint.key,
               SmallDecimals(table[p].baseDecimals), SmallDecimals(table[p].quoteDecimals))
  }

  /** The loaded pools are the table's rows, each mint on its side. */
  lemma KnownPoolsAre(table: Pools, p: Text)
    ensures p in KnownPools(table) <==> p in table && table[p].baseMint.Base58? && table[p].quoteMint.Base58?
    ensures p in KnownPools(table) ==>
              var info := KnownPools(table)[p];
              && table[p].baseMint == Base58(info.baseMint) && table[p].quoteMint == Base58(info.quoteMint)
              && info.baseDecimals == SmallDecimals(table[p].baseDecimals)
              && info.quoteDecimals == SmallDecimals(table[p].quoteDecimals)
  {}

  function Unrepaired(t: Tables): set<EventKey> {
    set k | k in t.events && k !in t.trades
  }

  function Repairable(t: Tables): set<EventKey> {
    set k | k in t.events && k !in t.trades && Build(t.events[k], KnownPools(t.pools)).Ok?
  }

  /** What `load_unrepaired` may return: lowest slots first, ties in any order. */
  predicate IsLoad(t: Tables, limit: nat, es: seq<EventRow>) {
    && |es| <= limit
    && (forall i :: 0 <= i < |es| ==> es[i].key in Unrepaired(t) && t.events[es[i].key] == es[i])
    && (forall i, j :: 0 <= i < j < |es| ==> es[i].key != es[j].key && es[i].slot <= es[j].slot)
    && (|es| < limit ==> forall k :: k in Unrepaired(t) ==> t.events[k] in es)
    && (forall k, i :: k in Unrepaired(t) && t.events[k] !in es && 0 <= i < |es| ==> es[i].slot <= t.events[k].slot)
  }

  /** What a load is, over the two tables: stored events without a trade, none twice, slots
      ascending; one left out finds the limit reached and no loaded slot above its own. */
  lemma LoadMeaning(t: Tables, limit: nat, es: seq<EventRow>)
    requires IsLoad(t, limit, es)
    ensures |es| <= limit && forall i, j :: 0 <= i < j < |es| ==> es[i] != es[j] && es[i].slot <= es[j].slot
    ensures forall e :: e in es ==> e.key in t.events && e.key !in t.trades && t.events[e.key] == e
    ensures forall k :: k in t.events && k !in t.trades && t.events[k] !in es ==>
              |es| == limit && forall e :: e in es ==> e.slot <= t.events[k].slot
  {}

  lemma LowestSlot(events: Events, keys: set<EventKey>) returns (k: EventKey)
    requires keys != {} && forall j :: j in keys ==> j in events
    ensures k in keys && forall j :: j in keys ==> events[k].slot <= events[j].slot
  {
    var first :| first in keys;
    k := first;
    var rest := keys - {first};
    if rest != {} {
      var r := LowestSlot(events, rest);
      if events[r].slot < events[first].slot { k := r; }
      forall j | j in keys ensures events[k].slot <= events[j].slot {
        assert j in rest || j == first;
      }
    } else {
      assert keys == {first};
    }
  }

  /** A load in progress: `pending` are the unrepaired keys not taken yet. */
  predicate Loading(t: Tables, pending: set<EventKey>, es: seq<EventRow>) {
    && pending <= Unrepaired(t)
    && (forall k :: k in Unrepaired(t) ==> k in pending || t.events[k] in es)
    && (forall i :: 0 <= i < |es| ==>
          es[i].key in Unrepaired(t) && es[i].key !in pending && t.events[es[i].key] == es[i])
    && (forall i, j :: 0 <= i < j < |es| ==> es[i].key != es[j].key && es[i].slot <= es[j].slot)
    && (forall k, i :: k in pending && 0 <= i < |es| ==> es[i].slot <= t.events[k].slot)
  }

  lemma LoadNext(t: Tables, pending: set<EventKey>, es: seq<EventRow>, k: EventKey)
    requires Loading(t, pending, es) && KeysMatch(t.events)
    requires k in pending && forall j :: j in pending ==> t.events[k].slot <= t.events[j].slot
    ensures Loading(t, pending - {k}, es + [t.events[k]])
  {
    var e, es' := t.events[k], es + [t.events[k]];
    assert e.key == k;
    forall j | j in Unrepaired(t) ensures j in pending - {k} || t.events[j] in es' {
      if t.events[j] in es { assert t.events[j] in es'; } else if j == k { assert es'[|es|] == e; }
    }
  }

  lemma LoadDone(t: Tables, limit: nat, pending: set<EventKey>, es: seq<EventRow>)
    requires Loading(t, pending, es) && |es| <= limit && (|es| < limit ==> pending == {})
    ensures IsLoad(t, limit, es)
  {}

  /** LIMIT refuses a negative number. */
  method LoadUnrepaired(db: Database, limit: int) returns (r: Option<seq<EventRow>>)
    requires db.Valid()
    ensures r.None? <==> limit < 0
    ensures r.Some? ==> IsLoad(db.State(), limit, r.value)
  {
    if limit < 0 {
      return None;
    }
    var es: seq<EventRow> := [];
    var pending := set k | k in db.events && k !in db.trades;
    ghost var t := db.State();
    while |es| < limit && pending != {}
      invariant |es| <= limit && Loading(t, pending, es)
      decreases |pending|
    {
      ghost var low := LowestSlot(db.events, pending);
      var k :| k in pending && forall j :: j in pending ==> db.events[k].slot <= db.events[j].slot;
      LoadNext(t, pending, es, k);
      es := es + [db.events[k]];
      pending := pending - {k};
    }
    LoadDone(t, limit, pending, es);
    r := Some(es);
  }

  // ----- What one run writes -----

  /** The trades rebuilt from loaded events, keyed. */
  function RepairPairs(es: seq<EventRow>, pools: map<Text, PoolInfo>): seq<(EventKey, StoredTrade)> {
    if es == [] then []
    else
      var n := |es| - 1;
      RepairPairs(es[..n], pools) + RepairPair(es[n], pools)
  }

  function RepairPair(e: EventRow, pools: map<Text, PoolInfo>): seq<(EventKey, StoredTrade)> {
    match Build(e, pools)
    case Ok(row) => [(e.key, Stored(e, row))]
    case Err(_) => []
  }

  function CountSkipped(es: seq<EventRow>, pools: map<Text, PoolInfo>, why: Skipped): nat {
    if es == [] then 0
    else
      var n := |es| - 1;
      CountSkipped(es[..n], pools, why) + if Build(es[n], pools) == Err(why) then 1 else 0
  }

  function SkippedAt(es: seq<EventRow>, pools: map<Text, PoolInfo>, why: Skipped): set<int> {
    set i | 0 <= i < |es| && Build(es[i], pools) == Err(why)
  }

  lemma SkippedLast(es: seq<EventRow>, pools: map<Text, PoolInfo>, why: Skipped)
    requires es != []
    ensures var n := |es| - 1;
            && n !in SkippedAt(es[..n], pools, why)
            && SkippedAt(es, pools, why)
               == SkippedAt(es[..n], pools, why) + if Build(es[n], pools) == Err(why) then {n} else {}
  {
    hide Build;
    assert forall i :: 0 <= i < |es| - 1 ==> es[..|es| - 1][i] == es[i];
  }

  /** Each count is the number of loaded events skipped for that reason. */
  lemma {:induction false} CountIs(es: seq<EventRow>, pools: map<Text, PoolInfo>, why: Skipped)
    ensures CountSkipped(es, pools, why) == |SkippedAt(es, pools, why)|
  {
    hide Build;
    if es == [] {
      assert SkippedAt(es, pools, why) == {};
    } else {
      hide SkippedAt;
      CountIs(es[..|es| - 1], pools, why);
      SkippedLast(es, pools, why);
    }
  }

  lemma {:induction false} PairsAndSkips(es: seq<EventRow>, pools: map<Text, PoolInfo>)
    ensures |RepairPairs(es, pools)| + CountSkipped(es, pools, PoolUnknown) + CountSkipped(es, pools, NoSolSide)
            + CountSkipped(es, pools, BadPayload) == |es|
  {
    if es != [] {
      PairsAndSkips(es[..|es| - 1], pools);
      match Build(es[|es| - 1], pools)
      case Ok(_) =>
      case Err(why) => assert why == PoolUnknown || why == NoSolSide || why == BadPayload;
    }
  }

  lemma {:induction false} RepairPairsSource(es: seq<EventRow>, pools: map<Text, PoolInfo>, p: (EventKey, StoredTrade))
    ensures p in RepairPairs(es, pools) <==> exists i :: 0 <= i < |es| && p in RepairPair(es[i], pools)
  {
    hide RepairPair;
    if es != [] {
      var n := |es| - 1;
      RepairPairsSource(es[..n], pools, p);
      if p in RepairPairs(es[..n], pools) {
        var i :| 0 <= i < |es[..n]| && p in RepairPair(es[..n][i], pools);
        assert es[..n][i] == es[i];
      }
      if i :| 0 <= i < |es| && p in RepairPair(es[i], pools) {
        assert i < n ==> es[..n][i] == es[i];
      }
    }
  }

  /** Per key: an old trade stays, a loaded event whose pool is known gets its trade, and
      nothing else is written. */
  lemma RepairLookup(t: Tables, limit: nat, es: seq<EventRow>, k: EventKey)
    requires IsLoad(t, limit, es) && KeysMatch(t.events)
    ensures var pools, after := KnownPools(t.pools), Insert(t.trades, RepairPairs(es, KnownPools(t.pools)));
            Lookup(after, k) ==
              if k in t.trades then Some(t.trades[k])
              else if k in t.events && t.events[k] in es && Build(t.events[k], pools).Ok? then
                var e := t.events[k];
                Some(StoredTrade(e.slot, e.blockTime, e.program, Build(e, pools).row))
              else None
  {
    var pools := KnownPools(t.pools);
    var ps := RepairPairs(es, pools);
    hide KnownPools, Build;
    if k in t.events && t.events[k] in es && Build(t.events[k], pools).Ok? {
      var i :| 0 <= i < |es| && es[i] == t.events[k];
      var p := (k, Stored(es[i], Build(es[i], pools).row));
      assert p in RepairPair(es[i], pools);
      RepairPairsSource(es, pools, p);
      var n :| 0 <= n < |ps| && ps[n] == p;
    }
    InsertLookup(t.trades, ps, k);
    FirstMeaning(ps, k);
    if First(ps, k).Some? {
      var p := (k, First(ps, k).value);
      RepairPairsSource(es, pools, p);
      var i :| 0 <= i < |es| && p in RepairPair(es[i], pools);
      assert es[i].key == k && t.events[k] == es[i];
    }
  }

  /** The trades table of an untruncated run: every event that can be interpreted has its trade. */
  function RepairedTrades(t: Tables): Trades {
    map k | k in t.events.Keys + t.trades.Keys && (k in t.trades || Build(t.events[k], KnownPools(t.pools)).Ok?) ::
      if k in t.trades then t.trades[k] else Stored(t.events[k], Build(t.events[k], KnownPools(t.pools)).row)
  }

  lemma {:induction false} DistinctKeys(es: seq<EventRow>, keys: set<EventKey>)
    requires forall i :: 0 <= i < |es| ==> es[i].key in keys
    requires forall i, j :: 0 <= i < j < |es| ==> es[i].key != es[j].key
    ensures |es| <= |keys|
    ensures |es| == |keys| ==> forall k :: k in keys ==> exists i :: 0 <= i < |es| && es[i].key == k
  {
    if es != [] {
      var n := |es| - 1;
      DistinctKeys(es[..n], keys - {es[n].key});
      if |es| == |keys| {
        forall k | k in keys ensures exists i :: 0 <= i < |es| && es[i].key == k {
          if k != es[n].key {
            assert k in keys - {es[n].key};
            var i :| 0 <= i < n && es[..n][i].key == k;
            assert es[i].key == k;
          }
        }
      }
    }
  }

  lemma AllLoaded(t: Tables, limit: nat, es: seq<EventRow>)
    requires IsLoad(t, limit, es) && |Unrepaired(t)| <= limit
    ensures forall k :: k in Unrepaired(t) ==> t.events[k] in es
  {
    DistinctKeys(es, Unrepaired(t));
    if |es| == limit {
      forall k | k in Unrepaired(t) ensures t.events[k] in es {
        var i :| 0 <= i < |es| && es[i].key == k;
        assert t.events[es[i].key] == es[i];
      }
    }
  }

  /** With room for every unrepaired event, one run repairs all it can. */
  lemma UntruncatedRepair(t: Tables, limit: nat, es: seq<EventRow>)
    requires IsLoad(t, limit, es) && KeysMatch(t.events) && |Unrepaired(t)| <= limit
    ensures Insert(t.trades, RepairPairs(es, KnownPools(t.pools))) == RepairedTrades(t)
  {
    var after := Insert(t.trades, RepairPairs(es, KnownPools(t.pools)));
    hide KnownPools, Build, Insert;
    AllLoaded(t, limit, es);
    forall k ensures Lookup(after, k) == Lookup(RepairedTrades(t), k) {
      RepairLookup(t, limit, es, k);
    }
    MapsEqual(after, RepairedTrades(t));
  }

  // ----- The run -----

  predicate FreshKeys<V>(m: map<EventKey, StoredTrade>, ps: seq<(EventKey, V)>) {
    && (forall i :: 0 <= i < |ps| ==> ps[i].0 !in m)
    && (forall i, j :: 0 <= i < j < |ps| ==> ps[i].0 != ps[j].0)
  }

  lemma {:induction false} InsertFresh(m: Trades, ps: seq<(EventKey, StoredTrade)>)
    requires FreshKeys(m, ps)
    ensures |Insert(m, ps)| == |m| + |ps|
  {
    if ps != [] {
      var n := |ps| - 1;
      InsertFresh(m, ps[..n]);
      assert ps == ps[..n] + [ps[n]];
      InsertSnoc(m, ps[..n], ps[n]);
      if ps[n].0 in Insert(m, ps[..n]) {
        InsertSource(m, ps[..n], ps[n].0);
      }
    }
  }

  lemma {:induction false} RepairPairsFresh(m: Trades, es: seq<EventRow>, pools: map<Text, PoolInfo>)
    requires forall i :: 0 <= i < |es| ==> es[i].key !in m
    requires forall i, j :: 0 <= i < j < |es| ==> es[i].key != es[j].key
    ensures FreshKeys(m, RepairPairs(es, pools))
  {
    if es != [] {
      var n := |es| - 1;
      RepairPairsFresh(m, es[..n], pools);
      var ps := RepairPairs(es[..n], pools);
      forall i | 0 <= i < |ps| ensures ps[i].0 != es[n].key {
        RepairPairsSource(es[..n], pools, ps[i]);
        var j :| 0 <= j < |es[..n]| && ps[i] in RepairPair(es[..n][j], pools);
        assert es[j] == es[..n][j];
      }
    }
  }

  predicate Insertable(t: Tables, rows: seq<(EventKey, StoredTrade)>) {
    forall i :: 0 <= i < |rows| ==> SideOk(rows[i].1.trade) && rows[i].0 in t.events
  }

  /** The rows of one statement, checked and inserted one by one. */
  method InsertRows(before: Trades, events: Events, rows: seq<(EventKey, StoredTrade)>)
    returns (ok: bool, trades: Trades, n: nat)
    ensures ok <==> forall i :: 0 <= i < |rows| ==> SideOk(rows[i].1.trade) && rows[i].0 in events
    ensures ok ==> trades == Insert(before, rows) && |before| + n == |trades|
  {
    hide Insert, SideOk;
    ok, trades, n := true, before, 0;
    NoRows(before, rows);
    for i := 0 to |rows|
      invariant trades == Insert(before, rows[..i]) && |before| + n == |trades|
      invariant forall j :: 0 <= j < i ==> SideOk(rows[j].1.trade) && rows[j].0 in events
    {
      InsertNext(before, rows, i);
      if !SideOk(rows[i].1.trade) || rows[i].0 !in events {
        return false, trades, n;
      }
      if rows[i].0 !in trades {
        trades := trades[rows[i].0 := rows[i].1];
        n := n + 1;
      }
    }
    assert rows[..|rows|] == rows;
  }

  /** `write_repaired`: one statement, atomic; the number of rows it really inserted, or None
      when the database refuses it, be it for the CHECK on `side` or the foreign key. */
  method WriteRepaired(db: Database, rows: seq<(EventKey, StoredTrade)>, refused: bool) returns (affected: Option<nat>)
    requires db.Valid()
    modifies db`trades
    ensures db.Valid()
    ensures affected.None? <==>
              rows != [] && (refused || !(forall i :: 0 <= i < |rows| ==>
                && (rows[i].1.trade.side == "buy" || rows[i].1.trade.side == "sell")
                && rows[i].0 in db.events))
    ensures affected.None? <==> rows != [] && (refused || !Insertable(db.State(), rows))
    ensures affected.None? ==> db.trades == old(db.trades)
    ensures affected.Some? ==>
              db.trades == Insert(old(db.trades), rows) && |old(db.trades)| + affected.value == |db.trades|
  {
    if rows == [] {
      return Some(0);
    }
    hide Insert, StoreInv, SideOk;
    var ok, trades, n := InsertRows(db.trades, db.events, rows);
    if refused || !ok {
      return None;
    }
    InsertedKeepsInv(db.State(), rows);
    db.trades := trades;
    affected := Some(n);
  }

  lemma InsertNext(m: Trades, rows: seq<(EventKey, StoredTrade)>, i: nat)
    requires i < |rows|
    ensures Insert(m, rows[..i + 1]) == PutNew(Insert(m, rows[..i]), rows[i].0, rows[i].1)
  {
    assert rows[..i + 1] == rows[..i] + [rows[i]];
    InsertSnoc(m, rows[..i], rows[i]);
  }

  lemma NoRows(m: Trades, rows: seq<(EventKey, StoredTrade)>)
    ensures Insert(m, rows[..0]) == m
  {}

  lemma InsertedKeepsInv(t: Tables, rows: seq<(EventKey, StoredTrade)>)
    requires StoreInv(t) && Insertable(t, rows)
    ensures StoreInv(t.(trades := Insert(t.trades, rows))) && Extends(t.trades, Insert(t.trades, rows))
  {
    InsertKeeps(t.trades, rows);
    hide Insert;
    forall k | k in Insert(t.trades, rows) ensures k in t.events && SideOk(Insert(t.trades, rows)[k].trade) {
      InsertSource(t.trades, rows, k);
    }
  }

  const CHUNK := 100

  datatype Report = Report(loaded: seq<EventRow>, written: nat, unknown: nat, noSol: nat, bad: nat)

  /** The pools table, keyed for lookup; a row whose mints do not parse is left out. */
  method LoadPools(db: Database) returns (pools: map<Text, PoolInfo>)
    ensures pools == KnownPools(db.pools)
    ensures forall p :: p in pools <==> p in db.pools && db.pools[p].baseMint.Base58? && db.pools[p].quoteMint.Base58?
    ensures forall p :: p in pools ==>
              db.pools[p].baseMint == Base58(pools[p].baseMint) && db.pools[p].quoteMint == Base58(pools[p].quoteMint)
  {
    pools := map[];
    var todo := db.pools.Keys;
    while todo != {}
      invariant todo <= db.pools.Keys
      invariant pools == map p | p in KnownPools(db.pools) && p !in todo :: KnownPools(db.pools)[p]
      decreases |todo|
    {
      var p :| p in todo;
      todo := todo - {p};
      var row := db.pools[p];
      match (FromStr(row.baseMint), FromStr(row.quoteMint)) {
        case (Some(base), Some(quote)) =>
          pools := pools[p := PoolInfo(base, quote, SmallDecimals(row.baseDecimals), SmallDecimals(row.quoteDecimals))];
        case _ =>
      }
    }
  }

  /** How far a run got: `done` is written, `ready` is built and waiting, together they are the
      trades of the events seen so far. */
  predicate RunState(t: Tables, trades: Trades, limit: nat, es: seq<EventRow>, i: nat,
                     done: seq<(EventKey, StoredTrade)>, ready: seq<(EventKey, StoredTrade)>)
  {
    && IsLoad(t, limit, es) && KeysMatch(t.events) && i <= |es|
    && done + ready == RepairPairs(es[..i], KnownPools(t.pools))
    && trades == Insert(t.trades, done)
  }

  /** Where a rebuilt trade comes from. */
  lemma PairSource(t: Tables, limit: nat, es: seq<EventRow>, i: nat, p: (EventKey, StoredTrade))
    requires IsLoad(t, limit, es) && i <= |es| && p in RepairPairs(es[..i], KnownPools(t.pools))
    ensures p.0 in t.events && p.0 !in t.trades && SideOk(p.1.trade)
    ensures p.0 in RepairedTrades(t) && p.1 == RepairedTrades(t)[p.0]
  {
    var pools := KnownPools(t.pools);
    hide KnownPools, Build;
    RepairPairsSource(es[..i], pools, p);
    var j :| 0 <= j < |es[..i]| && p in RepairPair(es[..i][j], pools);
    BuildSidesOk(es[..i][j], pools);
    assert es[..i][j] == es[j] && es[j].key in Unrepaired(t) && t.events[es[j].key] == es[j];
  }

  lemma ChunkInsertable(t: Tables, trades: Trades, limit: nat, es: seq<EventRow>, i: nat,
                        done: seq<(EventKey, StoredTrade)>, ready: seq<(EventKey, StoredTrade)>)
    requires RunState(t, trades, limit, es, i, done, ready)
    ensures Insertable(t, ready)
  {
    var ps := RepairPairs(es[..i], KnownPools(t.pools));
    hide KnownPools, Build, Insert, IsLoad, RepairPairs;
    forall n | 0 <= n < |ready| ensures SideOk(ready[n].1.trade) && ready[n].0 in t.events {
      assert ps[|done| + n] == ready[n];
      PairSource(t, limit, es, i, ready[n]);
    }
  }

  lemma ChunkCounts(t: Tables, trades: Trades, limit: nat, es: seq<EventRow>, i: nat,
                    done: seq<(EventKey, StoredTrade)>, ready: seq<(EventKey, StoredTrade)>)
    requires RunState(t, trades, limit, es, i, done, ready)
    ensures Insert(trades, ready) == Insert(t.trades, done + ready)
    ensures |trades| == |t.trades| + |done|
    ensures |Insert(trades, ready)| == |t.trades| + |done| + |ready|
  {
    var pools := KnownPools(t.pools);
    var ps := RepairPairs(es[..i], pools);
    InsertConcat(t.trades, done, ready);
    hide KnownPools, Build, Insert, RepairPairs;
    assert forall j :: 0 <= j < i ==> es[j].key in Unrepaired(t);
    RepairPairsFresh(t.trades, es[..i], pools);
    assert forall n :: 0 <= n < |done| ==> done[n] == ps[n];
    InsertFresh(t.trades, done);
    InsertFresh(t.trades, ps);
  }

  /** Wherever the run ends, a trade it added is the one a full repair would add. */
  lemma PartialRun(t: Tables, trades: Trades, limit: nat, es: seq<EventRow>, i: nat,
                   done: seq<(EventKey, StoredTrade)>, ready: seq<(EventKey, StoredTrade)>)
    requires RunState(t, trades, limit, es, i, done, ready)
    ensures Extends(t.trades, trades)
    ensures forall k :: k in trades && k !in t.trades ==> k in RepairedTrades(t) && trades[k] == RepairedTrades(t)[k]
  {
    InsertKeeps(t.trades, done);
    hide KnownPools, Build, IsLoad, RepairPairs, RepairedTrades;
    forall k | k in trades && k !in t.trades ensures k in RepairedTrades(t) && trades[k] == RepairedTrades(t)[k] {
      InsertSource(t.trades, done, k);
      assert (k, trades[k]) in done + ready;
      PairSource(t, limit, es, i, (k, trades[k]));
    }
  }

  /** One more event seen: built, or counted under the reason it was skipped for. */
  lemma SeeEvent(t: Tables, trades: Trades, limit: nat, es: seq<EventRow>, i: nat,
                 done: seq<(EventKey, StoredTrade)>, ready: seq<(EventKey, StoredTrade)>)
    requires RunState(t, trades, limit, es, i, done, ready) && i < |es|
    ensures RunState(t, trades, limit, es, i + 1, done, ready + RepairPair(es[i], KnownPools(t.pools)))
    ensures forall why :: CountSkipped(es[..i + 1], KnownPools(t.pools), why)
              == CountSkipped(es[..i], KnownPools(t.pools), why)
                 + if Build(es[i], KnownPools(t.pools)) == Err(why) then 1 else 0
  {
    hide KnownPools, Build, Insert, IsLoad, KeysMatch;
    assert es[..i + 1][..i] == es[..i];
    var more := RepairPair(es[i], KnownPools(t.pools));
    assert done + (ready + more) == (done + ready) + more;
  }

  /** The chunk was written. */
  lemma ChunkWritten(t: Tables, trades: Trades, limit: nat, es: seq<EventRow>, i: nat,
                     done: seq<(EventKey, StoredTrade)>, ready: seq<(EventKey, StoredTrade)>)
    requires RunState(t, trades, limit, es, i, done, ready)
    ensures RunState(t, Insert(trades, ready), limit, es, i, done + ready, [])
  {
    InsertConcat(t.trades, done, ready);
    assert (done + ready) + [] == done + ready;
  }

  /** Write one chunk of built trades. */
  method WriteChunk(db: Database, ready: seq<(EventKey, StoredTrade)>, refused: bool, ghost t: Tables,
                    ghost limit: nat, ghost es: seq<EventRow>, ghost i: nat, ghost done: seq<(EventKey, StoredTrade)>)
    returns (affected: Option<nat>)
    requires db.Valid() && db.State() == t.(trades := db.trades)
    requires RunState(t, db.trades, limit, es, i, done, ready)
    modifies db`trades
    ensures db.Valid() && db.State() == t.(trades := db.trades)
    ensures affected.None? <==> refused && ready != []
    ensures affected.None? ==> db.trades == old(db.trades)
    ensures affected.Some? ==> affected.value == |ready| && RunState(t, db.trades, limit, es, i, done + ready, [])
  {
    hide Insert, RunState, StoreInv;
    ChunkInsertable(t, db.trades, limit, es, i, done, ready);
    ChunkCounts(t, db.trades, limit, es, i, done, ready);
    ChunkWritten(t, db.trades, limit, es, i, done, ready);
    affected := WriteRepaired(db, ready, refused);
  }

  /** `refusedAt` is the write, if any, that the database refuses; the error ends the run and
      keeps the chunks before it. */
  method RunRepair(db: Database, limit: int, refusedAt: Option<nat>) returns (r: Option<Report>)
    requires db.Valid()
    modifies db`trades
    ensures db.Valid() && Extends(old(db.trades), db.trades)
    ensures forall k :: k in db.trades && k !in old(db.trades) ==>
              k in RepairedTrades(old(db.State())) && db.trades[k] == RepairedTrades(old(db.State()))[k]
    ensures limit < 0 ==> r.None?
    ensures limit >= 0 && refusedAt.None? ==> r.Some?
    ensures r.None? && limit >= 0 ==>
              refusedAt.Some? && |db.trades| == |old(db.trades)| + 100 * refusedAt.value
    ensures r.Some? ==>
              && IsLoad(old(db.State()), limit, r.value.loaded)
              && db.trades == Insert(old(db.trades), RepairPairs(r.value.loaded, KnownPools(db.pools)))
              && r.value.written == |RepairPairs(r.value.loaded, KnownPools(db.pools))| ==
                   |db.trades| - |old(db.trades)|
              && r.value.unknown == CountSkipped(r.value.loaded, KnownPools(db.pools), PoolUnknown)
              && r.value.noSol == CountSkipped(r.value.loaded, KnownPools(db.pools), NoSolSide)
              && r.value.bad == CountSkipped(r.value.loaded, KnownPools(db.pools), BadPayload)
              && r.value.written + r.value.unknown + r.value.noSol + r.value.bad == |r.value.loaded|
  {
    hide Insert, KnownPools, Build, IsLoad, RepairPairs, RepairedTrades, StoreInv, CountSkipped;
    ghost var t := db.State();
    StoredKeysMatch(t);
    var pools := LoadPools(db);
    var loaded := LoadUnrepaired(db, limit);
    if loaded.None? {
      return None;
    }
    var es := loaded.value;
    var ready: seq<(EventKey, StoredTrade)> := [];
    ghost var done: seq<(EventKey, StoredTrade)> := [];
    var written, unknown, noSol, bad, writes := 0, 0, 0, 0, 0;
    StartRun(t, limit, es);
    for i := 0 to |es|
      invariant db.Valid() && db.State() == t.(trades := db.trades)
      invariant RunState(t, db.trades, limit, es, i, done, ready) && written == |done| == 100 * writes && |ready| < 100
      invariant unknown == CountSkipped(es[..i], pools, PoolUnknown)
      invariant noSol == CountSkipped(es[..i], pools, NoSolSide)
      invariant bad == CountSkipped(es[..i], pools, BadPayload)
    {
      hide RunState;
      SeeEvent(t, db.trades, limit, es, i, done, ready);
      match Build(es[i], pools) {
        case Ok(row) =>
          ready := ready + [(es[i].key, Stored(es[i], row))];
          if |ready| >= CHUNK {
            PartialRun(t, db.trades, limit, es, i + 1, done, ready);
            ChunkCounts(t, db.trades, limit, es, i + 1, done, ready);
            var affected := WriteChunk(db, ready, refusedAt == Some(writes), t, limit, es, i + 1, done);
            if affected.None? {
              return None;
            }
            written := written + affected.value;
            writes := writes + 1;
            done := done + ready;
            ready := [];
          }
        case Err(PoolUnknown) => assert ready + [] == ready; unknown := unknown + 1;
        case Err(NoSolSide) => assert ready + [] == ready; noSol := noSol + 1;
        case Err(BadPayload) => assert ready + [] == ready; bad := bad + 1;
      }
    }
    assert es[..|es|] == es;
    PartialRun(t, db.trades, limit, es, |es|, done, ready);
    ChunkCounts(t, db.trades, limit, es, |es|, done, ready);
    var affected := WriteChunk(db, ready, refusedAt == Some(writes), t, limit, es, |es|, done);
    if affected.None? {
      return None;
    }
    written := written + affected.value;
    PartialRun(t, db.trades, limit, es, |es|, done + ready, []);
    RunDone(t, db.trades, limit, es, done + ready);
    r := Some(Report(es, written, unknown, noSol, bad));
  }

  lemma RunDone(t: Tables, trades: Trades, limit: nat, es: seq<EventRow>, done: seq<(EventKey, StoredTrade)>)
    requires RunState(t, trades, limit, es, |es|, done, [])
    ensures trades == Insert(t.trades, RepairPairs(es, KnownPools(t.pools)))
    ensures |done| == |RepairPairs(es, KnownPools(t.pools))| == |trades| - |t.trades|
    ensures |done| + CountSkipped(es, KnownPools(t.pools), PoolUnknown) +
              CountSkipped(es, KnownPools(t.pools), NoSolSide)
            + CountSkipped(es, KnownPools(t.pools), BadPayload) == |es|
  {
    hide Insert, KnownPools, Build, IsLoad, CountSkipped;
    assert es[..|es|] == es && done + [] == done;
    PairsAndSkips(es, KnownPools(t.pools));
    ChunkCounts(t, trades, limit, es, |es|, done, []);
  }

  lemma StoredKeysMatch(t: Tables)
    requires StoreInv(t)
    ensures KeysMatch(t.events)
  {}

  lemma StartRun(t: Tables, limit: nat, es: seq<EventRow>)
    requires IsLoad(t, limit, es) && KeysMatch(t.events)
    ensures RunState(t, t.trades, limit, es, 0, [], [])
    ensures forall pools, why :: CountSkipped(es[..0], pools, why) == 0
  {}
}
