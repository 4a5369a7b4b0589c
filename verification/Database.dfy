/** The Postgres connection of `db.rs`: each method is one statement, or one transaction. */
module Database {
  import opened Rows
  import opened Store

  class Database {
    var events: Events
    var trades: Trades
    var checkpoint: Option<Checkpoint>
    var pools: Pools
    var gaps: seq<GapRow>
    var deadLetters: seq<DeadLetter>
    var nextGapId: nat

    function State(): Tables
      reads this
    {
      Tables(events, trades, checkpoint, pools, gaps, deadLetters)
    }

    /** The foreign key of `trades`, and the serial `gap_id`. */
    predicate Valid()
      reads this
    {
      StoreInv(State()) && forall i :: 0 <= i < |gaps| ==> gaps[i].id < nextGapId
    }

    constructor ()
      ensures Valid() && State() == Tables(map[], map[], None, map[], [], [])
    {
      events, trades, checkpoint := map[], map[], None;
      pools, gaps, deadLetters, nextGapId := map[], [], [], 0;
    }

    method WriteDeadLetters(rows: seq<PendingWrite>, error: string)
      modifies this`deadLetters
      ensures deadLetters == old(deadLetters) + Letters(rows, error)
    {
      if rows == [] {
        return;
      }
      for i := 0 to |rows|
        invariant deadLetters == old(deadLetters) + Letters(rows, error)[..i]
      {
        var e := rows[i].event;
        deadLetters := deadLetters + [DeadLetter(e.key, e.slot, e.payload, error)];
      }
    }

    /** ON CONFLICT (pool) DO UPDATE with COALESCE on the decimals. */
    method WritePool(pool: Text, row: PoolRow)
      modifies this`pools
      ensures pools == UpsertPool(old(pools), pool, row)
      ensures pool in pools && forall p :: p != pool ==> Lookup(pools, p) == Lookup(old(pools), p)
      ensures pool !in old(pools) ==> pools[pool] == row
      ensures pool in old(pools) ==>
                var was := old(pools)[pool];
                && pools[pool].baseMint == was.baseMint && pools[pool].quoteMint == was.quoteMint
                && (was.baseDecimals.Some? ==> pools[pool].baseDecimals == was.baseDecimals)
                && (was.baseDecimals.None? ==> pools[pool].baseDecimals == row.baseDecimals)
                && (was.quoteDecimals.Some? ==> pools[pool].quoteDecimals == was.quoteDecimals)
                && (was.quoteDecimals.None? ==> pools[pool].quoteDecimals == row.quoteDecimals)
      ensures old(Valid()) ==> Valid()
    {
      if pool !in pools {
        pools := pools[pool := row];
      } else {
        var kept := pools[pool];
        var base := if kept.baseDecimals == None then row.baseDecimals else kept.baseDecimals;
        var quote := if kept.quoteDecimals == None then row.quoteDecimals else kept.quoteDecimals;
        pools := pools[pool := PoolRow(kept.baseMint, kept.quoteMint, base, quote)];
      }
    }

    /** ON CONFLICT (start_slot, end_slot) DO NOTHING; true if a row was written. */
    method WriteGap(start: nat, end: nat) returns (written: bool)
      requires Valid()
      modifies this`gaps, this`nextGapId
      ensures Valid()
      ensures written <==> !HasRange(old(gaps), start, end)
      ensures written ==> exists id :: gaps == old(gaps) + [GapRow(id, start, end, Open, None, None)]
      ensures !written ==> gaps == old(gaps)
    {
      var id := nextGapId;
      nextGapId := nextGapId + 1;
      written := !HasRange(gaps, start, end);
      if written {
        gaps := gaps + [GapRow(id, start, end, Open, None, None)];
      }
    }

    method MarkGap(id: nat, status: GapStatus, now: nat)
      requires Valid()
      modifies this`gaps
      ensures Valid()
      ensures gaps == Store.MarkGap(old(gaps), id, status, now)
      ensures forall i :: 0 <= i < |gaps| ==>
                var was, now' := old(gaps)[i], gaps[i];
                && now'.id == was.id && now'.start == was.start && now'.end == was.end
                && now'.status == (if was.id == id then status else was.status)
                && (was.id == id && status == Closed ==>
                      now'.recoveredAt == Some(now) && now'.recoveryMethod == Some("rpc-block-fetch"))
                && (was.id != id || status != Closed ==>
                      now'.recoveredAt == was.recoveredAt && now'.recoveryMethod == was.recoveryMethod)
    {
      var before := gaps;
      var i := 0;
      while i < |gaps|
        invariant |gaps| == |before| && 0 <= i <= |gaps|
        invariant gaps[..i] == Store.MarkGap(before, id, status, now)[..i]
        invariant gaps[i..] == before[i..]
      {
        assert gaps[i] == before[i];
        if gaps[i].id == id {
          gaps := gaps[i := Mark(gaps[i], status, now)];
        }
        i := i + 1;
      }
      assert gaps == Store.MarkGap(before, id, status, now);
    }

    /** Open gaps in gap_id order. */
    method OpenGaps() returns (open: seq<GapRow>)
      ensures open == OpenOf(gaps)
    {
      open := [];
      for i := 0 to |gaps|
        invariant open == OpenOf(gaps[..i])
      {
        assert gaps[..i + 1][..i] == gaps[..i];
        if gaps[i].status == Open {
          open := open + [gaps[i]];
        }
      }
      assert gaps[..|gaps|] == gaps;
    }
  }

  function OpenOf(gaps: seq<GapRow>): seq<GapRow> {
    if gaps == [] then []
    else
      var n := |gaps| - 1;
      OpenOf(gaps[..n]) + if gaps[n].status == Open then [gaps[n]] else []
  }

  lemma {:induction false} OpenOfMeaning(gaps: seq<GapRow>)
    requires IdsIncrease(gaps)
    ensures forall g :: g in OpenOf(gaps) <==> g in gaps && g.status == Open
    ensures IdsIncrease(OpenOf(gaps))
  {
    if gaps != [] {
      var n := |gaps| - 1;
      OpenOfMeaning(gaps[..n]);
      assert gaps == gaps[..n] + [gaps[n]];
      forall i | 0 <= i < |OpenOf(gaps[..n])| ensures OpenOf(gaps[..n])[i].id < gaps[n].id {
        assert OpenOf(gaps[..n])[i] in gaps[..n];
      }
    }
  }

  lemma NoTrades(trades: Trades, rows: seq<PendingWrite>)
    ensures Insert(trades, TradePairs(rows[..0])) == trades
  {}

  /** The next row of a batch adds its trade, if it has one and its key is free. */
  lemma NextTrade(trades: Trades, rows: seq<PendingWrite>, i: nat)
    requires i < |rows|
    ensures Insert(trades, TradePairs(rows[..i + 1]))
            == match rows[i].trade
               case None => Insert(trades, TradePairs(rows[..i]))
               case Some(t) =>
                 PutNew(Insert(trades, TradePairs(rows[..i])), rows[i].event.key, Stored(rows[i].event, t))
  {
    assert rows[..i + 1] == rows[..i] + [rows[i]];
    TradePairsConcat(rows[..i], [rows[i]]);
    assert TradePairs([rows[i]]) == TradePair(rows[i]);
    match rows[i].trade
    case None => assert TradePairs(rows[..i]) + [] == TradePairs(rows[..i]);
    case Some(t) => InsertSnoc(trades, TradePairs(rows[..i]), (rows[i].event.key, Stored(rows[i].event, t)));
  }

  /** The foreign key, for the rows that carry a trade. */
  predicate KeysStored(rows: seq<PendingWrite>, events: Events) {
    forall i :: 0 <= i < |rows| && rows[i].trade.Some? ==> rows[i].event.key in events
  }

  /** The CHECK on `side` and the foreign key, for the rows that carry a trade. */
  lemma ChecksMean(rows: seq<PendingWrite>, events: Events)
    ensures SidesOk(rows) && KeysStored(rows, events) <==>
              forall i :: 0 <= i < |rows| && rows[i].trade.Some? ==>
                && (rows[i].trade.value.side == "buy" || rows[i].trade.value.side == "sell")
                && rows[i].event.key in events
  {}

  /** One transaction: a shadow of the three tables it writes, published by `Commit`. */
  class Transaction {
    const db: Database
    var events: Events
    var trades: Trades
    var checkpoint: Option<Checkpoint>

    constructor Begin(db: Database)
      ensures this.db == db && fresh(this)
      ensures events == db.events && trades == db.trades && checkpoint == db.checkpoint
    {
      this.db := db;
      events, trades, checkpoint := db.events, db.trades, db.checkpoint;
    }

    method WriteEvents(rows: seq<PendingWrite>)
      modifies this`events
      ensures events == Insert(old(events), EventPairs(rows))
    {
      if rows == [] {
        return;
      }
      for i := 0 to |rows|
        invariant events == Insert(old(events), EventPairs(rows)[..i])
      {
        InsertSnoc(old(events), EventPairs(rows)[..i], EventPairs(rows)[i]);
        assert EventPairs(rows)[..i + 1] == EventPairs(rows)[..i] + [EventPairs(rows)[i]];
        if rows[i].event.key !in events {
          events := events[rows[i].event.key := rows[i].event];
        }
      }
      assert EventPairs(rows)[..|rows|] == EventPairs(rows);
    }

    /** False when the CHECK on `side` or the foreign key refuses a row; the transaction is
        then aborted and never committed. */
    method WriteTrades(rows: seq<PendingWrite>) returns (ok: bool)
      modifies this`trades
      ensures ok <==> SidesOk(rows) && KeysStored(rows, events)
      ensures ok <==> forall i :: 0 <= i < |rows| && rows[i].trade.Some? ==>
                        && (rows[i].trade.value.side == "buy" || rows[i].trade.value.side == "sell")
                        && rows[i].event.key in events
      ensures ok ==> trades == Insert(old(trades), TradePairs(rows))
    {
      ChecksMean(rows, events);
      hide Insert, SideOk;
      NoTrades(trades, rows);
      for i := 0 to |rows|
        invariant trades == Insert(old(trades), TradePairs(rows[..i]))
        invariant SidesOk(rows[..i]) && KeysStored(rows[..i], events)
      {
        NextTrade(old(trades), rows, i);
        assert rows[..i + 1] == rows[..i] + [rows[i]];
        match rows[i].trade
        case None =>
        case Some(t) =>
          if !SideOk(t) || rows[i].event.key !in events {
            return false;
          }
          if rows[i].event.key !in trades {
            trades := trades[rows[i].event.key := Stored(rows[i].event, t)];
          }
      }
      assert rows[..|rows|] == rows;
      ok := true;
    }

    /** The single row is overwritten whatever it held. */
    method WriteCheckpoint(slot: nat, signature: string)
      modifies this`checkpoint
      ensures checkpoint == Some(Checkpoint(slot, signature))
    {
      checkpoint := Some(Checkpoint(slot, signature));
    }

    method Commit()
      modifies db
      ensures db.State() == old(db.State()).(events := events, trades := trades, checkpoint := checkpoint)
      ensures db.nextGapId == old(db.nextGapId)
    {
      db.events, db.trades, db.checkpoint := events, trades, checkpoint;
    }
  }
}
