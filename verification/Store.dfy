/** The Postgres tables and the statements of `db.rs` that change them. */
module Store {
  import opened Rows

  // ----- INSERT ... ON CONFLICT DO NOTHING -----

  function Lookup<K, V>(m: map<K, V>, k: K): Option<V> {
    if k in m then Some(m[k]) else None
  }

  function PutNew<K, V>(m: map<K, V>, k: K, v: V): map<K, V> {
    if k in m then m else m[k := v]
  }

  /** A multi-row insert that skips every row whose key is already taken. */
  function Insert<K, V>(m: map<K, V>, pairs: seq<(K, V)>): map<K, V>
    decreases |pairs|
  {
    if pairs == [] then m else Insert(PutNew(m, pairs[0].0, pairs[0].1), pairs[1..])
  }

  /** The value of the first pair with key `k`. */
  function First<K(==), V>(pairs: seq<(K, V)>, k: K): Option<V> {
    if pairs == [] then None
    else if pairs[0].0 == k then Some(pairs[0].1)
    else First(pairs[1..], k)
  }

  lemma {:induction false} FirstMeaning<K, V>(pairs: seq<(K, V)>, k: K)
    ensures First(pairs, k) == None <==> forall i :: 0 <= i < |pairs| ==> pairs[i].0 != k
    ensures First(pairs, k).Some? ==>
              exists i :: 0 <= i < |pairs| && pairs[i] == (k, First(pairs, k).value)
                          && forall j :: 0 <= j < i ==> pairs[j].0 != k
  {
    if pairs != [] {
      var rest := pairs[1..];
      FirstMeaning(rest, k);
      if pairs[0].0 == k {
        assert pairs[0] == (k, First(pairs, k).value);
      } else if First(rest, k).Some? {
        var i :| 0 <= i < |rest| && rest[i] == (k, First(rest, k).value)
                 && forall j :: 0 <= j < i ==> rest[j].0 != k;
        assert forall j :: 0 < j < i + 1 ==> pairs[j] == rest[j - 1];
        assert pairs[i + 1] == (k, First(pairs, k).value);
      } else {
        assert forall j :: 0 < j < |pairs| ==> pairs[j] == rest[j - 1];
      }
    }
  }

  lemma {:induction false} FirstConcat<K, V>(a: seq<(K, V)>, b: seq<(K, V)>, k: K)
    ensures First(a + b, k) == if First(a, k).Some? then First(a, k) else First(b, k)
  {
    if a == [] {
      assert a + b == b;
    } else {
      assert (a + b)[1..] == a[1..] + b;
      FirstConcat(a[1..], b, k);
    }
  }

  /** What the insert leaves under each key: the old row, or else the first new one. */
  lemma {:induction false} InsertLookup<K, V>(m: map<K, V>, pairs: seq<(K, V)>, k: K)
    ensures Lookup(Insert(m, pairs), k) == if k in m then Some(m[k]) else First(pairs, k)
    decreases |pairs|
  {
    if pairs != [] {
      InsertLookup(PutNew(m, pairs[0].0, pairs[0].1), pairs[1..], k);
    }
  }

  lemma MapsEqual<K, V>(a: map<K, V>, b: map<K, V>)
    requires forall k :: Lookup(a, k) == Lookup(b, k)
    ensures a == b
  {
    forall k
      ensures k in a <==> k in b
      ensures k in a ==> a[k] == b[k]
    {
      assert Lookup(a, k) == Lookup(b, k);
    }
  }

  lemma InsertConcat<K, V>(m: map<K, V>, a: seq<(K, V)>, b: seq<(K, V)>)
    ensures Insert(m, a + b) == Insert(Insert(m, a), b)
  {
    forall k ensures Lookup(Insert(m, a + b), k) == Lookup(Insert(Insert(m, a), b), k) {
      InsertLookup(m, a + b, k);
      InsertLookup(m, a, k);
      InsertLookup(Insert(m, a), b, k);
      FirstConcat(a, b, k);
    }
    MapsEqual(Insert(m, a + b), Insert(Insert(m, a), b));
  }

  lemma InsertSnoc<K, V>(m: map<K, V>, a: seq<(K, V)>, p: (K, V))
    ensures Insert(m, a + [p]) == PutNew(Insert(m, a), p.0, p.1)
  {
    InsertConcat(m, a, [p]);
    assert Insert(Insert(m, a), [p]) == Insert(PutNew(Insert(m, a), p.0, p.1), []);
  }

  /** Rows already stored stay, with their values; every row offered has its key stored. */
  lemma InsertKeeps<K, V>(m: map<K, V>, pairs: seq<(K, V)>)
    ensures Extends(m, Insert(m, pairs))
    ensures forall i :: 0 <= i < |pairs| ==> pairs[i].0 in Insert(m, pairs)
  {
    forall k
      ensures k in m ==> k in Insert(m, pairs) && Insert(m, pairs)[k] == m[k]
      ensures k !in Insert(m, pairs) ==> forall i :: 0 <= i < |pairs| ==> pairs[i].0 != k
    {
      InsertLookup(m, pairs, k);
      FirstMeaning(pairs, k);
    }
  }

  /** A row that is new after the insert was offered by it. */
  lemma InsertSource<K, V>(m: map<K, V>, pairs: seq<(K, V)>, k: K)
    requires k in Insert(m, pairs)
    ensures k in m || (k, Insert(m, pairs)[k]) in pairs
  {
    InsertLookup(m, pairs, k);
    FirstMeaning(pairs, k);
  }

  /** Inserting only keys that are already there changes nothing. */
  lemma InsertAbsorbed<K, V>(m: map<K, V>, pairs: seq<(K, V)>)
    requires forall i :: 0 <= i < |pairs| ==> pairs[i].0 in m
    ensures Insert(m, pairs) == m
  {
    forall k ensures Lookup(Insert(m, pairs), k) == Lookup(m, k) {
      InsertLookup(m, pairs, k);
      FirstMeaning(pairs, k);
    }
    MapsEqual(Insert(m, pairs), m);
  }

  /** Append-only growth of a table. */
  ghost predicate Extends<K, V>(a: map<K, V>, b: map<K, V>) {
    forall k :: k in a ==> k in b && b[k] == a[k]
  }

  // ----- The rows a batch inserts -----

  function EventPairs(rows: seq<PendingWrite>): (r: seq<(EventKey, EventRow)>)
    ensures |r| == |rows| && forall i :: 0 <= i < |rows| ==> r[i] == (rows[i].event.key, rows[i].event)
  {
    seq(|rows|, i requires 0 <= i < |rows| => (rows[i].event.key, rows[i].event))
  }

  /** Only the rows that carry a trade, in order. */
  function TradePairs(rows: seq<PendingWrite>): seq<(EventKey, StoredTrade)> {
    if rows == [] then []
    else TradePair(rows[0]) + TradePairs(rows[1..])
  }

  function TradePair(row: PendingWrite): seq<(EventKey, StoredTrade)> {
    match row.trade
    case Some(t) => [(row.event.key, Stored(row.event, t))]
    case None => []
  }

  lemma EventPairsConcat(a: seq<PendingWrite>, b: seq<PendingWrite>)
    ensures EventPairs(a + b) == EventPairs(a) + EventPairs(b)
  {}

  lemma {:induction false} TradePairsConcat(a: seq<PendingWrite>, b: seq<PendingWrite>)
    ensures TradePairs(a + b) == TradePairs(a) + TradePairs(b)
  {
    if a == [] {
      assert a + b == b;
    } else {
      assert (a + b)[1..] == a[1..] + b;
      TradePairsConcat(a[1..], b);
    }
  }

  /** Every trade pair comes from a row of the batch. */
  lemma {:induction false} TradePairsSource(rows: seq<PendingWrite>)
    ensures forall p :: p in TradePairs(rows) <==>
              exists i :: 0 <= i < |rows| && p in TradePair(rows[i])
  {
    if rows != [] {
      TradePairsSource(rows[1..]);
      forall p ensures p in TradePairs(rows) <==> exists i :: 0 <= i < |rows| && p in TradePair(rows[i]) {
        if p in TradePairs(rows[1..]) {
          var i :| 0 <= i < |rows[1..]| && p in TradePair(rows[1..][i]);
          assert p in TradePair(rows[i + 1]);
        }
        if i :| 0 <= i < |rows| && p in TradePair(rows[i]) {
          assert i > 0 ==> rows[i] == rows[1..][i - 1];
        }
      }
    }
  }

  // ----- Tables -----

  datatype Checkpoint = Checkpoint(slot: nat, signature: string)

  datatype PoolRow = PoolRow(baseMint: Text, quoteMint: Text, baseDecimals: Option<int>, quoteDecimals: Option<int>)

  datatype GapStatus = Open | Recovering | Closed

  datatype GapRow = GapRow(
    id: nat,
    start: nat,
    end: nat,
    status: GapStatus,
    recoveredAt: Option<nat>,
    recoveryMethod: Option<string>)

  datatype DeadLetter = DeadLetter(key: EventKey, slot: nat, payload: Json, error: string)

  type Events = map<EventKey, EventRow>
  type Trades = map<EventKey, StoredTrade>
  type Pools = map<Text, PoolRow>

  /** `gaps` is in gap_id order. */
  datatype Tables = Tables(
    events: Events,
    trades: Trades,
    checkpoint: Option<Checkpoint>,
    pools: Pools,
    gaps: seq<GapRow>,
    deadLetters: seq<DeadLetter>)

  /** The row `max_by_key` picks: the last one of maximal slot. */
  function Newest(batch: seq<PendingWrite>): (i: nat)
    requires batch != []
    ensures i < |batch|
    ensures forall j :: 0 <= j < |batch| ==> batch[j].event.slot <= batch[i].event.slot
    ensures forall j :: i < j < |batch| ==> batch[j].event.slot < batch[i].event.slot
  {
    if |batch| == 1 then 0
    else
      var n := |batch| - 1;
      var i := Newest(batch[..n]);
      assert forall j :: 0 <= j < n ==> batch[..n][j] == batch[j];
      if batch[i].event.slot <= batch[n].event.slot then n else i
  }

  function CheckpointOf(batch: seq<PendingWrite>): Checkpoint
    requires batch != []
  {
    var row := batch[Newest(batch)];
    Checkpoint(row.event.slot, row.event.key.signature)
  }

  /** The checkpoint is slot and signature of one row: no row of the batch is above it, every
      later one is below it. */
  ghost predicate NamesNewest(c: Checkpoint, batch: seq<PendingWrite>) {
    exists i :: 0 <= i < |batch| && batch[i].event.slot == c.slot && batch[i].event.key.signature == c.signature
                && (forall j :: 0 <= j < |batch| ==> batch[j].event.slot <= c.slot)
                && (forall j :: i < j < |batch| ==> batch[j].event.slot < c.slot)
  }

  lemma CheckpointNamesNewest(batch: seq<PendingWrite>)
    requires batch != []
    ensures NamesNewest(CheckpointOf(batch), batch)
  {
    var i := Newest(batch);
    assert batch[i].event.slot == CheckpointOf(batch).slot;
  }

  /** One committed transaction: events, then trades, then the checkpoint. */
  function CommitBatch(t: Tables, batch: seq<PendingWrite>): Tables
    requires batch != []
  {
    t.(events := Insert(t.events, EventPairs(batch)),
       trades := Insert(t.trades, TradePairs(batch)),
       checkpoint := Some(CheckpointOf(batch)))
  }

  function Letters(batch: seq<PendingWrite>, error: string): (r: seq<DeadLetter>)
    ensures |r| == |batch|
    ensures forall i :: 0 <= i < |batch| ==>
              r[i] == DeadLetter(batch[i].event.key, batch[i].event.slot, batch[i].event.payload, error)
  {
    seq(|batch|, i requires 0 <= i < |batch| =>
      DeadLetter(batch[i].event.key, batch[i].event.slot, batch[i].event.payload, error))
  }

  function Coalesce(present: Option<int>, offered: Option<int>): Option<int> {
    if present.Some? then present else offered
  }

  /** `write_pool`: the first mints stay, each missing decimals column may be filled. */
  function UpsertPool(pools: Pools, pool: Text, row: PoolRow): Pools {
    if pool in pools then
      var row' := pools[pool];
      pools[pool := row'.(baseDecimals := Coalesce(row'.baseDecimals, row.baseDecimals),
                         quoteDecimals := Coalesce(row'.quoteDecimals, row.quoteDecimals))]
    else pools[pool := row]
  }

  /** `mark_gap` on one row. */
  function Mark(g: GapRow, status: GapStatus, now: nat): GapRow {
    if status == Closed then
      g.(status := Closed, recoveredAt := Some(now), recoveryMethod := Some("rpc-block-fetch"))
    else g.(status := status)
  }

  function MarkGap(gaps: seq<GapRow>, id: nat, status: GapStatus, now: nat): (r: seq<GapRow>)
    ensures |r| == |gaps|
    ensures forall i :: 0 <= i < |gaps| ==>
              r[i] == if gaps[i].id == id then Mark(gaps[i], status, now) else gaps[i]
  {
    seq(|gaps|, i requires 0 <= i < |gaps| =>
      if gaps[i].id == id then Mark(gaps[i], status, now) else gaps[i])
  }

  predicate IdsIncrease(gaps: seq<GapRow>) {
    forall i, j :: 0 <= i < j < |gaps| ==> gaps[i].id < gaps[j].id
  }

  predicate HasRange(gaps: seq<GapRow>, start: nat, end: nat) {
    exists i :: 0 <= i < |gaps| && gaps[i].start == start && gaps[i].end == end
  }

  // ----- The store invariant -----

  predicate NamesStoredEvent(c: Checkpoint, events: Events) {
    exists k :: k in events && k.signature == c.signature
  }

  /** Each event is stored under its own key. */
  predicate KeysMatch(events: Events) {
    forall k :: k in events ==> events[k].key == k
  }

  predicate StoreInv(t: Tables) {
    && KeysMatch(t.events)
    && (forall k :: k in t.trades ==> k in t.events)
    && (forall k :: k in t.trades ==> SideOk(t.trades[k].trade))
    && (t.checkpoint.Some? ==> NamesStoredEvent(t.checkpoint.value, t.events))
    && IdsIncrease(t.gaps)
  }

  lemma CommitKeepsInv(t: Tables, batch: seq<PendingWrite>)
    requires StoreInv(t) && batch != [] && SidesOk(batch)
    ensures StoreInv(CommitBatch(t, batch))
    ensures Extends(t.events, CommitBatch(t, batch).events)
    ensures Extends(t.trades, CommitBatch(t, batch).trades)
    ensures forall row :: row in batch ==> row.event.key in CommitBatch(t, batch).events
  {
    var t' := CommitBatch(t, batch);
    InsertKeeps(t.events, EventPairs(batch));
    InsertKeeps(t.trades, TradePairs(batch));
    TradePairsSource(batch);
    forall row | row in batch ensures row.event.key in t'.events {
      var i :| 0 <= i < |batch| && batch[i] == row;
      assert EventPairs(batch)[i].0 == row.event.key;
    }
    forall k | k in t'.trades
      ensures k in t'.events && SideOk(t'.trades[k].trade)
    {
      if k !in t.trades {
        InsertSource(t.trades, TradePairs(batch), k);
        var p := (k, t'.trades[k]);
        assert p in TradePairs(batch);
        var i :| 0 <= i < |batch| && p in TradePair(batch[i]);
        assert batch[i] in batch;
      }
    }
    forall k | k in t'.events ensures t'.events[k].key == k {
      InsertSource(t.events, EventPairs(batch), k);
    }
    assert batch[Newest(batch)] in batch;
  }
}
