/** Backfill from the chain through the pipeline, and the range check of `verify.rs`. */
module Backfill {
  import opened Rows
  import opened Store
  import opened Database
  import opened Protocol
  import opened Runs
  import opened Writer
  import opened Pipeline
  import PumpSwap

  const MAX_ATTEMPTS := 4

  /** The finalised chain: each slot that produced a block, with the events it decodes to. */
  type Chain = map<nat, seq<EventRow>>

  /** Events carry their slot, and a key lands in one slot. */
  predicate ChainOk(chain: Chain) {
    && (forall s, i :: s in chain && 0 <= i < |chain[s]| ==> chain[s][i].slot == s)
    && (forall s, i, r, j :: s in chain && r in chain && 0 <= i < |chain[s]| && 0 <= j < |chain[r]| ==>
          chain[s][i].key == chain[r][j].key ==> s == r)
  }

  predicate OnChain(chain: Chain, s: nat, k: EventKey) {
    s in chain && exists i :: 0 <= i < |chain[s]| && chain[s][i].key == k
  }

  lemma OneSlot(chain: Chain, s: nat, r: nat, k: EventKey)
    requires ChainOk(chain) && OnChain(chain, s, k) && OnChain(chain, r, k)
    ensures s == r
  {}

  // ----- The source -----

  /** What one backfill meets: whether `get_blocks` answers, and if not, whether Carbon hands
      the error on to the pipeline's caller; how often `get_block` fails on a slot; whether the
      token is cancelled when a block's turn comes; how many events the receiver still takes. */
  datatype Node = Node(lists: bool, surfaces: bool, outage: nat -> nat, cancelled: nat -> bool, room: nat)

  function DoubledWaits(n: nat): nat {
    if n == 0 then 0 else 200 + 2 * DoubledWaits(n - 1)
  }

  /** `fetch_block` when the node fails `failures` times before it answers. */
  method FetchBlock(failures: nat) returns (got: bool, attempts: nat, waited: nat)
    ensures got <==> failures < 4
    ensures attempts == if got then failures + 1 else 4
    ensures waited == DoubledWaits(attempts - 1)
    ensures waited == if attempts == 1 then 0 else if attempts == 2 then 200 else if attempts == 3 then 600 else 1400
  {
    var wait := 200;
    var attempt := 1;
    waited := 0;
    while true
      invariant 1 <= attempt <= MAX_ATTEMPTS && attempt <= failures + 1
      invariant waited == DoubledWaits(attempt - 1) && wait == 200 + waited
      decreases MAX_ATTEMPTS - attempt
    {
      if attempt == failures + 1 {
        return true, attempt, waited;
      }
      if attempt >= MAX_ATTEMPTS {
        return false, attempt, waited;
      }
      waited := waited + wait;
      wait := wait * 2;
      attempt := attempt + 1;
    }
  }

  /** The slots of a range, counted from its start. */
  function Width(from: nat, to: nat): nat {
    if from <= to then to + 1 - from else 0
  }

  /** The events of the blocks among `n` slots that are fetched. */
  function Fetched(chain: Chain, from: nat, n: nat, outage: nat -> nat): seq<EventRow> {
    if n == 0 then []
    else
      var s := from + n - 1;
      Fetched(chain, from, n - 1, outage) + if s in chain && outage(s) < MAX_ATTEMPTS then chain[s] else []
  }

  /** How many of `n` slots are passed before a block finds the token cancelled. */
  function Reach(chain: Chain, from: nat, n: nat, cancelled: nat -> bool): (r: nat)
    ensures r <= n
  {
    if n == 0 then 0
    else
      var r := Reach(chain, from, n - 1, cancelled);
      if r < n - 1 || (from + n - 1 in chain && cancelled(from + n - 1)) then r else n
  }

  function Upto<T>(xs: seq<T>, n: nat): seq<T> {
    if n <= |xs| then xs[..n] else xs
  }

  /** What the source sends for a range. */
  function Sent(chain: Chain, from: nat, to: nat, node: Node): seq<EventRow> {
    if !node.lists then []
    else Upto(Fetched(chain, from, Reach(chain, from, Width(from, to), node.cancelled), node.outage), node.room)
  }

  lemma {:induction false} ReachStays(chain: Chain, from: nat, m: nat, n: nat, cancelled: nat -> bool)
    requires m <= n
    ensures Reach(chain, from, m, cancelled) < m ==>
              Reach(chain, from, n, cancelled) == Reach(chain, from, m, cancelled)
    ensures Reach(chain, from, m, cancelled) == m ==> Reach(chain, from, n, cancelled) >= m
  {
    if m < n {
      ReachStays(chain, from, m, n - 1, cancelled);
    }
  }

  lemma {:induction false} FetchedGrows(chain: Chain, from: nat, m: nat, n: nat, outage: nat -> nat)
    requires m <= n
    ensures Fetched(chain, from, m, outage) <= Fetched(chain, from, n, outage)
  {
    if m < n {
      FetchedGrows(chain, from, m, n - 1, outage);
    }
  }

  /** The source stops at a block that finds the token cancelled. */
  lemma StopsCancelled(chain: Chain, from: nat, to: nat, node: Node, slot: nat, events: seq<EventRow>)
    requires node.lists && from <= slot <= to && slot in chain && node.cancelled(slot)
    requires Reach(chain, from, slot - from, node.cancelled) == slot - from
    requires events == Fetched(chain, from, slot - from, node.outage) && |events| <= node.room
    ensures events == Sent(chain, from, to, node)
  {
    ReachStays(chain, from, slot + 1 - from, Width(from, to), node.cancelled);
  }

  /** The source stops when the receiver is gone. */
  lemma StopsFull(chain: Chain, from: nat, to: nat, node: Node, slot: nat, events: seq<EventRow>)
    requires node.lists && from <= slot <= to
    requires Reach(chain, from, slot + 1 - from, node.cancelled) == slot + 1 - from
    requires events <= Fetched(chain, from, slot + 1 - from, node.outage) && |events| == node.room
    ensures events == Sent(chain, from, to, node)
  {
    ReachStays(chain, from, slot + 1 - from, Width(from, to), node.cancelled);
    FetchedGrows(chain, from, slot + 1 - from, Reach(chain, from, Width(from, to), node.cancelled), node.outage);
  }

  /** `BackfillDatasource::consume`: block by block in slot order; a block that cannot be
      fetched is passed over. Not ok is the error of `get_blocks`. */
  method Consume(chain: Chain, from: nat, to: nat, node: Node) returns (ok: bool, events: seq<EventRow>)
    ensures ok <==> node.lists
    ensures events == Sent(chain, from, to, node)
  {
    ok, events := node.lists, [];
    if !ok { return; }
    var slot := from;
    while slot <= to
      invariant from <= slot && (from <= to ==> slot <= to + 1) && (from > to ==> slot == from)
      invariant Reach(chain, from, slot - from, node.cancelled) == slot - from
      invariant events == Fetched(chain, from, slot - from, node.outage) && |events| <= node.room
    {
      if slot in chain {
        if node.cancelled(slot) {
          StopsCancelled(chain, from, to, node, slot, events);
          return;
        }
        var got, _, _ := FetchBlock(node.outage(slot));
        if got {
          var i := 0;
          ghost var before := events;
          while i < |chain[slot]|
            invariant 0 <= i <= |chain[slot]| && events == before + chain[slot][..i] && |events| <= node.room
          {
            if |events| == node.room {
              StopsFull(chain, from, to, node, slot, events);
              return;
            }
            events := events + [chain[slot][i]];
            i := i + 1;
          }
          assert chain[slot][..|chain[slot]|] == chain[slot];
        }
      }
      slot := slot + 1;
    }
  }

  lemma {:induction false} FetchedSource(chain: Chain, from: nat, n: nat, outage: nat -> nat, e: EventRow)
    ensures e in Fetched(chain, from, n, outage) <==>
              exists s :: from <= s < from + n && s in chain && outage(s) < MAX_ATTEMPTS && e in chain[s]
  {
    if n != 0 {
      FetchedSource(chain, from, n - 1, outage, e);
      var s := from + n - 1;
      if s in chain && outage(s) < MAX_ATTEMPTS && e in chain[s] { assert e in Fetched(chain, from, n, outage); }
    }
  }

  /** Where the events of a fetched block stand: together and in their order, after those of
      lower slots and before those of higher ones. */
  lemma {:induction false} BlockInPlace(chain: Chain, from: nat, n: nat, outage: nat -> nat, s: nat)
    returns (a: seq<EventRow>, b: seq<EventRow>)
    requires ChainOk(chain) && from <= s < from + n && s in chain && outage(s) < 4
    ensures Fetched(chain, from, n, outage) == a + chain[s] + b
    ensures (forall e :: e in a ==> e.slot < s) && (forall e :: e in b ==> s < e.slot)
  {
    var t := from + n - 1;
    if s == t {
      a, b := Fetched(chain, from, n - 1, outage), [];
      forall e | e in a ensures e.slot < s {
        FetchedSource(chain, from, n - 1, outage, e);
        var r :| from <= r < from + n - 1 && r in chain && e in chain[r];
        var i :| 0 <= i < |chain[r]| && chain[r][i] == e;
      }
    } else {
      a, b := BlockInPlace(chain, from, n - 1, outage, s);
      var more := if t in chain && outage(t) < MAX_ATTEMPTS then chain[t] else [];
      forall e | e in more ensures s < e.slot {
        var i :| 0 <= i < |more| && more[i] == e;
      }
      assert a + chain[s] + b + more == a + chain[s] + (b + more);
      b := b + more;
    }
  }

  /** How far the source gets: no block before that finds the token cancelled, and it is the end
      of the range or a block that does. */
  lemma {:induction false} ReachMeaning(chain: Chain, from: nat, n: nat, cancelled: nat -> bool)
    ensures var r := Reach(chain, from, n, cancelled);
            && (forall s :: from <= s < from + r && s in chain ==> !cancelled(s))
            && (r < n ==> from + r in chain && cancelled(from + r))
  {
    if n != 0 {
      ReachMeaning(chain, from, n - 1, cancelled);
    }
  }

  /** What is sent: nothing if the blocks cannot be listed; else the events fetched before a
      cancellation, and of them as many as the receiver takes. */
  lemma SentMeaning(chain: Chain, from: nat, to: nat, node: Node)
    ensures !node.lists ==> Sent(chain, from, to, node) == []
    ensures node.lists ==>
              var all := Fetched(chain, from, Reach(chain, from, Width(from, to), node.cancelled), node.outage);
              && Sent(chain, from, to, node) <= all
              && |Sent(chain, from, to, node)| == (if |all| < node.room then |all| else node.room)
    ensures from <= to ==> from + Width(from, to) == to + 1
    ensures from > to ==> Width(from, to) == 0
  {
    hide Fetched, Reach;
  }

  /** Everything sent is on the chain, in a block of the range that was fetched. */
  lemma SentSource(chain: Chain, from: nat, to: nat, node: Node, e: EventRow)
    requires e in Sent(chain, from, to, node)
    ensures exists s :: from <= s <= to && node.outage(s) < MAX_ATTEMPTS
              && s in chain && e in chain[s] && OnChain(chain, s, e.key)
  {
    var n := Reach(chain, from, Width(from, to), node.cancelled);
    FetchedSource(chain, from, n, node.outage, e);
    var s :| from <= s < from + n && s in chain && node.outage(s) < MAX_ATTEMPTS && e in chain[s];
    var i :| 0 <= i < |chain[s]| && chain[s][i] == e;
    assert OnChain(chain, s, e.key);
  }

  /** Nothing but blocks given up on keeps the source from sending the whole range. */
  predicate Steady(chain: Chain, from: nat, to: nat, node: Node) {
    && node.lists && (forall s :: from <= s <= to && s in chain ==> !node.cancelled(s))
    && |Fetched(chain, from, Width(from, to), node.outage)| <= node.room
  }

  lemma {:induction false} ReachAll(chain: Chain, from: nat, n: nat, cancelled: nat -> bool)
    requires forall s :: from <= s < from + n && s in chain ==> !cancelled(s)
    ensures Reach(chain, from, n, cancelled) == n
  {
    if n != 0 {
      ReachAll(chain, from, n - 1, cancelled);
    }
  }

  /** A steady source sends a key of the chain exactly when it did not give up on its block. */
  lemma SteadySends(chain: Chain, from: nat, to: nat, node: Node, s: nat, k: EventKey)
    requires ChainOk(chain) && Steady(chain, from, to, node) && from <= s <= to && OnChain(chain, s, k)
    ensures k in KeysOf(Sent(chain, from, to, node)) <==> node.outage(s) < MAX_ATTEMPTS
  {
    ReachAll(chain, from, Width(from, to), node.cancelled);
    hide ChainOk;
    var sent := Sent(chain, from, to, node);
    if node.outage(s) < MAX_ATTEMPTS {
      var i :| 0 <= i < |chain[s]| && chain[s][i].key == k;
      FetchedSource(chain, from, Width(from, to), node.outage, chain[s][i]);
    }
    if k in KeysOf(sent) {
      var e :| e in sent && e.key == k;
      SentSource(chain, from, to, node, e);
      var r :| from <= r <= to && node.outage(r) < MAX_ATTEMPTS && OnChain(chain, r, k);
      OneSlot(chain, s, r, k);
    }
  }

  // ----- The range check -----

  /** What a complete range is: the keys the chain has there are the keys stored there. */
  ghost predicate RangeMatches(events: Events, chain: Chain, from: nat, to: nat) {
    && (forall k :: k in events && from <= events[k].slot <= to ==> exists s :: from <= s <= to && OnChain(chain, s, k))
    && (forall s, k :: from <= s <= to && OnChain(chain, s, k) ==> k in events && from <= events[k].slot <= to)
  }

  function StoredKeys(events: Events, from: nat, to: nat): set<EventKey> {
    set k | k in events && from <= events[k].slot <= to
  }

  /** No block of the range was given up on. */
  ghost predicate AllFetched(chain: Chain, from: nat, to: nat, node: Node) {
    forall s, k :: from <= s <= to && OnChain(chain, s, k) ==> node.outage(s) < MAX_ATTEMPTS
  }

  /** `run_verify_range`: a second pass over the blocks with no database attached, against the
      rows stored in the range. None is an error of the source that the pipeline hands on. */
  method VerifyRange(db: Database, chain: Chain, from: nat, to: nat, node: Node) returns (clean: Option<bool>)
    ensures clean.None? <==> !node.lists && node.surfaces
    ensures clean.Some? ==> (clean.value <==> StoredKeys(db.events, from, to) == KeysOf(Sent(chain, from, to, node)))
  {
    var ok, log := Consume(chain, from, to, node);
    if !ok && node.surfaces {
      return None;
    }
    var expected: set<EventKey> := {};
    for i := 0 to |log|
      invariant expected == KeysOf(log[..i])
    {
      assert log[..i + 1] == log[..i] + [log[i]];
      expected := expected + {log[i].key};
    }
    assert log[..|log|] == log;
    var actual := set k | k in db.events && from <= db.events[k].slot <= to;
    var missing, extra := expected - actual, actual - expected;
    clean := Some(missing == {} && extra == {});
    assert clean.value <==> expected == actual;
  }

  /** The check is as good as its own fetches: over a steady source that gave up on nothing its
      answer is whether the range is complete, and a clean answer means a complete range if
      and only if it gave up on no block that has events. */
  lemma CheckIsAsGoodAsItsFetches(events: Events, chain: Chain, from: nat, to: nat, node: Node)
    requires ChainOk(chain) && Steady(chain, from, to, node)
    ensures var clean := StoredKeys(events, from, to) == KeysOf(Sent(chain, from, to, node));
            && (AllFetched(chain, from, to, node) ==> (clean <==> RangeMatches(events, chain, from, to)))
            && (clean ==> (RangeMatches(events, chain, from, to) <==> AllFetched(chain, from, to, node)))
  {
    var sent, stored := KeysOf(Sent(chain, from, to, node)), StoredKeys(events, from, to);
    hide ChainOk, OnChain, Steady, Sent;
    forall s, k | from <= s <= to && OnChain(chain, s, k) ensures k in sent <==> node.outage(s) < MAX_ATTEMPTS {
      SteadySends(chain, from, to, node, s, k);
    }
    forall k | k in sent ensures exists s :: from <= s <= to && OnChain(chain, s, k) {
      var e :| e in Sent(chain, from, to, node) && e.key == k;
      SentSource(chain, from, to, node, e);
    }
    if AllFetched(chain, from, to, node) {
      if RangeMatches(events, chain, from, to) {
        assert forall k :: k in sent <==> k in stored;
      }
      if sent == stored {
        forall s, k | from <= s <= to && OnChain(chain, s, k) ensures k in events && from <= events[k].slot <= to {
          assert k in stored;
        }
        forall k | k in events && from <= events[k].slot <= to
          ensures exists s :: from <= s <= to && OnChain(chain, s, k)
        {
          assert k in sent;
        }
      }
    }
    if sent == stored && RangeMatches(events, chain, from, to) {
      forall s, k | from <= s <= to && OnChain(chain, s, k) ensures node.outage(s) < MAX_ATTEMPTS {
        assert k in stored;
      }
    }
  }

  // ----- Through the pipeline -----

  /** The table holds only rows the chain accounts for: same key, same slot. */
  predicate AccountedFor(events: Events, chain: Chain) {
    forall k :: k in events ==> OnChain(chain, events[k].slot, k)
  }

  ghost predicate RangeStored(events: Events, chain: Chain, from: nat, to: nat) {
    forall s, k :: from <= s <= to && OnChain(chain, s, k) ==> k in events
  }

  /** Over accounted rows, a complete range is one where nothing of the chain is missing. */
  lemma MatchesIsStored(events: Events, chain: Chain, from: nat, to: nat)
    requires ChainOk(chain) && AccountedFor(events, chain)
    ensures RangeMatches(events, chain, from, to) <==> RangeStored(events, chain, from, to)
  {
    if RangeStored(events, chain, from, to) {
      forall s, k | from <= s <= to && OnChain(chain, s, k) ensures k in events && from <= events[k].slot <= to {
        OneSlot(chain, s, events[k].slot, k);
      }
    }
  }

  /** Everything one pipeline of the recovery meets. `cut` is where it dies if it is killed. */
  datatype Trial = Trial(node: Node, interpret: (nat, EventRow) -> Option<TradeRow>, weather: nat -> Weather,
                         pace: nat -> seq<Nudge>, late: seq<nat>, cut: nat, now: nat)

  ghost predicate TrialOk(trial: Trial) {
    forall n, e :: trial.interpret(n, e).Some? ==> SideOk(trial.interpret(n, e).value)
  }

  /** The books of one pipeline: the batches it handled, given the rows its source made. `whole`
      means it ran to the end. */
  predicate Books(rows: seq<PendingWrite>, whole: bool, handled: seq<Handled>) {
    Flatten(RowsOf(handled)) <= rows && (whole ==> Flatten(RowsOf(handled)) == rows)
  }

  /** Some landed row carries the key. */
  predicate Landed(landed: seq<seq<PendingWrite>>, k: EventKey) {
    exists row :: row in Flatten(landed) && row.event.key == k
  }

  /** Some batch that failed carries the key. */
  predicate FailedBatch(handled: seq<Handled>, k: EventKey) {
    exists h, row :: h in handled && h.fate.Failed? && row in h.rows && row.event.key == k
  }

  /** A handled row was sent. */
  lemma HandledWasSent(rows: seq<PendingWrite>, whole: bool, handled: seq<Handled>, h: Handled, row: PendingWrite)
    requires Books(rows, whole, handled) && h in handled && row in h.rows
    ensures row in rows && row.event.key in KeysOf(EventsOf(rows))
  {
    hide Flatten;
    var n :| 0 <= n < |handled| && handled[n] == h;
    assert RowsOf(handled)[n] == h.rows;
    InFlatten(RowsOf(handled), row);
    var i :| 0 <= i < |Flatten(RowsOf(handled))| && Flatten(RowsOf(handled))[i] == row;
    assert rows[i] == row && EventsOf(rows)[i] in EventsOf(rows);
  }

  /** After a whole backfill every key it sent is in a batch it handled. */
  lemma SentWasHandled(rows: seq<PendingWrite>, handled: seq<Handled>, k: EventKey)
    returns (h: Handled, row: PendingWrite)
    requires Books(rows, true, handled) && k in KeysOf(EventsOf(rows))
    ensures h in handled && row in h.rows && row.event.key == k
  {
    hide Flatten;
    var e :| e in EventsOf(rows) && e.key == k;
    var i :| 0 <= i < |rows| && EventsOf(rows)[i] == e;
    row := rows[i];
    InFlatten(RowsOf(handled), row);
    var part :| part in RowsOf(handled) && row in part;
    var n :| 0 <= n < |handled| && RowsOf(handled)[n] == part;
    h := handled[n];
  }

  /** So it landed, or was in a batch that failed. */
  lemma SentLandedOrFailed(rows: seq<PendingWrite>, handled: seq<Handled>, landed: seq<seq<PendingWrite>>, k: EventKey)
    requires Books(rows, true, handled) && k in KeysOf(EventsOf(rows))
    requires forall h :: h in handled && h.fate.Committed? ==> h.rows in landed
    ensures Landed(landed, k) || FailedBatch(handled, k)
  {
    hide Flatten;
    var h, row := SentWasHandled(rows, handled, k);
    if h.fate.Committed? {
      InFlatten(landed, row);
    }
  }

  /** Every stored pool can be read back into the cache. */
  predicate PoolsParse(pools: Pools) {
    forall t :: t in pools ==> PumpSwap.Parses(t, pools[t])
  }

  /** The rows the processors make of a range. */
  function SentRows(chain: Chain, from: nat, to: nat, trial: Trial): seq<PendingWrite> {
    Interpreted(Sent(chain, from, to, trial.node), trial.interpret)
  }

  /** What a pipeline finds of the process's earlier ones. */
  ghost predicate Resumes(db: Database, previous: WriterTask?)
    reads db, previous, if previous == null then {} else {previous.db}
  {
    previous != null ==> previous.db == db && previous.Left() && SidesOk(previous.accepted)
  }

  ghost function HandledBy(previous: WriterTask?): seq<Handled>
    reads previous
  {
    if previous == null then [] else previous.handled
  }

  /** The pipeline once its pool cache is primed. */
  method Primed(db: Database, previous: WriterTask?, chain: Chain, from: nat, to: nat, trial: Trial, killed: bool)
    returns (ok: bool, writer: WriterTask, ghost handled: seq<Handled>)
    requires db.Valid() && TrialOk(trial) && Resumes(db, previous)
    modifies db
    ensures db.Valid() && db.gaps == old(db.gaps) && db.pools == old(db.pools)
    ensures ok <==> !killed && (trial.node.lists || !trial.node.surfaces)
    ensures fresh(writer) && writer.db == db && writer.Valid() && SidesOk(writer.accepted) && (ok ==> writer.stopped)
    ensures writer.start == old(BaseTables(db, previous)) && writer.handled == old(HandledBy(previous)) + handled
    ensures db.events == Insert(writer.start.events, EventPairs(Flatten(writer.landed)))
    ensures db.trades == Insert(writer.start.trades, TradePairs(Flatten(writer.landed)))
    ensures Books(SentRows(chain, from, to, trial), ok, handled)
    ensures AlwaysFine(trial.weather) ==> AllCommitted(handled)
    ensures AlwaysStormy(trial.weather) ==> NoneSent(handled)
  {
    hide SidesOk, Insert, Sent, Interpreted, Attempts, TrialOk, StoreInv, Inv, Ledger, Flatten, AllCommitted, NoneSent;
    var listed, log := Consume(chain, from, to, trial.node);
    var rows := Interpreted(log, trial.interpret);
    InterpretedSides(log, trial);
    var cut := if killed then Some(trial.cut) else if !listed && trial.node.surfaces then Some(0) else None;
    var turns;
    ghost var base;
    ok, writer, turns, base :=
      RunPipeline(db, previous, rows, WRITE_QUEUE_SIZE, trial.weather, trial.pace, trial.late, cut);
    handled := writer.handled[|base.handled|..];
    SidesOkJoin(base.accepted, rows);
    SidesOfPrefix(base.accepted + rows, writer.accepted);
    PipelineBooks(base, writer.View(), rows, ok);
    assert AlwaysFine(trial.weather) ==> Calm(trial.weather, turns);
    assert AlwaysStormy(trial.weather) ==> Stormy(trial.weather, turns);
  }

  lemma SidesOkJoin(a: seq<PendingWrite>, b: seq<PendingWrite>)
    requires SidesOk(a) && SidesOk(b)
    ensures SidesOk(a + b)
  {}

  /** One gap's range through the pipeline: ok means it returned Ok. A pools row that does not
      parse ends it before it began; a source that failed to list its blocks ends it with an
      error, or goes unnoticed. */
  method Backfill(db: Database, previous: WriterTask?, chain: Chain, from: nat, to: nat, trial: Trial, killed: bool)
    returns (ok: bool, writer: WriterTask?, ghost handled: seq<Handled>)
    requires db.Valid() && TrialOk(trial) && Resumes(db, previous)
    modifies db
    ensures db.Valid() && db.gaps == old(db.gaps) && db.pools == old(db.pools)
    ensures ok <==> PoolsParse(db.pools) && !killed && (trial.node.lists || !trial.node.surfaces)
    ensures !PoolsParse(db.pools) ==>
              writer == previous && handled == [] && db.events == old(db.events) && db.trades == old(db.trades)
    ensures PoolsParse(db.pools) ==>
              && writer != null && fresh(writer) && writer.db == db && writer.Valid() && SidesOk(writer.accepted)
              && writer.start == old(BaseTables(db, previous)) && writer.handled == old(HandledBy(previous)) + handled
              && (ok ==> writer.stopped)
              && db.events == Insert(writer.start.events, EventPairs(Flatten(writer.landed)))
              && db.trades == Insert(writer.start.trades, TradePairs(Flatten(writer.landed)))
    ensures Books(SentRows(chain, from, to, trial), ok, handled)
    ensures AlwaysFine(trial.weather) ==> AllCommitted(handled)
    ensures AlwaysStormy(trial.weather) ==> NoneSent(handled)
  {
    hide Insert, SentRows, TrialOk, Books, StoreInv, Flatten, TradePairs, AlwaysFine, AlwaysStormy, SidesOk;
    hide Inv, Ledger, AllCommitted, NoneSent;
    var resolver := new PumpSwap.PoolResolver(db);
    var primed := resolver.Prime();
    if primed.None? {
      NoBooks(SentRows(chain, from, to, trial));
      return false, previous, [];
    }
    ok, writer, handled := Primed(db, previous, chain, from, to, trial, killed);
  }

  lemma InterpretedSides(log: seq<EventRow>, trial: Trial)
    requires TrialOk(trial)
    ensures SidesOk(Interpreted(log, trial.interpret))
  {}

  lemma NoBooks(rows: seq<PendingWrite>)
    ensures Books(rows, false, []) && AllCommitted([]) && NoneSent([])
  {}

  /** What was handled of the rows. */
  lemma PipelineBooks(base: State, s: State, rows: seq<PendingWrite>, whole: bool)
    requires Inv(s) && base.accepted == Flatten(RowsOf(base.handled)) && base.handled <= s.handled
    requires s.accepted <= base.accepted + rows
    requires whole ==> Flatten(RowsOf(s.handled[|base.handled|..])) == rows
    ensures Books(rows, whole, s.handled[|base.handled|..])
  {
    InvParts(s);
    hide Inv, Flatten;
    var n := |base.handled|;
    assert s.handled == base.handled + s.handled[n..];
    assert RowsOf(s.handled) == RowsOf(base.handled) + RowsOf(s.handled[n..]);
    FlattenConcat(RowsOf(base.handled), RowsOf(s.handled[n..]));
    PrefixTail(base.accepted, Flatten(RowsOf(s.handled[n..])), s.batch + s.queue, rows, s.accepted);
  }

  lemma PrefixTail(a: seq<PendingWrite>, b: seq<PendingWrite>, rest: seq<PendingWrite>, rows: seq<PendingWrite>,
                   all: seq<PendingWrite>)
    requires all == a + b + rest && all <= a + rows
    ensures b <= rows
  {
    assert |b| <= |rows|;
    forall i | 0 <= i < |b| ensures b[i] == rows[i] {
      assert all[|a| + i] == b[i] && (a + rows)[|a| + i] == rows[i];
    }
  }
}
