/** The store under every mixture of flushes, repairs, recoveries, pool saves and gap reports:
    a transaction that fails in any way is simply not one of the steps. */
module StoreRuns {
  import opened Rows
  import opened Store
  import opened Repair
  import Gaps

  datatype Action =
    | Flush(batch: seq<PendingWrite>)
    | Park(batch: seq<PendingWrite>, error: string)
    | WriteRepaired(pairs: seq<(EventKey, StoredTrade)>)
    | SavePool(pool: Text, row: PoolRow)
    | ReportGap(id: nat, start: nat, end: nat)
    | MarkGap(id: nat, status: GapStatus, now: nat)

  /** What the constraints of the schema let through. */
  predicate Accepts(t: Tables, a: Action) {
    match a
    case Flush(batch) => batch != [] && SidesOk(batch)
    case WriteRepaired(pairs) => Insertable(t, pairs)
    case ReportGap(id, _, _) => forall i :: 0 <= i < |t.gaps| ==> t.gaps[i].id < id
    case _ => true
  }

  function Next(t: Tables, a: Action): Tables
    requires Accepts(t, a)
  {
    match a
    case Flush(batch) => CommitBatch(t, batch)
    case Park(batch, error) => t.(deadLetters := t.deadLetters + Letters(batch, error))
    case WriteRepaired(pairs) => t.(trades := Insert(t.trades, pairs))
    case SavePool(pool, row) => t.(pools := UpsertPool(t.pools, pool, row))
    case ReportGap(id, start, end) =>
      if HasRange(t.gaps, start, end) then t else t.(gaps := t.gaps + [GapRow(id, start, end, Open, None, None)])
    case MarkGap(id, status, now) => t.(gaps := Store.MarkGap(t.gaps, id, status, now))
  }

  function Exec(t: Tables, run: seq<Action>): Option<Tables>
    decreases |run|
  {
    if run == [] then Some(t)
    else if Accepts(t, run[0]) then Exec(Next(t, run[0]), run[1..])
    else None
  }

  lemma ReportKeeps(gaps: seq<GapRow>, id: nat, start: nat, end: nat)
    requires IdsIncrease(gaps) && Gaps.UniqueRanges(gaps) && !HasRange(gaps, start, end)
    requires forall i :: 0 <= i < |gaps| ==> gaps[i].id < id
    ensures IdsIncrease(gaps + [GapRow(id, start, end, Open, None, None)])
    ensures Gaps.UniqueRanges(gaps + [GapRow(id, start, end, Open, None, None)])
  {}

  lemma MarkKeeps(gaps: seq<GapRow>, id: nat, status: GapStatus, now: nat)
    requires IdsIncrease(gaps) && Gaps.UniqueRanges(gaps)
    ensures IdsIncrease(Store.MarkGap(gaps, id, status, now)) && Gaps.UniqueRanges(Store.MarkGap(gaps, id, status, now))
  {}

  predicate Inv(t: Tables) { StoreInv(t) && Gaps.UniqueRanges(t.gaps) }

  lemma StepKeeps(t: Tables, a: Action)
    requires Inv(t) && Accepts(t, a)
    ensures Inv(Next(t, a)) && Extends(t.events, Next(t, a).events) && Extends(t.trades, Next(t, a).trades)
  {
    hide Insert, CommitBatch, SidesOk, Gaps.UniqueRanges, IdsIncrease, Store.MarkGap, HasRange, UpsertPool, Insertable;
    match a
    case Flush(batch) =>
      CommitKeepsInv(t, batch);
      CommitGaps(t, batch);
    case WriteRepaired(pairs) => InsertedKeepsInv(t, pairs);
    case ReportGap(id, start, end) => if !HasRange(t.gaps, start, end) { ReportKeeps(t.gaps, id, start, end); }
    case MarkGap(id, status, now) => MarkKeeps(t.gaps, id, status, now);
    case Park(_, _) =>
    case SavePool(_, _) =>
  }

  lemma CommitGaps(t: Tables, batch: seq<PendingWrite>)
    requires batch != []
    ensures CommitBatch(t, batch).gaps == t.gaps
  {}

  /** The batch of the last flush in a run. */
  function LastFlush(run: seq<Action>): Option<seq<PendingWrite>> {
    if run == [] then None
    else
      var n := |run| - 1;
      if run[n].Flush? then Some(run[n].batch) else LastFlush(run[..n])
  }

  lemma {:induction false} LastFlushTail(run: seq<Action>)
    requires run != []
    ensures LastFlush(run) == if LastFlush(run[1..]).Some? then LastFlush(run[1..])
                              else if run[0].Flush? then Some(run[0].batch) else None
    decreases |run|
  {
    var n := |run| - 1;
    if n > 0 && !run[n].Flush? {
      LastFlushTail(run[..n]);
      assert run[..n][1..] == run[1..][..n - 1];
    }
  }

  lemma InvSides(t: Tables)
    requires Inv(t)
    ensures forall k :: k in t.trades ==>
              k in t.events && (t.trades[k].trade.side == "buy" || t.trades[k].trade.side == "sell")
  {}

  lemma {:induction false} RunKeepsInv(t: Tables, run: seq<Action>)
    requires Inv(t) && Exec(t, run).Some?
    ensures var e := Exec(t, run).value;
            && Inv(e) && Extends(t.events, e.events) && Extends(t.trades, e.trades)
            && match LastFlush(run)
               case Some(batch) => batch != [] && e.checkpoint == Some(CheckpointOf(batch))
               case None => e.checkpoint == t.checkpoint
    decreases |run|
  {
    hide Inv;
    if run != [] {
      var t' := Next(t, run[0]);
      StepKeeps(t, run[0]);
      RunKeepsInv(t', run[1..]);
      LastFlushTail(run);
      var e := Exec(t', run[1..]).value;
      assert Extends(t.events, e.events) && Extends(t.trades, e.trades);
    }
  }

  /** Over every run: events and trades only grow, trades belong to events, sides are buy or
      sell, gap ranges are unique, and the checkpoint names a stored event, namely the newest
      row of the last batch that was flushed. */
  lemma RunKeeps(t: Tables, run: seq<Action>)
    requires Inv(t) && Exec(t, run).Some?
    ensures var e := Exec(t, run).value;
            && Inv(e) && Extends(t.events, e.events) && Extends(t.trades, e.trades)
            && (forall k :: k in e.trades ==>
                  k in e.events && (e.trades[k].trade.side == "buy" || e.trades[k].trade.side == "sell"))
            && match LastFlush(run)
               case Some(batch) => batch != [] && e.checkpoint.Some? && NamesNewest(e.checkpoint.value, batch)
               case None => e.checkpoint == t.checkpoint
  {
    hide Inv, NamesNewest, Exec, CheckpointOf;
    RunKeepsInv(t, run);
    InvSides(Exec(t, run).value);
    if LastFlush(run).Some? { CheckpointNamesNewest(LastFlush(run).value); }
  }

  // ----- The checkpoint is not the highest slot -----

  function MaxSlot(batch: seq<PendingWrite>): nat
    requires batch != []
  {
    batch[Newest(batch)].event.slot
  }

  /** The checkpoint is at or above every stored event. */
  predicate Tops(t: Tables) {
    t.checkpoint.Some? && forall k :: k in t.events ==> t.events[k].slot <= t.checkpoint.value.slot
  }

  predicate AtMost(events: Events, slot: nat) {
    forall k :: k in events ==> events[k].slot <= slot
  }

  /** One flush leaves the checkpoint on top exactly when nothing stored before it is above
      the batch: the row is overwritten, not raised. */
  lemma CommitTopsExactly(t: Tables, batch: seq<PendingWrite>)
    requires batch != []
    ensures Tops(CommitBatch(t, batch)) <==> AtMost(t.events, MaxSlot(batch))
  {
    var t' := CommitBatch(t, batch);
    InsertKeeps(t.events, EventPairs(batch));
    hide Insert, EventPairs;
    if AtMost(t.events, MaxSlot(batch)) {
      forall k | k in t'.events ensures t'.events[k].slot <= MaxSlot(batch) {
        InsertSource(t.events, EventPairs(batch), k);
        if k !in t.events {
          var i :| 0 <= i < |EventPairs(batch)| && EventPairs(batch)[i] == (k, t'.events[k]);
          assert batch[i].event == t'.events[k];
        }
      }
    }
  }

  predicate NoFlush(run: seq<Action>) {
    forall i :: 0 <= i < |run| ==> !run[i].Flush?
  }

  lemma {:induction false} NoFlushKeeps(t: Tables, run: seq<Action>)
    requires NoFlush(run) && Exec(t, run).Some?
    ensures Exec(t, run).value.events == t.events && Exec(t, run).value.checkpoint == t.checkpoint
    decreases |run|
  {
    if run != [] {
      assert forall i :: 0 <= i < |run[1..]| ==> run[1..][i] == run[i + 1];
      NoFlushKeeps(Next(t, run[0]), run[1..]);
    }
  }

  lemma {:induction false} ExecConcat(t: Tables, a: seq<Action>, b: seq<Action>)
    ensures Exec(t, a + b) == if Exec(t, a).Some? then Exec(Exec(t, a).value, b) else None
    decreases |a|
  {
    if a == [] {
      assert a + b == b;
    } else {
      assert (a + b)[1..] == a[1..] + b;
      if Accepts(t, a[0]) { ExecConcat(Next(t, a[0]), a[1..], b); }
    }
  }

  /** Over any run of flushes, repairs, parked batches, pool saves and gap changes: without a
      flush the checkpoint tops the events exactly when it did before; otherwise exactly when
      the last flush met no stored event above its batch. */
  lemma CheckpointIsHighestExactly(t: Tables, before: seq<Action>, batch: seq<PendingWrite>, after: seq<Action>)
    requires NoFlush(after)
    ensures Exec(t, after).Some? ==> (Tops(Exec(t, after).value) <==> Tops(t))
    ensures var run := before + [Flush(batch)] + after;
            Exec(t, run).Some? ==>
              && Exec(t, before).Some? && batch != []
              && (Tops(Exec(t, run).value) <==> AtMost(Exec(t, before).value.events, MaxSlot(batch)))
  {
    hide Tops, AtMost, MaxSlot, Accepts, Next, CommitBatch;
    if Exec(t, after).Some? {
      NoFlushKeeps(t, after);
      SameTops(t, Exec(t, after).value);
    }
    var run := before + [Flush(batch)] + after;
    if Exec(t, run).Some? {
      ExecConcat(t, before + [Flush(batch)], after);
      ExecConcat(t, before, [Flush(batch)]);
      var s := Exec(t, before).value;
      FlushAlone(s, batch);
      var s' := CommitBatch(s, batch);
      CommitTopsExactly(s, batch);
      NoFlushKeeps(s', after);
      SameTops(s', Exec(t, run).value);
    }
  }

  lemma FlushAlone(t: Tables, batch: seq<PendingWrite>)
    requires Exec(t, [Flush(batch)]).Some?
    ensures batch != [] && Exec(t, [Flush(batch)]) == Some(CommitBatch(t, batch))
  {
    hide SidesOk, CommitBatch;
    assert [Flush(batch)][1..] == [];
    assert Accepts(t, Flush(batch));
    assert Exec(CommitBatch(t, batch), []) == Some(CommitBatch(t, batch));
  }

  lemma SameTops(a: Tables, b: Tables)
    requires a.events == b.events && a.checkpoint == b.checkpoint
    ensures Tops(a) <==> Tops(b)
  {}

  /** Live ingestion, a gap, its recovery: `high` came live, `low` is refetched later. */
  function RecoveryOf(low: PendingWrite, high: PendingWrite, now: nat): seq<Action> {
    [Flush([high]), ReportGap(0, low.event.slot, high.event.slot), MarkGap(0, Recovering, now)]
    + [Flush([low])] + [MarkGap(0, Closed, now)]
  }

  /** Recovering an old range moves the checkpoint back below a stored event. */
  lemma RecoveryMovesCheckpointBack(t: Tables, low: PendingWrite, high: PendingWrite, now: nat)
    requires t == Tables(map[], map[], None, map[], [], []) && SidesOk([low]) && SidesOk([high])
    requires low.event.slot < high.event.slot
    ensures var r := Exec(t, RecoveryOf(low, high, now));
            && r.Some? && r.value.checkpoint == Some(Checkpoint(low.event.slot, low.event.key.signature))
            && high.event.key in r.value.events && r.value.events[high.event.key] == high.event && !Tops(r.value)
  {
    hide SidesOk, Insert, TradePairs;
    var pre := [Flush([high]), ReportGap(0, low.event.slot, high.event.slot), MarkGap(0, Recovering, now)];
    var t1 := CommitBatch(t, [high]);
    var t2 := Next(t1, pre[1]);
    var t3 := Next(t2, pre[2]);
    assert pre[1..][1..] == [pre[2]] && pre[1..][1..][1..] == [];
    assert Exec(t3, []) == Some(t3);
    assert Exec(t2, [pre[2]]) == Some(t3);
    assert Exec(t1, pre[1..]) == Some(t3);
    assert Exec(t, pre) == Some(t3);
    var t4, close := CommitBatch(t3, [low]), [MarkGap(0, Closed, now)];
    var t5 := Next(t4, close[0]);
    assert close[1..] == [] && Exec(t5, []) == Some(t5) && Exec(t4, close) == Some(t5);
    assert [Flush([low])][1..] == [] && Exec(t4, []) == Some(t4) && Exec(t3, [Flush([low])]) == Some(t4);
    ExecConcat(t, pre, [Flush([low])]);
    ExecConcat(t, pre + [Flush([low])], close);
    OneEvent(map[], high);
    InsertKeeps(t3.events, EventPairs([low]));
    assert t5.events[high.event.key] == high.event;
  }

  lemma OneEvent(events: Events, row: PendingWrite)
    requires row.event.key !in events
    ensures Insert(events, EventPairs([row])) == events[row.event.key := row.event]
  {
    var ps := EventPairs([row]);
    assert ps[1..] == [];
    assert Insert(PutNew(events, ps[0].0, ps[0].1), ps[1..]) == PutNew(events, ps[0].0, ps[0].1);
  }
}
