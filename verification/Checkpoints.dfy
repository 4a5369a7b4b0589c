/** What the checkpoint claims: that everything below it was written. */
module Checkpoints {
  import opened Rows
  import opened Store
  import opened Protocol
  import opened Runs
  import opened Convergence

  /** The row lies below the checkpoint slot, or with `upTo` at it. */
  predicate Claimed(s: State, upTo: bool, row: PendingWrite) {
    match s.store.checkpoint
    case None => false
    case Some(c) => row.event.slot < c.slot || (upTo && row.event.slot == c.slot)
  }

  predicate AllStored(s: State, upTo: bool, rows: seq<PendingWrite>) {
    forall row :: row in rows && Claimed(s, upTo, row) ==> row.event.key in s.store.events
  }

  /** Every accepted row below the checkpoint is stored; with `upTo`, also those at its slot. */
  predicate ClaimHolds(s: State, upTo: bool) {
    AllStored(s, upTo, s.accepted)
  }

  /** No row at the checkpoint slot is missing. */
  predicate SlotFinished(s: State, rows: seq<PendingWrite>) {
    forall row :: row in rows && Claimed(s, true, row) && !Claimed(s, false, row) ==> row.event.key in s.store.events
  }

  /** The rows of batches that failed. */
  function FailedRows(handled: seq<Handled>): seq<PendingWrite> {
    if handled == [] then []
    else
      var n := |handled| - 1;
      FailedRows(handled[..n]) + if handled[n].fate.Failed? then handled[n].rows else []
  }

  lemma {:induction false} FailedRowsAre(handled: seq<Handled>, row: PendingWrite)
    ensures row in FailedRows(handled) <==> exists h :: h in handled && h.fate.Failed? && row in h.rows
  {
    if handled != [] {
      var n := |handled| - 1;
      FailedRowsAre(handled[..n], row);
      assert handled == handled[..n] + [handled[n]];
    }
  }

  predicate InOrder(rows: seq<PendingWrite>) {
    forall i, j :: 0 <= i < j < |rows| ==> rows[i].event.slot <= rows[j].event.slot
  }

  /** A handled row is in a failed batch, or its event is stored. */
  lemma HandledStored(s: State, start: Tables, row: PendingWrite)
    requires Inv(s) && Ledger(s, start) && row in Flatten(RowsOf(s.handled))
    ensures row in FailedRows(s.handled) || row.event.key in s.store.events
  {
    hide Inv, Ledger, FailedRows, Flatten;
    InFlatten(RowsOf(s.handled), row);
    var part :| part in RowsOf(s.handled) && row in part;
    var n :| 0 <= n < |s.handled| && RowsOf(s.handled)[n] == part;
    var h := s.handled[n];
    FailedRowsAre(s.handled, row);
    HandledAccounted(s, start, h);
  }

  lemma FailedWasAccepted(s: State, row: PendingWrite)
    requires Conserved(s) && row in FailedRows(s.handled)
    ensures row in s.accepted
  {
    hide FailedRows, Flatten;
    FailedRowsAre(s.handled, row);
    var h :| h in s.handled && row in h.rows;
    var n :| 0 <= n < |s.handled| && s.handled[n] == h;
    assert RowsOf(s.handled)[n] == h.rows;
    InFlatten(RowsOf(s.handled), row);
  }

  /** In any state of any run: the claim holds exactly when it holds of the batches that failed
      and of the rows that are still waiting. */
  lemma ClaimHoldsExactly(s: State, start: Tables, upTo: bool)
    requires Inv(s) && Ledger(s, start)
    ensures ClaimHolds(s, upTo) <==> AllStored(s, upTo, FailedRows(s.handled)) && AllStored(s, upTo, s.batch + s.queue)
  {
    InvParts(s);
    hide Inv, Ledger, FailedRows, Claimed, Flatten;
    var done := Flatten(RowsOf(s.handled));
    assert s.accepted == done + (s.batch + s.queue);
    if ClaimHolds(s, upTo) {
      forall row | row in FailedRows(s.handled) && Claimed(s, upTo, row) ensures row.event.key in s.store.events {
        FailedWasAccepted(s, row);
      }
    }
    if AllStored(s, upTo, FailedRows(s.handled)) && AllStored(s, upTo, s.batch + s.queue) {
      forall row | row in s.accepted && Claimed(s, upTo, row) ensures row.event.key in s.store.events {
        if row in done { HandledStored(s, start, row); } else { assert row in s.batch + s.queue; }
      }
    }
  }

  lemma InvParts(s: State)
    requires Inv(s)
    ensures Conserved(s)
  {}

  /** The batch that landed last was handled before everything that waits, or is the batch that
      is being parked. */
  lemma LastLanded(s: State, start: Tables)
    requires Inv(s) && Ledger(s, start) && s.landed != []
    ensures var b := s.landed[|s.landed| - 1];
            && b != [] && s.store.checkpoint == Some(CheckpointOf(b))
            && (b == s.batch || exists h :: h in s.handled && h.rows == b)
  {
    hide Insert, Attempts;
    var b := s.landed[|s.landed| - 1];
    assert b in multiset(s.landed) + multiset(s.limbo);
    if b !in OpenAttempt(s) {
      AttemptSource(s.handled, b);
    }
  }

  /** A landed batch is stored. */
  lemma LandedStored(s: State, start: Tables, row: PendingWrite)
    requires Ledger(s, start) && row in Flatten(s.landed)
    ensures row.event.key in s.store.events
  {
    hide Insert, Flatten;
    var rows := Flatten(s.landed);
    InsertKeeps(start.events, EventPairs(rows));
    var i :| 0 <= i < |rows| && rows[i] == row;
    assert EventPairs(rows)[i].0 == row.event.key;
  }

  /** Rows accepted in slot order: what waits is not below the checkpoint, or is stored. */
  lemma WaitingIsAbove(s: State, start: Tables)
    requires Inv(s) && Ledger(s, start) && InOrder(s.accepted) && s.landed != []
    ensures AllStored(s, false, s.batch + s.queue)
    ensures AllStored(s, true, s.batch + s.queue) <==> SlotFinished(s, s.batch + s.queue)
  {
    InvParts(s);
    hide Inv, Ledger, Flatten, InOrder, CheckpointOf, Claimed;
    LastLanded(s, start);
    assert s.store.checkpoint.Some?;
    var b := s.landed[|s.landed| - 1];
    var done := Flatten(RowsOf(s.handled));
    forall row | row in s.batch + s.queue && Claimed(s, false, row) ensures row.event.key in s.store.events {
      if b == s.batch && row in s.batch {
        InFlatten(s.landed, row);
        LandedStored(s, start, row);
      } else {
        var top := NewestOf(b);
        NotBelow(s, done, b, top, row);
        NotClaimed(s, row);
      }
    }
  }

  lemma NotClaimed(s: State, row: PendingWrite)
    requires s.store.checkpoint.Some? && s.store.checkpoint.value.slot <= row.event.slot
    ensures !Claimed(s, false, row)
  {}

  lemma NewestOf(b: seq<PendingWrite>) returns (top: PendingWrite)
    requires b != []
    ensures top in b && CheckpointOf(b).slot == top.event.slot
  {
    top := b[Newest(b)];
  }

  /** A row of a landed batch was accepted no later than a row that still waits. */
  lemma NotBelow(s: State, done: seq<PendingWrite>, b: seq<PendingWrite>, top: PendingWrite, row: PendingWrite)
    requires s.accepted == done + s.batch + s.queue && done == Flatten(RowsOf(s.handled)) && InOrder(s.accepted)
    requires top in b && row in s.batch + s.queue && (b == s.batch ==> row in s.queue)
    requires b == s.batch || exists h :: h in s.handled && h.rows == b
    ensures top.event.slot <= row.event.slot
  {
    hide Flatten;
    var waits := s.batch + s.queue;
    assert s.accepted == done + waits;
    if b == s.batch {
      var i :| 0 <= i < |s.batch| && s.batch[i] == top;
      var j :| 0 <= j < |s.queue| && s.queue[j] == row;
      assert s.accepted[|done| + i] == top && s.accepted[|done| + |s.batch| + j] == row;
    } else {
      var h :| h in s.handled && h.rows == b;
      var n :| 0 <= n < |s.handled| && s.handled[n] == h;
      assert RowsOf(s.handled)[n] == b;
      InFlatten(RowsOf(s.handled), top);
      var i :| 0 <= i < |done| && done[i] == top;
      var j :| 0 <= j < |waits| && waits[j] == row;
      assert s.accepted[i] == top && s.accepted[|done| + j] == row;
    }
  }

  /** Over every run that accepts its rows in slot order, from any tables and whatever fails and
      lands late: every accepted row below the checkpoint is stored exactly when those of the
      failed batches are, and, as long as nothing landed in this run and the checkpoint is an
      inherited one, the rows still waiting are too. */
  lemma ClaimHoldsInOrder(capacity: nat, start: Tables, head: nat, committed: nat, run: seq<Action>)
    requires StoreInv(start) && committed <= head
    requires Exec(Init(capacity, start, head, committed), run).Some?
    requires InOrder(Exec(Init(capacity, start, head, committed), run).value.accepted)
    ensures var s := Exec(Init(capacity, start, head, committed), run).value;
            ClaimHolds(s, false) <==>
              && AllStored(s, false, FailedRows(s.handled))
              && (s.landed == [] ==> AllStored(s, false, s.batch + s.queue))
  {
    InitInv(capacity, start, head, committed);
    InitLedger(capacity, start, head, committed);
    hide Inv, Ledger, Exec, StoreInv, FailedRows, InOrder, ClaimHolds, AllStored;
    var s0 := Init(capacity, start, head, committed);
    RunKeepsInv(s0, run);
    RunKeepsLedger(s0, start, run);
    var s := Exec(s0, run).value;
    ClaimHoldsExactly(s, start, false);
    if s.landed != [] {
      WaitingIsAbove(s, start);
    }
  }

  /** The documented form, with the checkpoint slot itself: once something landed, every accepted
      row up to the checkpoint is stored exactly when those of the failed batches are and no row
      of that very slot is still waiting unstored: its batch did not end inside the slot. */
  lemma FullyProcessedInOrder(capacity: nat, start: Tables, head: nat, committed: nat, run: seq<Action>)
    requires StoreInv(start) && committed <= head
    requires Exec(Init(capacity, start, head, committed), run).Some?
    requires InOrder(Exec(Init(capacity, start, head, committed), run).value.accepted)
    ensures var s := Exec(Init(capacity, start, head, committed), run).value;
            ClaimHolds(s, true) <==>
              && AllStored(s, true, FailedRows(s.handled))
              && if s.landed == [] then AllStored(s, true, s.batch + s.queue) else SlotFinished(s, s.batch + s.queue)
  {
    InitInv(capacity, start, head, committed);
    InitLedger(capacity, start, head, committed);
    hide Inv, Ledger, Exec, StoreInv, FailedRows, InOrder, ClaimHolds, AllStored, SlotFinished;
    var s0 := Init(capacity, start, head, committed);
    RunKeepsInv(s0, run);
    RunKeepsLedger(s0, start, run);
    var s := Exec(s0, run).value;
    ClaimHoldsExactly(s, start, true);
    if s.landed != [] {
      WaitingIsAbove(s, start);
    }
  }

  // ----- Two runs in which the claim is too strong -----

  /** A lost batch, then a committed one: the checkpoint stands above a row stored nowhere, not
      even among the dead letters. */
  lemma LostBelowCheckpoint(start: Tables, low: PendingWrite, high: PendingWrite)
    requires StoreInv(start) && SidesOk([low]) && SidesOk([high]) && low.event.slot < high.event.slot
    requires low.event.key != high.event.key && low.event.key !in start.events
    ensures var r := Exec(Init(1, start, 0, 0), RowRun(low, false) + RowRun(high, true));
            && r.Some? && r.value.store.checkpoint == Some(Checkpoint(high.event.slot, high.event.key.signature))
            && low in r.value.accepted && low.event.key !in r.value.store.events && !ClaimHolds(r.value, false)
            && r.value.store.deadLetters == start.deadLetters
  {
    InitInv(1, start, 0, 0);
    InitLedger(1, start, 0, 0);
    hide Inv, Exec, StoreInv, SidesOk, RowRun, Insert;
    var s0 := Init(1, start, 0, 0);
    RowRunWorks(s0, low, false);
    var s1 := Exec(s0, RowRun(low, false)).value;
    RowRunWorks(s1, high, true);
    ExecConcat(s0, RowRun(low, false), RowRun(high, true));
    var s2 := Exec(s0, RowRun(low, false) + RowRun(high, true)).value;
    RunKeepsLedger(s0, start, RowRun(low, false) + RowRun(high, true));
    assert s2.landed == [[high]];
    OneLanded(s2, start, high);
    assert ParkedLetters(s2.handled) == [] by { LostAndCommitted(s2.handled, low, high); }
    assert low in s2.accepted;
  }

  lemma LostAndCommitted(handled: seq<Handled>, low: PendingWrite, high: PendingWrite)
    requires handled == [] + [Handled([low], Failed(false, false, None))] + [Handled([high], Committed)]
    ensures ParkedLetters(handled) == []
  {
    ParkedLettersSnoc([] + [Handled([low], Failed(false, false, None))], Handled([high], Committed));
    ParkedLettersSnoc([], Handled([low], Failed(false, false, None)));
  }

  lemma OneLanded(s: State, start: Tables, row: PendingWrite)
    requires Ledger(s, start) && s.landed == [[row]]
    ensures s.store.checkpoint == Some(Checkpoint(row.event.slot, row.event.key.signature))
    ensures forall k :: k in s.store.events ==> k in start.events || k == row.event.key
  {
    hide Insert;
    assert Flatten([[row]]) == [row] + Flatten<PendingWrite>([]) == [row];
    forall k | k in s.store.events && k !in start.events ensures k == row.event.key {
      InsertSource(start.events, EventPairs([row]), k);
    }
  }

  /** The checkpoint slot itself need not be finished, even without faults: a batch may end
      between two rows of one slot. */
  lemma SlotSplitByBatch(start: Tables, first: PendingWrite, second: PendingWrite)
    requires StoreInv(start) && SidesOk([first]) && first.event.slot == second.event.slot
    requires first.event.key != second.event.key && second.event.key !in start.events
    ensures var r := Exec(Init(1, start, 0, 0), RowRun(first, true) + [Check(second), Send(0)]);
            && r.Some? && (forall h :: h in r.value.handled ==> h.fate == Committed)
            && r.value.store.checkpoint == Some(Checkpoint(second.event.slot, first.event.key.signature))
            && second in r.value.accepted && second.event.key !in r.value.store.events
            && ClaimHolds(r.value, false) && !ClaimHolds(r.value, true)
  {
    InitInv(1, start, 0, 0);
    InitLedger(1, start, 0, 0);
    hide Inv, Exec, StoreInv, SidesOk, RowRun, Insert, Idle;
    var s0 := Init(1, start, 0, 0);
    assert Idle(s0) by { StartIdle(start); }
    RowRunWorks(s0, first, true);
    var s1 := Exec(s0, RowRun(first, true)).value;
    RunKeepsLedger(s0, start, RowRun(first, true));
    ExecConcat(s0, RowRun(first, true), [Check(second), Send(0)]);
    Queued(s1, second);
    assert s1.landed == [[first]];
    OneLanded(s1, start, first);
    hide ClaimHolds, Ledger;
    var s2 := Exec(s0, RowRun(first, true) + [Check(second), Send(0)]).value;
    SlotUnfinished(s2, first, second);
  }

  lemma SlotUnfinished(s: State, first: PendingWrite, second: PendingWrite)
    requires s.accepted == [first, second] && s.store.checkpoint.Some?
    requires first.event.slot == second.event.slot == s.store.checkpoint.value.slot
    requires second.event.key !in s.store.events
    ensures ClaimHolds(s, false) && !ClaimHolds(s, true)
  {
    assert second in s.accepted;
  }

  lemma StartIdle(start: Tables)
    ensures Idle(Init(1, start, 0, 0))
  {}

  /** One row goes into the channel of an idle system. */
  lemma Queued(s: State, row: PendingWrite)
    requires Idle(s)
    ensures var r := Exec(s, [Check(row), Send(0)]);
            && r.Some? && r.value.store == s.store
            && r.value.accepted == s.accepted + [row] && r.value.handled == s.handled
  {
    hide Exec, CommitBatch;
    var s1 := Next(s, Check(row));
    assert s1.inHand == [row];
    assert [Check(row), Send(0)] == [Check(row)] + [Send(0)];
    ExecCons(s, Check(row), [Send(0)]);
    ExecOne(s1, Send(0));
  }
}
