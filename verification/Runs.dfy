/** Whole runs of the writer protocol: what holds after any number of actions. */
module Runs {
  import opened Rows
  import opened Store
  import opened Protocol

  /** The state after a run, or None if some action was not possible. */
  function Exec(s: State, run: seq<Action>): Option<State>
    decreases |run|
  {
    if run == [] then Some(s)
    else if BatchesNonempty(s) && Enabled(s, run[0]) then Exec(Next(s, run[0]), run[1..])
    else None
  }

  lemma ExecNil(s: State)
    ensures Exec(s, []) == Some(s)
  {}

  lemma ExecCons(s: State, a: Action, rest: seq<Action>)
    requires BatchesNonempty(s) && Enabled(s, a)
    ensures Exec(s, [a] + rest) == Exec(Next(s, a), rest)
  {
    assert ([a] + rest)[1..] == rest;
  }

  lemma ExecOne(s: State, a: Action)
    requires BatchesNonempty(s) && Enabled(s, a)
    ensures Exec(s, [a]) == Some(Next(s, a))
  {
    assert [a][1..] == [];
    ExecNil(Next(s, a));
  }

  lemma {:induction false} ExecConcat(s: State, a: seq<Action>, b: seq<Action>)
    requires Exec(s, a).Some?
    ensures Exec(s, a + b) == Exec(Exec(s, a).value, b)
    decreases |a|
  {
    if a == [] {
      assert a + b == b;
    } else {
      assert (a + b)[1..] == a[1..] + b;
      ExecConcat(Next(s, a[0]), a[1..], b);
    }
  }

  lemma ExtendsTransitive<K, V>(a: map<K, V>, b: map<K, V>, c: map<K, V>)
    requires Extends(a, b) && Extends(b, c)
    ensures Extends(a, c)
  {
    forall k | k in a ensures k in c && c[k] == a[k] { assert k in b; }
  }

  /** Conservation, batch sizes, single landing, the head lead and the store invariant hold
      after every run, and events and trades only grow. */
  lemma {:induction false} RunKeepsInv(s: State, run: seq<Action>)
    requires Inv(s) && Exec(s, run).Some?
    ensures Inv(Exec(s, run).value)
    ensures Extends(s.store.events, Exec(s, run).value.store.events)
    ensures Extends(s.store.trades, Exec(s, run).value.store.trades)
    decreases |run|
  {
    hide Inv;
    if run != [] {
      var s' := Next(s, run[0]);
      InvStep(s, run[0]);
      RunKeepsInv(s', run[1..]);
      var t := Exec(s', run[1..]).value;
      ExtendsTransitive(s.store.events, s'.store.events, t.store.events);
      ExtendsTransitive(s.store.trades, s'.store.trades, t.store.trades);
    }
  }

  // ----- The ledger: the store is a function of what landed and what was parked -----

  function ParkedLetters(handled: seq<Handled>): seq<DeadLetter> {
    if handled == [] then []
    else
      var n := |handled| - 1;
      var h := handled[n];
      ParkedLetters(handled[..n])
      + if h.fate.Failed? && h.fate.parked.Some? then Letters(h.rows, h.fate.parked.value) else []
  }

  lemma ParkedLettersSnoc(handled: seq<Handled>, h: Handled)
    ensures ParkedLetters(handled + [h]) == ParkedLetters(handled)
              + if h.fate.Failed? && h.fate.parked.Some? then Letters(h.rows, h.fate.parked.value) else []
  {
    assert (handled + [h])[..|handled|] == handled;
  }

  /** The tables hold the starting rows plus every landed row, first writer first; the
      checkpoint is the newest row of the batch that landed last. */
  predicate Ledger(s: State, start: Tables) {
    && s.store.events == Insert(start.events, EventPairs(Flatten(s.landed)))
    && s.store.trades == Insert(start.trades, TradePairs(Flatten(s.landed)))
    && s.store.deadLetters == start.deadLetters + ParkedLetters(s.handled)
    && s.store.pools == start.pools && s.store.gaps == start.gaps
    && (s.landed == [] ==> s.store.checkpoint == start.checkpoint)
    && (s.landed != [] ==> var b := s.landed[|s.landed| - 1]; b != [] && s.store.checkpoint == Some(CheckpointOf(b)))
  }

  lemma LandInLedger(start: Tables, t: Tables, landed: seq<seq<PendingWrite>>, batch: seq<PendingWrite>)
    requires batch != []
    requires t.events == Insert(start.events, EventPairs(Flatten(landed)))
    requires t.trades == Insert(start.trades, TradePairs(Flatten(landed)))
    ensures CommitBatch(t, batch).events == Insert(start.events, EventPairs(Flatten(landed + [batch])))
    ensures CommitBatch(t, batch).trades == Insert(start.trades, TradePairs(Flatten(landed + [batch])))
  {
    FlattenSnoc(landed, batch);
    EventPairsConcat(Flatten(landed), batch);
    TradePairsConcat(Flatten(landed), batch);
    InsertConcat(start.events, EventPairs(Flatten(landed)), EventPairs(batch));
    InsertConcat(start.trades, TradePairs(Flatten(landed)), TradePairs(batch));
  }

  lemma LandKeepsLedger(s: State, start: Tables, batch: seq<PendingWrite>)
    requires Ledger(s, start) && batch != []
    ensures Ledger(Land(s, batch), start)
  {
    LandInLedger(start, s.store, s.landed, batch);
  }

  lemma SettleKeepsLedger(s: State, start: Tables, last: bool, fate: Fate, letters: seq<DeadLetter>)
    requires Ledger(s, start)
    requires letters == if fate.Failed? && fate.parked.Some? then Letters(s.batch, fate.parked.value) else []
    ensures Ledger(Settle(s.(store := s.store.(deadLetters := s.store.deadLetters + letters)), last, fate), start)
  {
    hide Insert, EventPairs, TradePairs, CheckpointOf, Flatten, ParkedLetters, Letters;
    ParkedLettersSnoc(s.handled, Handled(s.batch, fate));
  }

  lemma CommitKeepsLedger(s: State, start: Tables)
    requires Ledger(s, start) && BatchesNonempty(s) && Enabled(s, Commit)
    ensures Ledger(Next(s, Commit), start)
  {
    hide SidesOk, CommitBatch, Newest, Ledger;
    LandKeepsLedger(s, start, s.batch);
    var s' := Land(s, s.batch);
    GaugeKeepsLedger(s', start, Max(s.committed, CheckpointOf(s.batch).slot));
    SettleKeepsLedger(s'.(committed := Max(s.committed, CheckpointOf(s.batch).slot)), start,
                      s.phase.last, Committed, []);
    assert s'.store.(deadLetters := s'.store.deadLetters + []) == s'.store;
  }

  lemma GaugeKeepsLedger(s: State, start: Tables, committed: nat)
    requires Ledger(s, start)
    ensures Ledger(s.(committed := committed), start)
  {}

  lemma ParkKeepsLedger(s: State, start: Tables, a: Action)
    requires Ledger(s, start) && BatchesNonempty(s) && Enabled(s, a) && (a.Park? || a.ParkFail?)
    ensures Ledger(Next(s, a), start)
  {
    hide Ledger, Letters;
    if a.Park? {
      var fate := Failed(s.phase.timedOut, s.phase.atCommit, Some(a.error));
      SettleKeepsLedger(s, start, s.phase.last, fate, Letters(s.batch, a.error));
    } else {
      SettleKeepsLedger(s, start, s.phase.last, Failed(s.phase.timedOut, s.phase.atCommit, None), []);
      assert s.store.(deadLetters := s.store.deadLetters + []) == s.store;
    }
  }

  lemma LateKeepsLedger(s: State, start: Tables, i: nat)
    requires Ledger(s, start) && BatchesNonempty(s) && i < |s.limbo|
    ensures Ledger(Next(s, LandLate(i)), start)
  {
    hide Ledger, CommitBatch;
    LandKeepsLedger(s, start, s.limbo[i]);
    LimboKeepsLedger(Land(s, s.limbo[i]), start, Without(s.limbo, i));
  }

  lemma LimboKeepsLedger(s: State, start: Tables, limbo: seq<seq<PendingWrite>>)
    requires Ledger(s, start)
    ensures Ledger(s.(limbo := limbo), start)
  {}

  lemma QuietKeepsLedger(s: State, start: Tables, a: Action)
    requires Ledger(s, start) && BatchesNonempty(s) && Enabled(s, a)
    requires a.Check? || a.Send? || a.DropSenders? || a.Receive? || a.Tick? || a.Fail?
    ensures Ledger(Next(s, a), start)
  {
    hide Insert, EventPairs, TradePairs, ParkedLetters, CheckpointOf, Flatten, SidesOk;
  }

  lemma LedgerStep(s: State, start: Tables, a: Action)
    requires Ledger(s, start) && BatchesNonempty(s) && Enabled(s, a)
    ensures Ledger(Next(s, a), start)
  {
    hide Ledger, Next, SidesOk;
    if a.Commit? {
      CommitKeepsLedger(s, start);
    } else if a.LandLate? {
      LateKeepsLedger(s, start, a.i);
    } else if a.Park? || a.ParkFail? {
      ParkKeepsLedger(s, start, a);
    } else {
      QuietKeepsLedger(s, start, a);
    }
  }

  lemma Advance(s: State, start: Tables, a: Action)
    requires Inv(s) && Ledger(s, start) && Enabled(s, a)
    ensures BatchesNonempty(s)
    ensures Inv(Next(s, a)) && Ledger(Next(s, a), start)
  {
    hide Ledger, LandedOnce, HeadLeads, StoreInv, Conserved;
    InvStep(s, a);
    LedgerStep(s, start, a);
  }

  lemma {:induction false} RunKeepsLedger(s: State, start: Tables, run: seq<Action>)
    requires Inv(s) && Ledger(s, start) && Exec(s, run).Some?
    ensures Ledger(Exec(s, run).value, start)
    ensures var e := Exec(s, run).value;
            e.landed != [] ==>
              e.store.checkpoint.Some? && NamesNewest(e.store.checkpoint.value, e.landed[|e.landed| - 1])
    decreases |run|
  {
    hide Inv, Ledger, NamesNewest;
    LedgerNamesNewest(s, start);
    if run != [] {
      LedgerStep(s, start, run[0]);
      InvStep(s, run[0]);
      RunKeepsLedger(Next(s, run[0]), start, run[1..]);
    }
  }

  lemma LedgerNamesNewest(s: State, start: Tables)
    requires Ledger(s, start)
    ensures s.landed != [] ==>
              s.store.checkpoint.Some? && NamesNewest(s.store.checkpoint.value, s.landed[|s.landed| - 1])
  {
    hide Insert, NamesNewest, CheckpointOf;
    if s.landed != [] { CheckpointNamesNewest(s.landed[|s.landed| - 1]); }
  }

  lemma InitLedger(capacity: nat, start: Tables, head: nat, committed: nat)
    ensures Ledger(Init(capacity, start, head, committed), start)
  {
    var none: seq<seq<PendingWrite>> := [];
    assert Flatten(none) == [];
    assert EventPairs([]) == [] && TradePairs([]) == [];
    assert start.deadLetters + [] == start.deadLetters;
  }

  // ----- Where each accepted row is -----

  lemma {:induction false} AttemptSource(handled: seq<Handled>, b: seq<PendingWrite>)
    requires b in Attempts(handled)
    ensures exists h :: h in handled && h.rows == b && SentCommit(h)
  {
    var n := |handled| - 1;
    if b in Attempts(handled[..n]) {
      AttemptSource(handled[..n], b);
    } else {
      assert handled[n].rows == b;
    }
  }

  /** Only accepted rows ever reach the tables. */
  lemma LandedWasAccepted(s: State, row: PendingWrite)
    requires Inv(s) && row in Flatten(s.landed)
    ensures row in s.accepted
  {
    InFlatten(s.landed, row);
    var b :| b in s.landed && row in b;
    assert b in multiset(s.landed) + multiset(s.limbo);
    if b in OpenAttempt(s) {
      assert b == s.batch;
    } else {
      AttemptSource(s.handled, b);
      var h :| h in s.handled && h.rows == b;
      var i :| 0 <= i < |s.handled| && s.handled[i] == h;
      assert RowsOf(s.handled)[i] == b;
      InFlatten(RowsOf(s.handled), row);
    }
  }

  /** Every batch counted as committed is in the tables; every parked batch is, row for row,
      among the dead letters; a batch neither committed nor parked is reported lost. */
  lemma HandledAccounted(s: State, start: Tables, h: Handled)
    requires Inv(s) && Ledger(s, start) && h in s.handled
    ensures 1 <= |h.rows| <= 100
    ensures h.fate.Committed? ==> forall row :: row in h.rows ==> row.event.key in s.store.events
    ensures h.fate.Failed? && h.fate.parked.Some? ==>
              forall l :: l in Letters(h.rows, h.fate.parked.value) ==> l in s.store.deadLetters
  {
    if h.fate.Committed? {
      assert h.rows in s.landed;
      InsertKeeps(start.events, EventPairs(Flatten(s.landed)));
      forall row | row in h.rows ensures row.event.key in s.store.events {
        InFlatten(s.landed, row);
        var i :| 0 <= i < |Flatten(s.landed)| && Flatten(s.landed)[i] == row;
        assert EventPairs(Flatten(s.landed))[i].0 == row.event.key;
      }
    } else if h.fate.parked.Some? {
      ParkedIn(s.handled, h);
    }
  }

  lemma {:induction false} ParkedIn(handled: seq<Handled>, h: Handled)
    requires h in handled && h.fate.Failed? && h.fate.parked.Some?
    ensures forall l :: l in Letters(h.rows, h.fate.parked.value) ==> l in ParkedLetters(handled)
  {
    var n := |handled| - 1;
    if handled[n] != h {
      assert handled == handled[..n] + [handled[n]];
      ParkedIn(handled[..n], h);
    }
  }

  // ----- Shutdown -----

  /** Work left before the task can stop. */
  function Rank(s: State): nat {
    match s.phase
    case Stopped => 0
    case Waiting => 5 * |s.queue| + if s.batch != [] then 5 else 1
    case Writing(_) => 5 * |s.queue| + 4
    case Parking(_, _, _) => 5 * |s.queue| + 3
  }

  /** An action of the writer task that gets it closer to stopping: everything but a tick
      over an empty batch. */
  predicate WriterWorks(s: State, a: Action) {
    a.Receive? || a.Commit? || a.Fail? || a.Park? || a.ParkFail? || (a.Tick? && s.batch != [])
  }

  lemma NeverStuck(s: State)
    requires BatchesNonempty(s) && !s.senders && s.phase != Stopped
    ensures exists b :: Enabled(s, b) && WriterWorks(s, b)
  {
    hide SidesOk;
    if s.phase == Waiting {
      assert Enabled(s, Receive) && WriterWorks(s, Receive);
    } else if s.phase.Writing? {
      assert Enabled(s, Fail(true, false)) && WriterWorks(s, Fail(true, false));
    } else {
      assert Enabled(s, ParkFail) && WriterWorks(s, ParkFail);
    }
  }

  lemma RankFalls(s: State, a: Action)
    requires Shape(s) && !s.senders && Enabled(s, a)
    ensures !Next(s, a).senders
    ensures WriterWorks(s, a) ==> Rank(Next(s, a)) < Rank(s)
    ensures !WriterWorks(s, a) ==> Rank(Next(s, a)) == Rank(s)
  {
    hide SidesOk, CommitBatch, Letters, Newest;
  }

  /** Once the senders are gone: the writer is never stuck before it stopped, each working
      action lowers the rank, and nothing raises it. */
  lemma ShutdownProgress(s: State, a: Action)
    requires Inv(s) && !s.senders
    ensures s.phase != Stopped ==> exists b :: Enabled(s, b) && WriterWorks(s, b)
    ensures Enabled(s, a) ==> !Next(s, a).senders
    ensures Enabled(s, a) && WriterWorks(s, a) ==> Rank(Next(s, a)) < Rank(s)
    ensures Enabled(s, a) && !WriterWorks(s, a) ==> Rank(Next(s, a)) == Rank(s)
  {
    hide LandedOnce, StoreInv, HeadLeads, Conserved, Rank, WriterWorks, Enabled, Next;
    if s.phase != Stopped { NeverStuck(s); }
    if Enabled(s, a) { RankFalls(s, a); }
  }

  /** How many actions of a run are working actions of the writer. */
  function Works(s: State, run: seq<Action>): nat
    requires Exec(s, run).Some?
    decreases |run|
  {
    if run == [] then 0
    else (if WriterWorks(s, run[0]) then 1 else 0) + Works(Next(s, run[0]), run[1..])
  }

  /** After the last sender is dropped the writer stops within `Rank` working actions,
      whatever else is interleaved, and then nothing accepted is left in queue or batch. */
  lemma {:induction false} ShutdownTerminates(s: State, run: seq<Action>)
    requires Inv(s) && !s.senders && Exec(s, run).Some?
    ensures Works(s, run) + Rank(Exec(s, run).value) <= Rank(s)
    ensures var e := Exec(s, run).value;
            (e.phase == Stopped <==> Rank(e) == 0)
            && (e.phase == Stopped ==> e.accepted == Flatten(RowsOf(e.handled)) && e.queue == [] && e.batch == [])
    decreases |run|
  {
    hide Conserved, LandedOnce, HeadLeads, StoreInv, WriterWorks, Enabled, Next;
    RunKeepsInv(s, run);
    if run != [] {
      InvStep(s, run[0]);
      ShutdownProgress(s, run[0]);
      ShutdownTerminates(Next(s, run[0]), run[1..]);
    }
    if Exec(s, run).value.phase == Stopped {
      StoppedHandledAll(Exec(s, run).value);
    }
  }

  lemma StoppedHandledAll(s: State)
    requires Inv(s) && s.phase == Stopped
    ensures s.accepted == Flatten(RowsOf(s.handled)) && s.queue == [] && s.batch == []
  {
    assert Flatten(RowsOf(s.handled)) + [] + [] == Flatten(RowsOf(s.handled));
  }

  /** `Writer::send` finds the channel closed only after every sender is gone, so no row is
      ever refused by it. */
  lemma SendNeverRefused(s: State, run: seq<Action>)
    requires Inv(s) && Exec(s, run).Some? && Exec(s, run).value.senders
    ensures Exec(s, run).value.phase != Stopped
  {
    RunKeepsInv(s, run);
  }

  /** `commit_lag_slots`, with its saturating subtraction. */
  function CommitLag(head: nat, committed: nat): nat {
    if committed == 0 then 0
    else if head < committed then 0
    else head - committed
  }

  predicate ChecksBelow(run: seq<Action>, slot: nat) {
    forall i :: 0 <= i < |run| && run[i].Check? ==> run[i].row.event.slot <= slot
  }

  predicate ChecksReach(run: seq<Action>, slot: nat) {
    exists i :: 0 <= i < |run| && run[i].Check? && run[i].row.event.slot == slot
  }

  lemma ChecksCons(run: seq<Action>, slot: nat)
    requires run != []
    ensures ChecksBelow(run, slot) <==> ChecksBelow(run[1..], slot) && (run[0].Check? ==> run[0].row.event.slot <= slot)
    ensures ChecksReach(run[1..], slot) || (run[0].Check? && run[0].row.event.slot == slot) ==> ChecksReach(run, slot)
  {
    assert forall i :: 0 < i < |run| ==> run[i] == run[1..][i - 1];
    if ChecksReach(run[1..], slot) {
      var i :| 0 <= i < |run[1..]| && run[1..][i].Check? && run[1..][i].row.event.slot == slot;
      assert run[i + 1].row.event.slot == slot;
    }
  }

  /** HEAD_SLOT after a run: the highest slot that was checked, unless it was higher before. */
  lemma {:induction false} RunHead(s: State, run: seq<Action>)
    requires Inv(s) && Exec(s, run).Some?
    ensures var e := Exec(s, run).value;
            s.head <= e.head && ChecksBelow(run, e.head) && (e.head == s.head || ChecksReach(run, e.head))
    decreases |run|
  {
    hide Inv, ChecksBelow, ChecksReach, Tops, Reaches;
    if run == [] {
      assert ChecksBelow([], s.head) by { NoChecks(s.head); }
    } else {
      InvStep(s, run[0]);
      GaugeStep(s, run[0]);
      RunHead(Next(s, run[0]), run[1..]);
      ChecksCons(run, Exec(s, run).value.head);
    }
  }

  lemma NoChecks(slot: nat)
    ensures ChecksBelow([], slot)
  {}

  /** COMMITTED_SLOT after a run: the highest slot of a committed batch, unless it was higher
      before. */
  lemma {:induction false} RunCommitted(s: State, run: seq<Action>)
    requires Inv(s) && Exec(s, run).Some?
    ensures var e := Exec(s, run).value;
            && s.handled <= e.handled && s.committed <= e.committed
            && Tops(e.handled[|s.handled|..], e.committed)
            && (e.committed == s.committed || Reaches(e.handled[|s.handled|..], e.committed))
    decreases |run|
  {
    hide Inv, Tops, Reaches, Next, Enabled;
    if run == [] {
      assert s.handled[|s.handled|..] == [];
      NothingNew(s.committed);
    } else {
      var s' := Next(s, run[0]);
      InvStep(s, run[0]);
      GaugeStep(s, run[0]);
      RunCommitted(s', run[1..]);
      var e := Exec(s', run[1..]).value;
      var more, rest := s'.handled[|s.handled|..], e.handled[|s'.handled|..];
      assert e.handled[|s.handled|..] == more + rest;
      TopsJoin(more, rest, s'.committed, e.committed);
    }
  }

  /** What the gauges show after a run. */
  lemma RunGauges(s: State, run: seq<Action>)
    requires Inv(s) && Exec(s, run).Some?
    ensures var e := Exec(s, run).value;
            && s.head <= e.head && s.committed <= e.committed && s.handled <= e.handled
            && (forall i :: 0 <= i < |run| && run[i].Check? ==> run[i].row.event.slot <= e.head)
            && (e.head == s.head || exists i :: 0 <= i < |run| && run[i].Check? && run[i].row.event.slot == e.head)
            && (forall h, row :: h in e.handled[|s.handled|..] && h.fate.Committed? && row in h.rows ==>
                  row.event.slot <= e.committed)
            && (e.committed == s.committed
                || exists h, row :: h in e.handled[|s.handled|..] && h.fate.Committed? && row in h.rows
                                    && row.event.slot == e.committed)
  {
    hide Inv, Exec;
    RunHead(s, run);
    RunCommitted(s, run);
  }

  /** No row of a committed batch is above this slot. */
  predicate Tops(handled: seq<Handled>, slot: nat) {
    forall h, row :: h in handled && h.fate.Committed? && row in h.rows ==> row.event.slot <= slot
  }

  predicate Reaches(handled: seq<Handled>, slot: nat) {
    exists h, row :: h in handled && h.fate.Committed? && row in h.rows && row.event.slot == slot
  }

  lemma NothingNew(slot: nat)
    ensures Tops([], slot)
  {}

  lemma TopsJoin(a: seq<Handled>, b: seq<Handled>, low: nat, slot: nat)
    requires low <= slot
    ensures Tops(a, low) && Tops(b, slot) ==> Tops(a + b, slot)
    ensures Reaches(a, slot) || Reaches(b, slot) ==> Reaches(a + b, slot)
  {
    if Reaches(a, slot) {
      var h, row :| h in a && h.fate.Committed? && row in h.rows && row.event.slot == slot;
      assert h in a + b;
    }
    if Reaches(b, slot) {
      var h, row :| h in b && h.fate.Committed? && row in h.rows && row.event.slot == slot;
      assert h in a + b;
    }
  }

  lemma GaugeStep(s: State, a: Action)
    requires Inv(s) && Enabled(s, a) && BatchesNonempty(s)
    ensures var t := Next(s, a);
            && s.head <= t.head && (t.head == s.head || (a.Check? && a.row.event.slot == t.head))
            && (a.Check? ==> a.row.event.slot <= t.head)
            && s.handled <= t.handled && s.committed <= t.committed
            && Tops(t.handled[|s.handled|..], t.committed)
            && (t.committed == s.committed || Reaches(t.handled[|s.handled|..], t.committed))
  {
    hide Inv, CommitBatch, SidesOk, Letters;
    var t := Next(s, a);
    if a.Commit? {
      assert t.handled[|s.handled|..] == [Handled(s.batch, Committed)];
      CheckpointNamesNewest(s.batch);
      OneCommitted(s.batch, s.committed, t.committed);
    } else if a.Park? || a.ParkFail? {
      assert |t.handled[|s.handled|..]| == 1;
      assert forall h :: h in t.handled[|s.handled|..] ==> !h.fate.Committed?;
    } else {
      assert t.handled[|s.handled|..] == [];
    }
  }

  lemma OneCommitted(batch: seq<PendingWrite>, before: nat, after: nat)
    requires batch != [] && NamesNewest(CheckpointOf(batch), batch)
    requires after == if before < CheckpointOf(batch).slot then CheckpointOf(batch).slot else before
    ensures Tops([Handled(batch, Committed)], after)
    ensures after == before || Reaches([Handled(batch, Committed)], after)
  {
    var c := CheckpointOf(batch);
    hide CheckpointOf;
    var hs := [Handled(batch, Committed)];
    forall h, row | h in hs && row in h.rows ensures row.event.slot <= after {
      assert h.rows == batch;
      var j :| 0 <= j < |batch| && batch[j] == row;
    }
    if after != before {
      var i :| 0 <= i < |batch| && batch[i].event.slot == c.slot;
      assert hs[0] in hs && batch[i] in hs[0].rows;
    }
  }

  /** COMMITTED_SLOT <= HEAD_SLOT in every reachable state, so the subtraction never saturates. */
  lemma LagNeverSaturates(s: State, run: seq<Action>)
    requires Inv(s) && Exec(s, run).Some?
    ensures var e := Exec(s, run).value;
            && e.committed <= e.head
            && (e.committed != 0 ==> e.committed + CommitLag(e.head, e.committed) == e.head)
            && (e.committed == 0 ==> CommitLag(e.head, e.committed) == 0)
  {
    RunKeepsInv(s, run);
  }
}
