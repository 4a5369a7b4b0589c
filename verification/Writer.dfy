/** The writer task of `writer.rs`, refining the transition system of `Protocol`. */
module Writer {
  import opened Rows
  import opened Store
  import opened Protocol
  import opened Runs
  import opened Database

  /** What the database does to one flush: nothing, an error at one of the five awaits of
      `write_batch`, or silence at one of them until the timeout. `parks` says whether the
      dead letters can be written. */
  datatype Verdict = Fine | Refused(at: nat) | Hung(at: nat)
  datatype Weather = Weather(verdict: Verdict, parks: bool)

  const AT_TRADES := 2
  const AT_COMMIT := 4

  datatype Outcome = Done | Error(atCommit: bool) | TimedOut(atCommit: bool)

  const ERROR_TEXT := "error returned by the database"
  const TIMEOUT_TEXT := "flush timed out after 10s"

  /** How a flush of this batch ends: the CHECK constraint refuses a bad side at the trades
      statement whatever the weather says about later awaits. */
  function OutcomeOf(batch: seq<PendingWrite>, v: Verdict): Outcome {
    match v
    case Refused(at) =>
      if at <= AT_TRADES then Error(false)
      else if !SidesOk(batch) then Error(false)
      else if at <= AT_COMMIT then Error(at == AT_COMMIT) else Done
    case Hung(at) =>
      if at <= AT_TRADES then TimedOut(false)
      else if !SidesOk(batch) then Error(false)
      else if at <= AT_COMMIT then TimedOut(at == AT_COMMIT) else Done
    case Fine => if SidesOk(batch) then Done else Error(false)
  }

  /** The actions of the protocol that one flush performs. */
  function FlushRun(batch: seq<PendingWrite>, w: Weather): seq<Action> {
    match OutcomeOf(batch, w.verdict)
    case Done => [Commit]
    case Error(c) => [Fail(false, c), if w.parks then Park(ERROR_TEXT) else ParkFail]
    case TimedOut(c) => [Fail(true, c), if w.parks then Park(TIMEOUT_TEXT) else ParkFail]
  }

  function FlushFate(batch: seq<PendingWrite>, w: Weather): Fate {
    match OutcomeOf(batch, w.verdict)
    case Done => Committed
    case Error(c) => Failed(false, c, if w.parks then Some(ERROR_TEXT) else None)
    case TimedOut(c) => Failed(true, c, if w.parks then Some(TIMEOUT_TEXT) else None)
  }

  /** What becomes of a batch: it is committed unless a side is illegal or the database fails at
      one of the five awaits (begin, events, trades, checkpoint, commit); a failure is a timeout
      if the database hung, COMMIT was sent only if it is the last await that failed, and the
      batch is parked with the text of the failure if the dead letters can be written. */
  lemma FateMeaning(batch: seq<PendingWrite>, w: Weather)
    ensures var fate, v := FlushFate(batch, w), w.verdict;
            && (fate.Committed? <==> SidesOk(batch) && (v.Fine? || v.at > 4))
            && (fate.Failed? ==>
                  && (fate.timedOut <==> v.Hung? && v.at <= 4 && (v.at <= 2 || SidesOk(batch)))
                  && (fate.atCommit <==> SidesOk(batch) && v.at == 4)
                  && fate.parked == if !w.parks then None
                                    else if fate.timedOut then Some("flush timed out after 10s")
                                    else Some("error returned by the database"))
  {}

  /** The state after a flush of a nonempty batch that does not end the task. */
  function Flushed(s: State, w: Weather): State
    requires s.batch != []
  {
    var fate := FlushFate(s.batch, w);
    if fate == Committed then
      Settle(Land(s, s.batch).(committed := Max(s.committed, CheckpointOf(s.batch).slot)), false, fate)
    else
      var letters := if fate.parked.Some? then Letters(s.batch, fate.parked.value) else [];
      Settle(s.(store := s.store.(deadLetters := s.store.deadLetters + letters),
                limbo := if fate.atCommit then s.limbo + [s.batch] else s.limbo),
             false, fate)
  }

  /** A flush is a run of the protocol. */
  lemma FlushedIsRun(s: State, w: Weather, last: bool)
    requires s.batch != [] && BatchesNonempty(s)
    ensures Exec(s.(phase := Writing(last)), FlushRun(s.batch, w))
            == Some(Flushed(s, w).(phase := if last then Stopped else Waiting))
    ensures BatchesNonempty(Flushed(s, w))
  {
    hide CommitBatch, Letters, SidesOk, Exec, Newest;
    var s0 := s.(phase := Writing(last));
    match OutcomeOf(s.batch, w.verdict)
    case Done =>
      assert [Commit] == [Commit] + [];
      ExecCons(s0, Commit, []);
      ExecNil(Next(s0, Commit));
    case Error(c) => FailedFlush(s, last, false, c, if w.parks then Some(ERROR_TEXT) else None);
    case TimedOut(c) => FailedFlush(s, last, true, c, if w.parks then Some(TIMEOUT_TEXT) else None);
  }

  lemma FailedFlush(s: State, last: bool, timedOut: bool, atCommit: bool, parked: Option<string>)
    requires s.batch != [] && BatchesNonempty(s) && (atCommit ==> SidesOk(s.batch))
    ensures
      var letters := if parked.Some? then Letters(s.batch, parked.value) else [];
      var s' := Settle(s.(store := s.store.(deadLetters := s.store.deadLetters + letters),
                          limbo := if atCommit then s.limbo + [s.batch] else s.limbo),
                       last, Failed(timedOut, atCommit, parked));
      var run := [Fail(timedOut, atCommit), if parked.Some? then Park(parked.value) else ParkFail];
      && Exec(s.(phase := Writing(last)), run) == Some(s')
      && BatchesNonempty(s')
  {
    hide CommitBatch, Letters, SidesOk, Exec;
    var s0, a1 := s.(phase := Writing(last)), if parked.Some? then Park(parked.value) else ParkFail;
    var s1 := Next(s0, Fail(timedOut, atCommit));
    assert BatchesNonempty(s1);
    assert [Fail(timedOut, atCommit), a1] == [Fail(timedOut, atCommit)] + ([a1] + []);
    ExecCons(s0, Fail(timedOut, atCommit), [a1] + []);
    ExecCons(s1, a1, []);
    ExecNil(Next(s1, a1));
    assert s.store.(deadLetters := s.store.deadLetters + []) == s.store;
  }

  /** One arm of the select loop: the action, and the flush it starts. */
  function TurnRun(s: State, a: Action, w: Weather): seq<Action>
    requires Enabled(s, a) && BatchesNonempty(s)
  {
    var s' := Next(s, a);
    [a] + if s'.phase.Writing? then FlushRun(s'.batch, w) else []
  }

  /** Where that arm ends. */
  lemma TurnIsRun(s: State, a: Action, w: Weather)
    requires BatchesNonempty(s) && Enabled(s, a) && (a.Receive? || a.Tick?)
    ensures var s' := Next(s, a);
            Exec(s, TurnRun(s, a, w)) == Some(
              if s'.phase.Writing? then
                Flushed(s'.(phase := Waiting), w).(phase := if s'.phase.last then Stopped else Waiting)
              else s')
  {
    hide SidesOk, Exec, FlushRun, Flushed;
    var s' := Next(s, a);
    if s'.phase.Writing? {
      assert s'.batch != [];
      ExecCons(s, a, FlushRun(s'.batch, w));
      FlushedIsRun(s'.(phase := Waiting), w, s'.phase.last);
      assert s'.(phase := Waiting).(phase := Writing(s'.phase.last)) == s';
    } else {
      ExecCons(s, a, []);
      ExecNil(s');
    }
  }

  lemma LedgerPhase(s: State, start: Tables, phase: Phase)
    requires Ledger(s, start)
    ensures Ledger(s.(phase := phase), start)
  {}

  lemma StopKeeps(s: State)
    requires Inv(s) && s.phase == Waiting && s.batch == [] && s.queue == [] && !s.senders
    ensures Inv(s.(phase := Stopped))
  {}

  /** A flush keeps the invariants. */
  lemma FlushKeeps(s: State, start: Tables, w: Weather)
    requires s.batch != [] && s.phase == Waiting && Inv(s.(phase := Writing(false))) && Ledger(s, start)
    ensures Inv(Flushed(s, w)) && Ledger(Flushed(s, w), start)
    ensures StoreInv(Flushed(s, w).store) && Flushed(s, w).store.gaps == s.store.gaps
  {
    assert BatchesNonempty(s);
    assert Flushed(s, w).store.gaps == s.store.gaps;
    hide SidesOk, Exec, FlushRun, CommitBatch, Flushed, Inv, Ledger;
    FlushedIsRun(s, w, false);
    LedgerPhase(s, start, Writing(false));
    RunKeepsInv(s.(phase := Writing(false)), FlushRun(s.batch, w));
    RunKeepsLedger(s.(phase := Writing(false)), start, FlushRun(s.batch, w));
    FlushedWaits(s, w);
    assert Flushed(s, w).(phase := Waiting) == Flushed(s, w);
    InvStore(Flushed(s, w));
  }

  lemma InvStore(s: State)
    requires Inv(s)
    ensures StoreInv(s.store)
  {}

  lemma FlushedWaits(s: State, w: Weather)
    requires s.batch != []
    ensures Flushed(s, w).phase == Waiting && Flushed(s, w).batch == []
    ensures Flushed(s, w).queue == s.queue && Flushed(s, w).senders == s.senders
  {}

  /** Between turns a nonempty batch may be flushed. */
  lemma FlushReady(s: State, start: Tables)
    requires Inv(s) && Ledger(s, start) && s.phase == Waiting && s.batch != []
    ensures Inv(s.(phase := Writing(false))) && Ledger(s.(phase := Writing(false)), start)
  {}

  lemma FlushedHandled(s: State, w: Weather)
    requires s.batch != []
    ensures Flushed(s, w).handled == s.handled + [Handled(s.batch, FlushFate(s.batch, w))]
  {}

  lemma FlushedDone(s: State, w: Weather)
    requires s.batch != [] && OutcomeOf(s.batch, w.verdict) == Done
    ensures Flushed(s, w)
            == s.(batch := [], phase := Waiting, handled := s.handled + [Handled(s.batch, FlushFate(s.batch, w))],
                  store := CommitBatch(s.store, s.batch), landed := s.landed + [s.batch],
                  committed := Max(s.committed, CheckpointOf(s.batch).slot))
    ensures FlushFate(s.batch, w) == Committed
  {}

  lemma FlushedFailed(s: State, w: Weather, atCommit: bool, text: string)
    requires s.batch != []
    requires (OutcomeOf(s.batch, w.verdict) == Error(atCommit) && text == ERROR_TEXT)
             || (OutcomeOf(s.batch, w.verdict) == TimedOut(atCommit) && text == TIMEOUT_TEXT)
    ensures Flushed(s, w)
            == s.(batch := [], phase := Waiting, handled := s.handled + [Handled(s.batch, FlushFate(s.batch, w))],
                  store := s.store.(deadLetters := s.store.deadLetters
                                                   + if w.parks then Letters(s.batch, text) else []),
                  limbo := if atCommit then s.limbo + [s.batch] else s.limbo)
    ensures FlushFate(s.batch, w)
            == Failed(OutcomeOf(s.batch, w.verdict).TimedOut?, atCommit, if w.parks then Some(text) else None)
  {}

  lemma FlushCounts(handled: seq<Handled>, h: Handled)
    ensures Failures(handled + [h]) == Failures(handled) + if h.fate.Failed? then 1 else 0
    ensures |ParkedLetters(handled + [h])| == |ParkedLetters(handled)|
              + if h.fate.Failed? && h.fate.parked.Some? then |h.rows| else 0
  {
    assert (handled + [h])[..|handled|] == handled;
  }

  lemma LimboRows(s: State, i: nat)
    requires Inv(s) && i < |s.limbo|
    ensures s.limbo[i] != [] && SidesOk(s.limbo[i])
  {
    assert s.limbo[i] in s.limbo;
  }

  function Late(s: State, i: nat): State
    requires i < |s.limbo| && s.limbo[i] != []
  {
    s.(store := CommitBatch(s.store, s.limbo[i]), landed := s.landed + [s.limbo[i]],
       limbo := s.limbo[..i] + s.limbo[i + 1..])
  }

  lemma LateIs(s: State, i: nat)
    requires BatchesNonempty(s) && i < |s.limbo|
    ensures Next(s, LandLate(i)) == Late(s, i) && Enabled(s, LandLate(i))
    ensures Late(s, i).store.gaps == s.store.gaps
  {
    hide SidesOk;
  }

  /** A COMMIT that lands late keeps the invariants. */
  lemma LateKeeps(s: State, start: Tables, i: nat)
    requires Inv(s) && Ledger(s, start) && i < |s.limbo|
    ensures s.limbo[i] != [] && SidesOk(s.limbo[i])
    ensures Exec(s, [LandLate(i)]) == Some(Late(s, i)) && Inv(Late(s, i)) && Ledger(Late(s, i), start)
    ensures StoreInv(Late(s, i).store) && Late(s, i).store.gaps == s.store.gaps
  {
    LimboRows(s, i);
    LateIs(s, i);
    assert BatchesNonempty(s);
    hide Late, Next, Enabled, Exec, Inv, Ledger, SidesOk, StoreInv, BatchesNonempty;
    Advance(s, start, LandLate(i));
    InvStore(Late(s, i));
    ExecOne(s, LandLate(i));
  }

  /** The three statements of a transaction, and that none of its rows lacks its event. */
  lemma CommitParts(t: Tables, batch: seq<PendingWrite>)
    requires batch != []
    ensures KeysStored(batch, Insert(t.events, EventPairs(batch)))
    ensures CommitBatch(t, batch)
            == t.(events := Insert(t.events, EventPairs(batch)), trades := Insert(t.trades, TradePairs(batch)),
                  checkpoint := Some(CheckpointOf(batch)))
  {
    InsertKeeps(t.events, EventPairs(batch));
    hide Insert;
    forall i | 0 <= i < |batch| ensures batch[i].event.key in Insert(t.events, EventPairs(batch)) {
      assert EventPairs(batch)[i].0 == batch[i].event.key;
    }
  }

  /** The next pipeline of the process: a new task and channel, with the gauges and counters,
      and the COMMITs without an answer, as the last one left them. */
  function Reopened(s: State, capacity: nat): State {
    s.(capacity := capacity, senders := true, phase := Waiting)
  }

  lemma ReopenKeeps(s: State, start: Tables, capacity: nat)
    requires Inv(s) && Ledger(s, start) && s.phase == Stopped
    ensures Inv(Reopened(s, capacity)) && Ledger(Reopened(s, capacity), start)
    ensures s.batch == [] && s.queue == [] && s.inHand == []
  {
    hide Attempts, SidesOk, Insert;
  }

  /** Gap rows may change between two pipelines; the books do not speak of them. */
  lemma GapsApart(s: State, start: Tables, gaps: seq<GapRow>)
    requires Inv(s) && Ledger(s, start.(gaps := s.store.gaps)) && IdsIncrease(gaps)
    ensures var s' := s.(store := s.store.(gaps := gaps)); Inv(s') && Ledger(s', start.(gaps := gaps))
  {
    LedgerApart(s, start, gaps);
    hide LandedOnce, SidesOk, Ledger, Conserved, HeadLeads, Shape;
    StoreApart(s.store, gaps);
    PartsApart(s, gaps);
  }

  lemma StoreApart(t: Tables, gaps: seq<GapRow>)
    requires StoreInv(t) && IdsIncrease(gaps)
    ensures StoreInv(t.(gaps := gaps))
  {}

  lemma PartsApart(s: State, gaps: seq<GapRow>)
    requires LandedOnce(s) && Conserved(s) && HeadLeads(s) && Shape(s)
    ensures var s' := s.(store := s.store.(gaps := gaps)); LandedOnce(s') && Conserved(s') && HeadLeads(s') && Shape(s')
  {
    hide LandedOnceOf;
  }

  lemma LedgerApart(s: State, start: Tables, gaps: seq<GapRow>)
    requires Ledger(s, start.(gaps := s.store.gaps))
    ensures Ledger(s.(store := s.store.(gaps := gaps)), start.(gaps := gaps))
  {}

  lemma SendersMeanRunning(s: State)
    requires Inv(s) && s.senders
    ensures s.phase != Stopped
  {}

  lemma SendFirst(s: State)
    requires Enabled(s, Send(0)) && BatchesNonempty(s)
    ensures Next(s, Send(0))
            == s.(inHand := s.inHand[1..], queue := s.queue + [s.inHand[0]], accepted := s.accepted + [s.inHand[0]])
  {
    assert Without(s.inHand, 0) == s.inHand[1..];
  }

  class WriterTask {
    const db: Database
    const capacity: nat
    var queue: seq<PendingWrite>
    var senders: bool
    var batch: seq<PendingWrite>
    var stopped: bool
    // metrics: HEAD_SLOT, COMMITTED_SLOT, DB_WRITE_ERRORS, DEAD_LETTERS
    var headSlot: nat
    var committedSlot: nat
    var writeErrors: nat
    var deadLetterCount: nat
    // the database's side: batches whose COMMIT was sent and whose answer was never seen
    var limbo: seq<seq<PendingWrite>>
    // history
    ghost var inHand: seq<PendingWrite>
    ghost var accepted: seq<PendingWrite>
    ghost var handled: seq<Handled>
    ghost var landed: seq<seq<PendingWrite>>
    ghost const start: Tables

    ghost function View(): State
      reads this, db
    {
      State(capacity, inHand, queue, senders, batch, if stopped then Stopped else Waiting, db.State(),
            limbo, headSlot, committedSlot, accepted, handled, landed)
    }

    ghost predicate Valid()
      reads this, db
    {
      Inv(View()) && Ledger(View(), start) && db.Valid() && Counted()
    }

    /** What a task that stopped leaves to the next one; gap rows may have changed since. */
    ghost predicate Left()
      reads this, db
    {
      Inv(View()) && Ledger(View(), start.(gaps := db.gaps)) && db.Valid() && Counted() && stopped
    }

    /** DB_WRITE_ERRORS counts failed batches, DEAD_LETTERS parked rows. */
    ghost predicate Counted()
      reads this`writeErrors, this`deadLetterCount, this`handled
    {
      writeErrors == Failures(handled) && deadLetterCount == |ParkedLetters(handled)|
    }

    constructor (db: Database, capacity: nat, headSlot: nat, committedSlot: nat)
      requires db.Valid() && committedSlot <= headSlot
      ensures Valid() && fresh(this) && this.db == db && start == db.State()
      ensures View() == Init(capacity, db.State(), headSlot, committedSlot)
    {
      this.db, this.capacity := db, capacity;
      queue, senders, batch, stopped := [], true, [], false;
      this.headSlot, this.committedSlot, writeErrors, deadLetterCount := headSlot, committedSlot, 0, 0;
      inHand, limbo, accepted, handled, landed := [], [], [], [], [];
      start := db.State();
      new;
      InitInv(capacity, db.State(), headSlot, committedSlot);
      InitLedger(capacity, db.State(), headSlot, committedSlot);
    }

    /** The writer of the process's next pipeline. */
    constructor After(previous: WriterTask, capacity: nat)
      requires previous.Left()
      ensures Valid() && fresh(this) && db == previous.db && start == previous.start.(gaps := db.gaps)
      ensures View() == Reopened(previous.View(), capacity) && batch == [] && queue == [] && inHand == []
    {
      db, this.capacity := previous.db, capacity;
      queue, senders, batch, stopped := previous.queue, true, previous.batch, false;
      headSlot, committedSlot := previous.headSlot, previous.committedSlot;
      writeErrors, deadLetterCount := previous.writeErrors, previous.deadLetterCount;
      limbo := previous.limbo;
      inHand, accepted, handled, landed := previous.inHand, previous.accepted, previous.handled, previous.landed;
      start := previous.start.(gaps := previous.db.gaps);
      new;
      ReopenKeeps(previous.View(), start, capacity);
    }

    /** `check_slot` for the row's slot: a processor takes the row in hand. */
    method Check(row: PendingWrite)
      requires Valid() && senders
      modifies this`headSlot, this`inHand
      ensures Valid() && View() == Next(old(View()), Protocol.Check(row))
    {
      hide Inv, Ledger;
      Advance(View(), start, Protocol.Check(row));
      inHand := inHand + [row];
      if headSlot < row.event.slot {
        headSlot := row.event.slot;
      }
    }

    /** `Writer::send` with room in the channel. */
    method Send(row: PendingWrite)
      requires Valid() && senders && |queue| < capacity
      requires inHand != [] && inHand[0] == row
      modifies this`queue, this`inHand, this`accepted
      ensures Valid() && View() == Next(old(View()), Protocol.Send(0))
    {
      SendersMeanRunning(View());
      hide Inv, Ledger;
      Advance(View(), start, Protocol.Send(0));
      SendFirst(View());
      hide Next;
      inHand := inHand[1..];
      queue := queue + [row];
      accepted := accepted + [row];
    }

    method DropSenders()
      requires Valid() && senders && inHand == []
      modifies this`senders
      ensures Valid() && View() == Next(old(View()), Protocol.DropSenders)
    {
      hide Inv, Ledger;
      Advance(View(), start, Protocol.DropSenders);
      senders := false;
    }

    /** `max_by_key` over the slots: the last row of maximal slot. */
    static method NewestRow(batch: seq<PendingWrite>) returns (slot: nat, signature: string)
      requires batch != []
      ensures Checkpoint(slot, signature) == CheckpointOf(batch)
      ensures exists i :: 0 <= i < |batch| && batch[i].event.slot == slot && batch[i].event.key.signature == signature
                          && (forall j :: 0 <= j < |batch| ==> batch[j].event.slot <= slot)
                          && (forall j :: i < j < |batch| ==> batch[j].event.slot < slot)
    {
      slot, signature := batch[0].event.slot, batch[0].event.key.signature;
      assert batch[..1] == [batch[0]];
      for i := 1 to |batch|
        invariant Checkpoint(slot, signature) == CheckpointOf(batch[..i])
      {
        assert batch[..i + 1][..i] == batch[..i];
        if slot <= batch[i].event.slot {
          slot, signature := batch[i].event.slot, batch[i].event.key.signature;
        }
      }
      assert batch[..|batch|] == batch;
      CheckpointNamesNewest(batch);
    }

    /** One transaction without faults. */
    static method LandRows(db: Database, rows: seq<PendingWrite>)
      requires rows != [] && SidesOk(rows)
      modifies db
      ensures db.State() == CommitBatch(old(db.State()), rows) && db.nextGapId == old(db.nextGapId)
    {
      hide SidesOk, KeysStored, CommitBatch, Insert, CheckpointOf;
      CommitParts(db.State(), rows);
      var slot, signature := NewestRow(rows);
      var tx := new Transaction.Begin(db);
      tx.WriteEvents(rows);
      var ok := tx.WriteTrades(rows);
      tx.WriteCheckpoint(slot, signature);
      tx.Commit();
    }

    method LandLimbo(i: nat)
      requires i < |limbo| && limbo[i] != [] && SidesOk(limbo[i])
      modifies this, db
      ensures View() == Late(old(View()), i) && handled == old(handled)
      ensures writeErrors == old(writeErrors) && deadLetterCount == old(deadLetterCount)
      ensures db.nextGapId == old(db.nextGapId)
    {
      hide SidesOk, CommitBatch;
      LandRows(db, limbo[i]);
      landed := landed + [limbo[i]];
      limbo := limbo[..i] + limbo[i + 1..];
    }

    /** The database finishes a COMMIT whose answer the writer no longer waits for. */
    method LandLate(i: nat)
      requires Valid() && i < |limbo|
      modifies this, db
      ensures Valid() && Exec(old(View()), [Protocol.LandLate(i)]) == Some(View())
    {
      hide Inv, Ledger, SidesOk, StoreInv, ParkedLetters, Failures, Exec, Late;
      LateKeeps(View(), start, i);
      LandLimbo(i);
      assert db.gaps == View().store.gaps;
    }

    /** One transaction: events, then trades, then the checkpoint; nothing of it is visible
        unless its commit went through. */
    method WriteBatch(slot: nat, signature: string, verdict: Verdict) returns (outcome: Outcome)
      requires batch != [] && CheckpointOf(batch) == Checkpoint(slot, signature)
      modifies db
      ensures outcome == OutcomeOf(batch, verdict)
      ensures db.State() == if outcome == Done then CommitBatch(old(db.State()), batch) else old(db.State())
      ensures outcome == Done ==> db.checkpoint.Some? && NamesNewest(db.checkpoint.value, batch)
      ensures db.nextGapId == old(db.nextGapId)
    {
      if verdict.Refused? && verdict.at == 0 { return Error(false); }
      if verdict.Hung? && verdict.at == 0 { return TimedOut(false); }
      var tx := new Transaction.Begin(db);

      if verdict.Refused? && verdict.at == 1 { return Error(false); }
      if verdict.Hung? && verdict.at == 1 { return TimedOut(false); }
      tx.WriteEvents(batch);
      InsertKeeps(db.events, EventPairs(batch));
      assert forall i :: 0 <= i < |batch| ==> EventPairs(batch)[i].0 in tx.events;

      if verdict.Refused? && verdict.at == AT_TRADES { return Error(false); }
      if verdict.Hung? && verdict.at == AT_TRADES { return TimedOut(false); }
      var ok := tx.WriteTrades(batch);
      if !ok { return Error(false); }

      if verdict.Refused? && verdict.at == 3 { return Error(false); }
      if verdict.Hung? && verdict.at == 3 { return TimedOut(false); }
      tx.WriteCheckpoint(slot, signature);

      if verdict.Refused? && verdict.at == AT_COMMIT { return Error(true); }
      if verdict.Hung? && verdict.at == AT_COMMIT { return TimedOut(true); }
      tx.Commit();
      CheckpointNamesNewest(batch);
      outcome := Done;
    }

    method ParkBatch(error: string, parks: bool)
      modifies db`deadLetters, this`deadLetterCount
      ensures db.deadLetters == old(db.deadLetters) + if parks then Letters(batch, error) else []
      ensures deadLetterCount == old(deadLetterCount) + if parks then |batch| else 0
    {
      if parks {
        db.WriteDeadLetters(batch, error);
        for i := 0 to |batch|
          modifies this`deadLetterCount
          invariant deadLetterCount == old(deadLetterCount) + i
        {
          deadLetterCount := deadLetterCount + 1;
        }
      }
    }

    /** The batch was committed. */
    method Keep(slot: nat)
      modifies this`committedSlot, this`landed, this`handled, this`batch
      ensures committedSlot == Max(old(committedSlot), slot) && landed == old(landed) + [old(batch)]
      ensures handled == old(handled) + [Handled(old(batch), Committed)] && batch == []
    {
      if committedSlot < slot {
        committedSlot := slot;
      }
      landed := landed + [batch];
      handled := handled + [Handled(batch, Committed)];
      batch := [];
    }

    /** The batch failed: park it if the database lets us, else only report it. */
    method Abandon(text: string, timedOut: bool, atCommit: bool, parks: bool)
      modifies this`writeErrors, this`deadLetterCount, this`limbo, this`handled, this`batch, db`deadLetters
      ensures batch == [] && db.deadLetters == old(db.deadLetters) + if parks then Letters(old(batch), text) else []
      ensures limbo == if atCommit then old(limbo) + [old(batch)] else old(limbo)
      ensures handled == old(handled) +
                [Handled(old(batch), Failed(timedOut, atCommit, if parks then Some(text) else None))]
      ensures writeErrors == old(writeErrors) + 1
      ensures deadLetterCount == old(deadLetterCount) + if parks then |old(batch)| else 0
    {
      writeErrors := writeErrors + 1;
      ParkBatch(text, parks);
      limbo := if atCommit then limbo + [batch] else limbo;
      handled := handled + [Handled(batch, Failed(timedOut, atCommit, if parks then Some(text) else None))];
      batch := [];
    }

    /** A flush of a nonempty batch, as a step of the protocol. */
    method FlushBatch(w: Weather)
      requires !stopped && batch != []
      modifies this, db
      ensures View() == Flushed(old(View()), w)
      ensures db.nextGapId == old(db.nextGapId)
      ensures writeErrors == old(writeErrors) + if FlushFate(old(batch), w).Failed? then 1 else 0
      ensures deadLetterCount == old(deadLetterCount)
                + if FlushFate(old(batch), w).Failed? && FlushFate(old(batch), w).parked.Some? then |old(batch)| else 0
    {
      hide SidesOk, CommitBatch, Letters, Flushed, FlushFate, OutcomeOf, CheckpointOf;
      ghost var s := View();
      var slot, signature := NewestRow(batch);
      var outcome := WriteBatch(slot, signature, w.verdict);
      match outcome {
        case Done =>
          FlushedDone(s, w);
          Keep(slot);
        case Error(atCommit) =>
          FlushedFailed(s, w, atCommit, ERROR_TEXT);
          Abandon(ERROR_TEXT, false, atCommit, w.parks);
        case TimedOut(atCommit) =>
          FlushedFailed(s, w, atCommit, TIMEOUT_TEXT);
          Abandon(TIMEOUT_TEXT, true, atCommit, w.parks);
      }
    }

    /** `flush`: commit the batch, or park it, and clear it. An empty batch is left alone. */
    method Flush(w: Weather)
      requires !stopped && Counted()
      requires db.Valid()
      requires if batch == [] then Inv(View()) && Ledger(View(), start)
               else Inv(View().(phase := Writing(false))) && Ledger(View(), start)
      modifies this, db
      ensures Valid()
      ensures if old(batch) == [] then View() == old(View()) else View() == Flushed(old(View()), w)
      ensures old(batch) != [] ==>
                batch == [] && handled == old(handled) + [Handled(old(batch), FlushFate(old(batch), w))]
      ensures var failed := old(batch) != [] && FlushFate(old(batch), w).Failed?;
              && writeErrors == old(writeErrors) + (if failed then 1 else 0)
              && deadLetterCount == old(deadLetterCount)
                                    + (if failed && FlushFate(old(batch), w).parked.Some? then |old(batch)| else 0)
    {
      hide Inv, Ledger, ParkedLetters, Failures, Flushed, FlushFate, StoreInv;
      if batch == [] {
        return;
      }
      ghost var s, h := View(), Handled(batch, FlushFate(batch, w));
      FlushKeeps(s, start, w);
      FlushCounts(handled, h);
      FlushedHandled(s, w);
      FlushedWaits(s, w);
      FlushBatch(w);
      assert handled == View().handled && db.gaps == View().store.gaps;
    }

    /** The `recv` arm of the loop. */
    method Receive(w: Weather)
      requires Valid() && Enabled(View(), Protocol.Receive)
      modifies this, db
      ensures Valid()
      ensures BatchesNonempty(old(View()))
      ensures Exec(old(View()), TurnRun(old(View()), Protocol.Receive, w)) == Some(View())
      ensures old(queue) != [] && |old(batch)| + 1 < 100 ==>
                batch == old(batch) + [old(queue)[0]] && handled == old(handled) && !stopped
      ensures old(queue) != [] && |old(batch)| + 1 >= 100 ==>
                batch == [] && handled == old(handled) + [Handled(old(batch) + [old(queue)[0]],
                                                                  FlushFate(old(batch) + [old(queue)[0]], w))]
    {
      hide Inv, Ledger, SidesOk, CommitBatch, Letters, ParkedLetters, Failures, Flushed, FlushFate, OutcomeOf;
      hide StoreInv, Insert, Newest, FlushRun, Exec;
      ghost var s := View();
      Advance(s, start, Protocol.Receive);
      TurnIsRun(s, Protocol.Receive, w);
      if queue != [] {
        batch := batch + [queue[0]];
        queue := queue[1..];
        if |batch| >= BATCH_SIZE {
          ghost var full := View();
          assert full.(phase := Writing(false)) == Next(s, Protocol.Receive);
          assert Next(s, Protocol.Receive).(phase := Waiting) == full;
          LedgerPhase(Next(s, Protocol.Receive), start, Waiting);
          FlushedWaits(full, w);
          Flush(w);
          assert View().(phase := Waiting) == View();
        }
      } else {
        if batch != [] {
          FlushReady(s, start);
          FlushedWaits(s, w);
          assert Next(s, Protocol.Receive).(phase := Waiting) == s;
        }
        Flush(w);
        LedgerPhase(View(), start, Stopped);
        StopKeeps(View());
        stopped := true;
      }
    }

    /** The `tick` arm of the loop. */
    method Tick(w: Weather)
      requires Valid() && Enabled(View(), Protocol.Tick)
      modifies this, db
      ensures Valid()
      ensures BatchesNonempty(old(View()))
      ensures Exec(old(View()), TurnRun(old(View()), Protocol.Tick, w)) == Some(View())
    {
      hide Inv, Ledger, SidesOk, CommitBatch, Letters, ParkedLetters, Failures, Flushed, FlushFate, OutcomeOf;
      hide StoreInv, Insert, Newest, FlushRun, Exec;
      ghost var s := View();
      Advance(s, start, Protocol.Tick);
      TurnIsRun(s, Protocol.Tick, w);
      if batch != [] {
        FlushReady(s, start);
        FlushedWaits(s, w);
        assert Next(s, Protocol.Tick).(phase := Waiting) == s;
      }
      Flush(w);
      assert View().(phase := Waiting) == View();
    }
  }

  lemma ValidIsLeft(writer: WriterTask)
    requires writer.Valid() && writer.stopped
    ensures writer.Left()
  {
    hide Inv, StoreInv, Failures, ParkedLetters;
    assert writer.start.(gaps := writer.db.gaps) == writer.start;
  }

  function Failures(handled: seq<Handled>): nat {
    if handled == [] then 0
    else
      var n := |handled| - 1;
      Failures(handled[..n]) + if handled[n].fate.Failed? then 1 else 0
  }
}
