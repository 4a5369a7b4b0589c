/** `run_pipeline`: feed the writer, drop the senders, wait for the writer to stop. */
module Pipeline {
  import opened Rows
  import opened Store
  import opened Protocol
  import opened Runs
  import opened Database
  import opened Writer

  const WRITE_QUEUE_SIZE := 10000

  /** The rows the processors make of the events; `interpret` stands for what the pool cache
      knew at each of them. */
  function Interpreted(events: seq<EventRow>, interpret: (nat, EventRow) -> Option<TradeRow>): (rows: seq<PendingWrite>)
    ensures |rows| == |events|
    ensures forall i :: 0 <= i < |rows| ==> rows[i] == PendingWrite(events[i], interpret(i, events[i]))
  {
    seq(|events|, i requires 0 <= i < |events| => PendingWrite(events[i], interpret(i, events[i])))
  }

  function EventsOf(rows: seq<PendingWrite>): (r: seq<EventRow>)
    ensures |r| == |rows| && forall i :: 0 <= i < |r| ==> r[i] == rows[i].event
  {
    seq(|rows|, i requires 0 <= i < |rows| => rows[i].event)
  }

  /** What one turn of the select loop leaves alone, and what it does to the channel. */
  lemma TurnFrame(s: State, a: Action, w: Weather)
    requires BatchesNonempty(s) && Enabled(s, a) && (a.Receive? || a.Tick?)
    ensures var r := Exec(s, TurnRun(s, a, w));
            r.Some? && r.value.accepted == s.accepted && r.value.inHand == s.inHand && r.value.senders == s.senders
            && r.value.capacity == s.capacity
            && r.value.queue == (if a.Receive? && s.queue != [] then s.queue[1..] else s.queue)
            && (r.value.phase == Stopped <==> a.Receive? && s.queue == [])
            && (r.value.phase == Stopped || r.value.phase == Waiting)
  {
    hide SidesOk, Exec, FlushRun, CommitBatch, Letters, TurnRun;
    TurnIsRun(s, a, w);
  }

  /** What one turn adds to the books: nothing, or one batch with its fate. */
  predicate Adds(s: State, r: State, w: Weather, batch: seq<PendingWrite>) {
    var fate := FlushFate(batch, w);
    && r.handled == s.handled + [Handled(batch, fate)]
    && r.landed == s.landed + (if fate.Committed? then [batch] else [])
    && r.limbo == s.limbo + (if fate.Failed? && fate.atCommit then [batch] else [])
    && (SidesOk(s.accepted) ==> SidesOk(batch))
  }

  predicate SameBooks(s: State, r: State) {
    r.handled == s.handled && r.landed == s.landed && r.limbo == s.limbo
  }

  lemma FlushAdds(s: State, w: Weather)
    requires s.batch != []
    ensures var r := Flushed(s, w); var fate := FlushFate(s.batch, w);
            && r.handled == s.handled + [Handled(s.batch, fate)]
            && r.landed == s.landed + (if fate.Committed? then [s.batch] else [])
            && r.limbo == s.limbo + (if fate.Failed? && fate.atCommit then [s.batch] else [])
  {
    hide CommitBatch, CheckpointOf, SidesOk, Letters;
  }

  lemma TurnAdds(s: State, a: Action, w: Weather)
    requires BatchesNonempty(s) && Conserved(s) && Enabled(s, a) && (a.Receive? || a.Tick?)
    ensures var r := Exec(s, TurnRun(s, a, w));
            r.Some? && (SameBooks(s, r.value) || exists batch :: Adds(s, r.value, w, batch))
  {
    hide SidesOk, CommitBatch, Exec, TurnRun, Flushed, FlushFate, Conserved;
    TurnIsRun(s, a, w);
    ConservedStep(s, a);
    var s', r := Next(s, a), Exec(s, TurnRun(s, a, w)).value;
    if s'.phase.Writing? {
      FlushAdds(s'.(phase := Waiting), w);
      if SidesOk(s.accepted) { SidesOfBatch(s'); }
      assert Adds(s, r, w, s'.batch);
    }
  }

  lemma SidesOfBatch(s: State)
    requires Conserved(s) && SidesOk(s.accepted)
    ensures SidesOk(s.batch)
  {
    var done := Flatten(RowsOf(s.handled));
    forall i | 0 <= i < |s.batch| && s.batch[i].trade.Some? ensures SideOk(s.batch[i].trade.value) {
      assert s.accepted[|done| + i] == s.batch[i];
    }
  }

  predicate AllCommitted(handled: seq<Handled>) {
    forall h :: h in handled ==> h.fate == Committed
  }

  /** No COMMIT was sent for any of these batches. */
  predicate NoneSent(handled: seq<Handled>) {
    forall h :: h in handled ==> !SentCommit(h)
  }

  /** A first pipeline without faults: everything landed, in order. */
  lemma TidyStop(s: State, start: Tables)
    requires Inv(s) && Ledger(s, start) && s.phase == Stopped
    requires s.landed == RowsOf(s.handled) && AllCommitted(s.handled)
    ensures s.store.events == Insert(start.events, EventPairs(s.accepted))
    ensures s.store.trades == Insert(start.trades, TradePairs(s.accepted))
    ensures s.store.deadLetters == start.deadLetters
  {
    StoppedHandledAll(s);
    NoLetters(s.handled);
  }

  lemma {:induction false} NoLetters(handled: seq<Handled>)
    requires AllCommitted(handled)
    ensures ParkedLetters(handled) == []
  {
    if handled != [] {
      NoLetters(handled[..|handled| - 1]);
    }
  }

  predicate Calm(weather: nat -> Weather, until: nat) {
    forall n: nat :: n < until ==> weather(n).verdict == Fine
  }

  /** The database stops this flush before its COMMIT is sent. */
  predicate Stops(v: Verdict) {
    !v.Fine? && v.at < AT_COMMIT
  }

  predicate Stormy(weather: nat -> Weather, until: nat) {
    forall n: nat :: n < until ==> Stops(weather(n).verdict)
  }

  ghost predicate AlwaysFine(weather: nat -> Weather) {
    forall n :: weather(n).verdict == Fine
  }

  /** The database stops every flush before its COMMIT. */
  ghost predicate AlwaysStormy(weather: nat -> Weather) {
    forall n :: Stops(weather(n).verdict)
  }

  /** What this pipeline added to the books it found: no fault and no bad side means every batch
      was committed, and landed in order if no older COMMIT was open; nothing but faults before
      COMMIT means that none was sent. */
  ghost predicate BooksSince(base: State, limbo: seq<seq<PendingWrite>>, landed: seq<seq<PendingWrite>>,
                             handled: seq<Handled>, weather: nat -> Weather, turns: nat, rows: seq<PendingWrite>)
  {
    && base.handled <= handled && base.landed <= landed
    && (Calm(weather, turns) && SidesOk(rows) ==>
          && AllCommitted(handled[|base.handled|..])
          && (base.limbo == [] ==> limbo == [] && landed == base.landed + RowsOf(handled[|base.handled|..])))
    && (Stormy(weather, turns) ==> NoneSent(handled[|base.handled|..]))
  }

  ghost predicate TidyUnless(writer: WriterTask, weather: nat -> Weather, turns: nat, rows: seq<PendingWrite>,
                             base: State)
    reads writer`limbo, writer`landed, writer`handled
  {
    BooksSince(base, writer.limbo, writer.landed, writer.handled, weather, turns, rows)
  }

  lemma FateCalm(batch: seq<PendingWrite>, w: Weather)
    ensures w.verdict == Fine && SidesOk(batch) ==> FlushFate(batch, w) == Committed
    ensures Stops(w.verdict) ==> FlushFate(batch, w).Failed? && !FlushFate(batch, w).atCommit
  {}

  lemma SinceTurn(base: State, s: State, r: State, weather: nat -> Weather, turns: nat, rows: seq<PendingWrite>)
    requires BooksSince(base, s.limbo, s.landed, s.handled, weather, turns, rows) && s.accepted <= rows
    requires SameBooks(s, r) || exists batch :: Adds(s, r, weather(turns), batch)
    ensures BooksSince(base, r.limbo, r.landed, r.handled, weather, turns + 1, rows)
  {
    hide FlushFate, SidesOk;
    assert Calm(weather, turns + 1) ==> Calm(weather, turns) && weather(turns).verdict == Fine;
    assert Stormy(weather, turns + 1) ==> Stormy(weather, turns) && Stops(weather(turns).verdict);
    var n := |base.handled|;
    if !SameBooks(s, r) {
      var batch :| Adds(s, r, weather(turns), batch);
      FateCalm(batch, weather(turns));
      var h := Handled(batch, FlushFate(batch, weather(turns)));
      assert r.handled[n..] == s.handled[n..] + [h];
      if Calm(weather, turns + 1) && SidesOk(rows) {
        SidesOfPrefix(rows, s.accepted);
        assert RowsOf(r.handled[n..]) == RowsOf(s.handled[n..]) + [batch];
      }
    }
  }

  lemma InvParts(s: State)
    requires Inv(s)
    ensures BatchesNonempty(s) && Conserved(s) && |s.queue| <= s.capacity && (s.phase == Stopped ==> !s.senders)
    ensures StoreInv(s.store) && s.committed <= s.head
  {}

  lemma SidesOfPrefix(rows: seq<PendingWrite>, given: seq<PendingWrite>)
    requires SidesOk(rows) && given <= rows
    ensures SidesOk(given)
  {}

  /** One turn of the select loop in the weather of that turn. */
  method Turn(writer: WriterTask, tick: bool, weather: nat -> Weather, turns: nat, ghost rows: seq<PendingWrite>,
              ghost base: State)
    requires writer.Valid() && !writer.stopped && (tick || writer.queue != [] || !writer.senders)
    requires writer.accepted <= rows && TidyUnless(writer, weather, turns, rows, base)
    modifies writer, writer.db
    ensures writer.Valid() && TidyUnless(writer, weather, turns + 1, rows, base)
    ensures writer.accepted == old(writer.accepted) && writer.inHand == old(writer.inHand)
    ensures writer.senders == old(writer.senders)
    ensures writer.queue == if !tick && old(writer.queue) != [] then old(writer.queue)[1..] else old(writer.queue)
    ensures writer.stopped <==> !tick && old(writer.queue) == []
  {
    InvParts(writer.View());
    hide Inv, Ledger, SidesOk, StoreInv, Exec, TurnRun, Insert, BooksSince, Conserved, CommitBatch, Adds, SameBooks;
    ghost var s, a := writer.View(), if tick then Action.Tick else Action.Receive;
    TurnFrame(s, a, weather(turns));
    TurnAdds(s, a, weather(turns));
    SinceTurn(base, s, Exec(s, TurnRun(s, a, weather(turns))).value, weather, turns, rows);
    if tick {
      writer.Tick(weather(turns));
    } else {
      writer.Receive(weather(turns));
    }
  }

  /** A COMMIT that hung lands now. In a life without such faults there is none. */
  method Late(writer: WriterTask, i: nat, weather: nat -> Weather, turns: nat, ghost rows: seq<PendingWrite>,
              ghost base: State)
    requires writer.Valid() && i < |writer.limbo| && TidyUnless(writer, weather, turns, rows, base)
    modifies writer, writer.db
    ensures writer.Valid() && TidyUnless(writer, weather, turns, rows, base)
    ensures writer.accepted == old(writer.accepted) && writer.inHand == old(writer.inHand)
    ensures writer.senders == old(writer.senders) && writer.stopped == old(writer.stopped)
    ensures writer.queue == old(writer.queue) && writer.handled == old(writer.handled)
  {
    hide Inv, Ledger, SidesOk, StoreInv, Exec, Insert, Conserved, CommitBatch, BooksSince;
    ghost var s := writer.View();
    LateFrame(s, writer.start, i);
    SinceLate(base, s, Exec(s, [LandLate(i)]).value, weather, turns, rows);
    writer.LandLate(i);
  }

  lemma LateFrame(s: State, start: Tables, i: nat)
    requires Inv(s) && Ledger(s, start) && i < |s.limbo|
    ensures var r := Exec(s, [LandLate(i)]);
            r.Some? && r.value.accepted == s.accepted && r.value.inHand == s.inHand && r.value.senders == s.senders
            && r.value.phase == s.phase && r.value.queue == s.queue && r.value.handled == s.handled
            && s.limbo != [] && s.landed <= r.value.landed && (s.capacity == r.value.capacity)
  {
    hide Inv, Ledger, SidesOk, StoreInv, Exec;
    LateKeeps(s, start, i);
  }

  lemma SinceLate(base: State, s: State, r: State, weather: nat -> Weather, turns: nat, rows: seq<PendingWrite>)
    requires BooksSince(base, s.limbo, s.landed, s.handled, weather, turns, rows)
    requires s.limbo != [] && r.handled == s.handled && s.landed <= r.landed
    ensures BooksSince(base, r.limbo, r.landed, r.handled, weather, turns, rows)
  {
    hide SidesOk;
  }

  /** What happens while the producer is elsewhere: a tick, a receive if the channel holds a
      row, or a COMMIT that hung and lands. */
  datatype Nudge = Ticks | Receives | Lands(i: nat)

  method Background(writer: WriterTask, nudges: seq<Nudge>, weather: nat -> Weather, before: nat,
                    ghost rows: seq<PendingWrite>, ghost base: State)
    returns (turns: nat)
    requires writer.Valid() && !writer.stopped && writer.senders
    requires writer.accepted <= rows && TidyUnless(writer, weather, before, rows, base)
    modifies writer, writer.db
    ensures writer.Valid() && !writer.stopped && writer.senders && TidyUnless(writer, weather, turns, rows, base)
    ensures writer.accepted == old(writer.accepted) && writer.inHand == old(writer.inHand)
    ensures |writer.queue| <= |old(writer.queue)|
  {
    hide *;
    turns := before;
    for n := 0 to |nudges|
      invariant writer.Valid() && !writer.stopped && writer.senders && TidyUnless(writer, weather, turns, rows, base)
      invariant writer.accepted == old(writer.accepted) && writer.inHand == old(writer.inHand)
      invariant |writer.queue| <= |old(writer.queue)|
    {
      match nudges[n] {
        case Lands(i) =>
          if i < |writer.limbo| {
            Late(writer, i, weather, turns, rows, base);
          }
        case Ticks =>
          Turn(writer, true, weather, turns, rows, base);
          turns := turns + 1;
        case Receives =>
          if writer.queue != [] {
            Turn(writer, false, weather, turns, rows, base);
            turns := turns + 1;
          }
      }
    }
  }

  /** COMMITs that hung and land when the writer is gone. */
  method Aftermath(writer: WriterTask, late: seq<nat>, weather: nat -> Weather, turns: nat,
                   ghost rows: seq<PendingWrite>, ghost base: State)
    requires writer.Valid() && TidyUnless(writer, weather, turns, rows, base)
    modifies writer, writer.db
    ensures writer.Valid() && TidyUnless(writer, weather, turns, rows, base)
    ensures writer.accepted == old(writer.accepted) && writer.stopped == old(writer.stopped)
  {
    hide *;
    for n := 0 to |late|
      invariant writer.Valid() && TidyUnless(writer, weather, turns, rows, base)
      invariant writer.accepted == old(writer.accepted) && writer.stopped == old(writer.stopped)
    {
      if late[n] < |writer.limbo| {
        Late(writer, late[n], weather, turns, rows, base);
      }
    }
  }

  /** A full channel makes `send` wait until the writer took a row. */
  method AwaitRoom(writer: WriterTask, weather: nat -> Weather, before: nat, ghost rows: seq<PendingWrite>,
                   ghost base: State)
    returns (turns: nat)
    requires writer.Valid() && !writer.stopped && writer.senders && writer.capacity > 0
    requires writer.accepted <= rows && TidyUnless(writer, weather, before, rows, base)
    modifies writer, writer.db
    ensures writer.Valid() && !writer.stopped && writer.senders && TidyUnless(writer, weather, turns, rows, base)
    ensures writer.accepted == old(writer.accepted) && writer.inHand == old(writer.inHand)
    ensures |writer.queue| < writer.capacity
  {
    InvParts(writer.View());
    hide *;
    turns := before;
    while |writer.queue| == writer.capacity
      invariant writer.Valid() && !writer.stopped && writer.senders && TidyUnless(writer, weather, turns, rows, base)
      invariant writer.accepted == old(writer.accepted) && writer.inHand == old(writer.inHand)
      invariant |writer.queue| <= writer.capacity
      decreases |writer.queue|
    {
      Turn(writer, false, weather, turns, rows, base);
      turns := turns + 1;
    }
  }

  /** One row through `check_slot` and `send`. */
  method Offer(writer: WriterTask, row: PendingWrite, weather: nat -> Weather, before: nat,
               ghost rows: seq<PendingWrite>, ghost base: State)
    returns (turns: nat)
    requires writer.Valid() && writer.capacity > 0 && writer.senders && !writer.stopped && writer.inHand == []
    requires writer.accepted + [row] <= rows && TidyUnless(writer, weather, before, rows, base)
    modifies writer, writer.db
    ensures writer.Valid() && writer.senders && !writer.stopped && writer.inHand == []
    ensures writer.accepted == old(writer.accepted) + [row] && TidyUnless(writer, weather, turns, rows, base)
  {
    hide Inv, Ledger, SidesOk, StoreInv, BooksSince, CommitBatch, Calm;
    writer.Check(row);
    turns := AwaitRoom(writer, weather, before, rows, base);
    writer.Send(row);
  }

  /** Push rows through the channel, in order. */
  method Feed(writer: WriterTask, fed: seq<PendingWrite>, ghost rows: seq<PendingWrite>, weather: nat -> Weather,
              pace: nat -> seq<Nudge>, ghost base: State)
    returns (turns: nat)
    requires writer.Valid() && writer.capacity > 0 && writer.senders && !writer.stopped
    requires writer.inHand == [] && writer.accepted + fed <= rows && TidyUnless(writer, weather, 0, rows, base)
    modifies writer, writer.db
    ensures writer.Valid() && writer.senders && !writer.stopped && writer.inHand == []
    ensures writer.accepted == old(writer.accepted) + fed && TidyUnless(writer, weather, turns, rows, base)
  {
    hide *;
    turns := 0;
    ghost var given := writer.accepted;
    for i := 0 to |fed|
      invariant writer.Valid() && writer.senders && !writer.stopped && writer.inHand == []
      invariant writer.accepted == given + fed[..i] && TidyUnless(writer, weather, turns, rows, base)
    {
      assert given + fed[..i + 1] == given + fed[..i] + [fed[i]] && given + fed[..i + 1] <= given + fed;
      turns := Offer(writer, fed[i], weather, turns, rows, base);
      turns := Background(writer, pace(i), weather, turns, rows, base);
    }
    assert fed[..|fed|] == fed;
  }

  /** With the channel closed, receive until the task stops. */
  method Drain(writer: WriterTask, weather: nat -> Weather, before: nat, ghost rows: seq<PendingWrite>,
               ghost base: State)
    returns (turns: nat)
    requires writer.Valid() && !writer.stopped && !writer.senders
    requires writer.accepted == rows && TidyUnless(writer, weather, before, rows, base)
    modifies writer, writer.db
    ensures writer.Valid() && writer.stopped && writer.accepted == rows
    ensures TidyUnless(writer, weather, turns, rows, base)
  {
    hide *;
    turns := before;
    while !writer.stopped
      invariant writer.Valid() && !writer.senders && writer.accepted == rows
      invariant TidyUnless(writer, weather, turns, rows, base)
      decreases !writer.stopped, |writer.queue|
    {
      Turn(writer, false, weather, turns, rows, base);
      turns := turns + 1;
    }
  }

  /** The state in which a pipeline's writer starts: fresh, or as the last pipeline of the
      process left it. */
  ghost function Base(db: Database, previous: WriterTask?, capacity: nat): State
    reads db, previous, if previous == null then {} else {previous.db}
  {
    if previous == null then Init(capacity, db.State(), 0, 0) else Reopened(previous.View(), capacity)
  }

  ghost function BaseTables(db: Database, previous: WriterTask?): Tables
    reads db, previous
  {
    if previous == null then db.State() else previous.start.(gaps := db.gaps)
  }

  /** `spawn_writer`. */
  method Spawn(db: Database, previous: WriterTask?, capacity: nat) returns (writer: WriterTask, ghost base: State)
    requires db.Valid() && (previous != null ==> previous.db == db && previous.Left())
    ensures base == Base(db, previous, capacity) == writer.View() && writer.start == BaseTables(db, previous)
    ensures fresh(writer) && writer.db == db && writer.Valid() && writer.capacity == capacity
    ensures writer.senders && !writer.stopped && writer.inHand == []
    ensures Inv(base) && base.accepted == Flatten(RowsOf(base.handled))
  {
    hide Inv, Ledger, StoreInv, Failures, ParkedLetters, Flatten;
    if previous == null {
      writer := new WriterTask(db, capacity, 0, 0);
    } else {
      writer := new WriterTask.After(previous, capacity);
    }
    base := writer.View();
    BaseIsIdle(base);
  }

  /** `weather(n)` is what the database does to turn `n` of the writer; `pace(i)` is what happens
      after row `i` was sent; `late` are the COMMITs without an answer that land in the end,
      those of earlier pipelines of the process included. With `cut` the pipeline errors or is
      killed after so many rows: the senders go and nobody waits for the writer, which got
      whatever turns `pace` gave it. */
  method RunPipeline(db: Database, previous: WriterTask?, rows: seq<PendingWrite>, capacity: nat,
                     weather: nat -> Weather, pace: nat -> seq<Nudge>, late: seq<nat>, cut: Option<nat>)
    returns (ok: bool, writer: WriterTask, turns: nat, ghost base: State)
    requires db.Valid() && capacity > 0 && (previous != null ==> previous.db == db && previous.Left())
    modifies db
    ensures base == old(Base(db, previous, capacity)) && Inv(base) && base.accepted == Flatten(RowsOf(base.handled))
    ensures writer.start == old(BaseTables(db, previous))
    ensures fresh(writer) && writer.db == db && writer.Valid() && db.Valid()
    ensures ok <==> cut.None?
    ensures base.handled <= writer.handled && base.landed <= writer.landed
    ensures ok ==> writer.stopped && writer.accepted == base.accepted + rows
                   && Flatten(RowsOf(writer.handled[|base.handled|..])) == rows
    ensures !ok ==> writer.accepted == base.accepted + if cut.value <= |rows| then rows[..cut.value] else rows
    ensures db.events == Insert(writer.start.events, EventPairs(Flatten(writer.landed)))
    ensures db.trades == Insert(writer.start.trades, TradePairs(Flatten(writer.landed)))
    ensures BooksSince(base, writer.limbo, writer.landed, writer.handled, weather, turns, base.accepted + rows)
    ensures previous == null && ok && Calm(weather, turns) && SidesOk(rows) ==>
              && db.events == Insert(old(db.events), EventPairs(rows))
              && db.trades == Insert(old(db.trades), TradePairs(rows))
              && db.deadLetters == old(db.deadLetters)
    ensures db.pools == old(db.pools) && db.gaps == old(db.gaps)
    ensures Extends(old(db.events), db.events)
    ensures previous == null ==>
              forall k :: k in db.events && k !in old(db.events) ==> Offered(rows, k, db.events[k])
  {
    hide Inv, Ledger, SidesOk, StoreInv, BooksSince, CommitBatch, Insert, Calm, Offered, Flatten, TradePairs, RowsOf;
    writer, base := Spawn(db, previous, capacity);
    SinceStart(base, weather, base.accepted + rows);
    LedgerEvents(writer.View(), writer.start);
    ghost var landed := writer.landed;
    var fed := if cut.Some? && cut.value <= |rows| then rows[..cut.value] else rows;
    turns := Feed(writer, fed, base.accepted + rows, weather, pace, base);
    if cut.None? {
      writer.DropSenders();
      turns := Drain(writer, weather, turns, base.accepted + rows, base);
    }
    Aftermath(writer, late, weather, turns, base.accepted + rows, base);
    ok := cut.None?;
    LedgerEvents(writer.View(), writer.start);
    PipelineDone(base, writer.View(), writer.start, rows, weather, turns);
    MoreLanded(writer.start.events, landed, writer.landed);
    if previous == null {
      NewIsOffered(writer.View(), writer.start, fed, rows);
    }
  }

  lemma NewIsOffered(s: State, start: Tables, fed: seq<PendingWrite>, rows: seq<PendingWrite>)
    requires Inv(s) && Ledger(s, start) && s.accepted == fed <= rows
    ensures forall k :: k in s.store.events && k !in start.events ==> Offered(rows, k, s.store.events[k])
  {
    hide Inv, Ledger, Offered;
    OnlyOffered(s, start);
    OfferedByMore(fed, rows);
  }

  /** Before its first row. */
  lemma BaseIsIdle(base: State)
    requires Inv(base) && base.batch == [] && base.queue == []
    ensures base.accepted == Flatten(RowsOf(base.handled))
  {
    assert Flatten(RowsOf(base.handled)) + [] + [] == Flatten(RowsOf(base.handled));
  }

  lemma SinceStart(base: State, weather: nat -> Weather, rows: seq<PendingWrite>)
    ensures BooksSince(base, base.limbo, base.landed, base.handled, weather, 0, rows)
  {
    assert base.handled[|base.handled|..] == [];
    assert base.landed + RowsOf([]) == base.landed;
  }

  /** A finished pipeline handled exactly its rows. */
  lemma PipelineDone(base: State, s: State, start: Tables, rows: seq<PendingWrite>, weather: nat -> Weather, turns: nat)
    requires Inv(s) && Ledger(s, start) && base.accepted == Flatten(RowsOf(base.handled))
    requires BooksSince(base, s.limbo, s.landed, s.handled, weather, turns, base.accepted + rows)
    ensures base.handled <= s.handled && base.landed <= s.landed
    ensures s.phase == Stopped && s.accepted == base.accepted + rows ==>
              Flatten(RowsOf(s.handled[|base.handled|..])) == rows
    ensures s.phase == Stopped && s.accepted == rows && base.handled == [] && base.landed == [] && base.limbo == []
            && base.accepted == [] && Calm(weather, turns) && SidesOk(rows) ==>
              && s.store.events == Insert(start.events, EventPairs(rows))
              && s.store.trades == Insert(start.trades, TradePairs(rows))
              && s.store.deadLetters == start.deadLetters
  {
    hide Inv, Ledger, SidesOk, Insert, Calm, Stormy, Flatten, AllCommitted;
    var n := |base.handled|;
    if s.phase == Stopped {
      StoppedHandledAll(s);
      assert s.handled == base.handled + s.handled[n..];
      assert RowsOf(s.handled) == RowsOf(base.handled) + RowsOf(s.handled[n..]);
      FlattenConcat(RowsOf(base.handled), RowsOf(s.handled[n..]));
      if s.accepted == base.accepted + rows {
        SameTail(base.accepted, Flatten(RowsOf(s.handled[n..])), rows);
      }
      if n == 0 && base.landed == [] && base.limbo == [] && base.accepted == [] && s.accepted == rows
         && Calm(weather, turns) && SidesOk(rows) {
        assert [] + rows == rows && s.handled[0..] == s.handled && [] + RowsOf(s.handled) == RowsOf(s.handled);
        TidyStop(s, start);
      }
    }
  }

  lemma SameTail<T>(a: seq<T>, b: seq<T>, c: seq<T>)
    requires a + b == a + c
    ensures b == c
  {
    assert b == (a + b)[|a|..] && c == (a + c)[|a|..];
  }

  lemma MoreLanded(events: Events, a: seq<seq<PendingWrite>>, b: seq<seq<PendingWrite>>)
    requires a <= b
    ensures Extends(Insert(events, EventPairs(Flatten(a))), Insert(events, EventPairs(Flatten(b))))
  {
    hide Insert, Flatten;
    var more := b[|a|..];
    assert b == a + more;
    FlattenConcat(a, more);
    EventPairsConcat(Flatten(a), Flatten(more));
    InsertConcat(events, EventPairs(Flatten(a)), EventPairs(Flatten(more)));
    InsertKeeps(Insert(events, EventPairs(Flatten(a))), EventPairs(Flatten(more)));
  }

  lemma OfferedByMore(fed: seq<PendingWrite>, rows: seq<PendingWrite>)
    requires fed <= rows
    ensures forall k, e :: Offered(fed, k, e) ==> Offered(rows, k, e)
  {
    forall k, e | Offered(fed, k, e) ensures Offered(rows, k, e) {
      var i :| 0 <= i < |fed| && fed[i].event == e && e.key == k;
      assert rows[i] == fed[i];
    }
  }

  /** Some row offers this event under this key. */
  predicate Offered(rows: seq<PendingWrite>, k: EventKey, e: EventRow) {
    exists i :: 0 <= i < |rows| && rows[i].event == e && e.key == k
  }

  /** Whatever happened, a new event came from an accepted row. */
  lemma OnlyOffered(s: State, start: Tables)
    requires Inv(s) && Ledger(s, start)
    ensures Extends(start.events, s.store.events)
    ensures forall k :: k in s.store.events && k !in start.events ==> Offered(s.accepted, k, s.store.events[k])
    ensures s.store.pools == start.pools && s.store.gaps == start.gaps
  {
    hide Inv, Ledger, Insert, EventPairs;
    LedgerEvents(s, start);
    InsertKeeps(start.events, EventPairs(Flatten(s.landed)));
    forall k | k in s.store.events && k !in start.events ensures Offered(s.accepted, k, s.store.events[k]) {
      OfferedAt(s, start, k);
    }
  }

  lemma LedgerEvents(s: State, start: Tables)
    requires Ledger(s, start)
    ensures s.store.events == Insert(start.events, EventPairs(Flatten(s.landed)))
    ensures s.store.trades == Insert(start.trades, TradePairs(Flatten(s.landed)))
    ensures s.store.pools == start.pools && s.store.gaps == start.gaps
  {}

  lemma OfferedAt(s: State, start: Tables, k: EventKey)
    requires Inv(s) && Ledger(s, start) && k in s.store.events && k !in start.events
    ensures Offered(s.accepted, k, s.store.events[k])
  {
    var rows := Flatten(s.landed);
    hide Inv, Ledger, Insert, Flatten;
    LedgerEvents(s, start);
    InsertSource(start.events, EventPairs(rows), k);
    var i :| 0 <= i < |rows| && EventPairs(rows)[i] == (k, s.store.events[k]);
    LandedWasAccepted(s, rows[i]);
    var j :| 0 <= j < |s.accepted| && s.accepted[j] == rows[i];
    assert s.accepted[j].event == s.store.events[k];
  }
}
