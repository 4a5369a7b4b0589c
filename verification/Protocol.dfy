/** The writer task, its channel and its producers as a transition system.
    Every `.await` of the source is a point between two actions; a process kill is
    the end of a run, after any action. */
module Protocol {
  import opened Rows
  import opened Store

  const BATCH_SIZE := 100

  /** What became of a batch: committed, or failed and then parked with an error text or lost.
      `atCommit` means COMMIT was already sent, so the outcome of
      the transaction is unknown to the writer. */
  datatype Fate = Committed | Failed(timedOut: bool, atCommit: bool, parked: Option<string>)

  datatype Handled = Handled(rows: seq<PendingWrite>, fate: Fate)

  datatype Phase =
    | Waiting
    | Writing(last: bool)
    | Parking(timedOut: bool, atCommit: bool, last: bool)
    | Stopped

  datatype State = State(
    capacity: nat,
    inHand: seq<PendingWrite>,        // rows past `check_slot`, waiting for room in the channel
    queue: seq<PendingWrite>,
    senders: bool,                    // some `Writer` clone is alive
    batch: seq<PendingWrite>,
    phase: Phase,
    store: Tables,
    limbo: seq<seq<PendingWrite>>,    // COMMIT sent, answer never seen
    head: nat,                        // HEAD_SLOT
    committed: nat,                   // COMMITTED_SLOT
    // history
    accepted: seq<PendingWrite>,
    handled: seq<Handled>,
    landed: seq<seq<PendingWrite>>)   // batches whose transaction took effect, in that order

  datatype Action =
    | Check(row: PendingWrite)
    | Send(i: nat)
    | DropSenders
    | Receive
    | Tick
    | Commit
    | Fail(timedOut: bool, atCommit: bool)
    | Park(error: string)
    | ParkFail
    | LandLate(i: nat)

  function Max(a: nat, b: nat): nat { if a < b then b else a }

  predicate Enabled(s: State, a: Action) {
    match a
    case Check(_) => s.senders
    case Send(i) => i < |s.inHand| && s.senders && |s.queue| < s.capacity && s.phase != Stopped
    case DropSenders => s.senders && s.inHand == []
    case Receive => s.phase == Waiting && (s.queue != [] || !s.senders)
    case Tick => s.phase == Waiting
    case Commit => s.phase.Writing? && SidesOk(s.batch)
    case Fail(_, atCommit) => s.phase.Writing? && (atCommit ==> SidesOk(s.batch))
    case Park(_) => s.phase.Parking?
    case ParkFail => s.phase.Parking?
    case LandLate(i) => i < |s.limbo|
  }

  /** After a flush: the batch is cleared, and the closing flush ends the task. */
  function Settle(s: State, last: bool, fate: Fate): State {
    s.(batch := [],
       phase := if last then Stopped else Waiting,
       handled := s.handled + [Handled(s.batch, fate)])
  }

  function Without<T>(xs: seq<T>, i: nat): (r: seq<T>)
    requires i < |xs|
    ensures multiset(r) + multiset{xs[i]} == multiset(xs)
  {
    assert xs == xs[..i] + [xs[i]] + xs[i + 1..];
    xs[..i] + xs[i + 1..]
  }

  function Land(s: State, batch: seq<PendingWrite>): State
    requires batch != []
  {
    s.(store := CommitBatch(s.store, batch), landed := s.landed + [batch])
  }

  predicate BatchesNonempty(s: State) {
    && (s.phase.Writing? || s.phase.Parking? ==> s.batch != [])
    && (forall i :: 0 <= i < |s.limbo| ==> s.limbo[i] != [])
  }

  function Next(s: State, a: Action): State
    requires Enabled(s, a) && BatchesNonempty(s)
  {
    match a
    case Check(row) =>
      s.(inHand := s.inHand + [row], head := Max(s.head, row.event.slot))
    case Send(i) =>
      s.(inHand := Without(s.inHand, i),
         queue := s.queue + [s.inHand[i]],
         accepted := s.accepted + [s.inHand[i]])
    case DropSenders =>
      s.(senders := false)
    case Receive =>
      if s.queue != [] then
        var s' := s.(queue := s.queue[1..], batch := s.batch + [s.queue[0]]);
        if |s'.batch| >= BATCH_SIZE then s'.(phase := Writing(false)) else s'
      else if s.batch != [] then s.(phase := Writing(true))
      else s.(phase := Stopped)
    case Tick =>
      if s.batch != [] then s.(phase := Writing(false)) else s
    case Commit =>
      Settle(Land(s, s.batch).(committed := Max(s.committed, CheckpointOf(s.batch).slot)), s.phase.last, Committed)
    case Fail(timedOut, atCommit) =>
      s.(phase := Parking(timedOut, atCommit, s.phase.last),
         limbo := if atCommit then s.limbo + [s.batch] else s.limbo)
    case Park(error) =>
      Settle(s.(store := s.store.(deadLetters := s.store.deadLetters + Letters(s.batch, error))),
             s.phase.last, Failed(s.phase.timedOut, s.phase.atCommit, Some(error)))
    case ParkFail =>
      Settle(s, s.phase.last, Failed(s.phase.timedOut, s.phase.atCommit, None))
    case LandLate(i) =>
      Land(s, s.limbo[i]).(limbo := Without(s.limbo, i))
  }

  // ----- The invariant -----

  function RowsOf(handled: seq<Handled>): seq<seq<PendingWrite>> {
    seq(|handled|, i requires 0 <= i < |handled| => handled[i].rows)
  }

  predicate SentCommit(h: Handled) { h.fate.Committed? || h.fate.atCommit }

  /** The batches for which COMMIT was sent. */
  function Attempts(handled: seq<Handled>): multiset<seq<PendingWrite>> {
    if handled == [] then multiset{}
    else
      var n := |handled| - 1;
      Attempts(handled[..n]) + if SentCommit(handled[n]) then multiset{handled[n].rows} else multiset{}
  }

  function OpenAttempt(s: State): multiset<seq<PendingWrite>> {
    if s.phase.Parking? && s.phase.atCommit then multiset{s.batch} else multiset{}
  }

  /** Conservation: the accepted rows are, in FIFO order, the handled batches, the current
      batch and the queue. */
  predicate Conserved(s: State) {
    s.accepted == Flatten(RowsOf(s.handled)) + s.batch + s.queue
  }

  predicate Shape(s: State) {
    && BatchesNonempty(s)
    && |s.batch| <= BATCH_SIZE
    && (s.phase == Waiting ==> |s.batch| < BATCH_SIZE)
    && (s.phase == Stopped ==> s.batch == [] && s.queue == [] && !s.senders)
    && (s.phase.Writing? && s.phase.last ==> s.queue == [] && !s.senders)
    && (s.phase.Parking? && s.phase.last ==> s.queue == [] && !s.senders)
    && (!s.senders ==> s.inHand == [])
    && |s.queue| <= s.capacity
    && (forall h :: h in s.handled ==> 1 <= |h.rows| <= BATCH_SIZE)
  }

  /** Each batch whose COMMIT was sent takes effect at most once, and every batch the writer
      counts as committed took effect. */
  predicate LandedOnceOf(landed: seq<seq<PendingWrite>>, limbo: seq<seq<PendingWrite>>,
                         handled: seq<Handled>, pending: multiset<seq<PendingWrite>>)
  {
    && multiset(landed) + multiset(limbo) == Attempts(handled) + pending
    && (forall h :: h in handled && h.fate.Committed? ==> h.rows in landed)
    && (forall b :: b in landed ==> b != [] && SidesOk(b))
    && (forall b :: b in limbo ==> b != [] && SidesOk(b))
  }

  predicate LandedOnce(s: State) {
    LandedOnceOf(s.landed, s.limbo, s.handled, OpenAttempt(s))
  }

  predicate SlotsBelow(rows: seq<PendingWrite>, head: nat) {
    forall i :: 0 <= i < |rows| ==> rows[i].event.slot <= head
  }

  predicate HeadLeads(s: State) {
    && s.committed <= s.head
    && SlotsBelow(s.inHand, s.head)
    && SlotsBelow(s.queue, s.head)
    && SlotsBelow(s.batch, s.head)
  }

  predicate Inv(s: State) {
    Conserved(s) && Shape(s) && LandedOnce(s) && HeadLeads(s) && StoreInv(s.store)
  }

  function Init(capacity: nat, store: Tables, head: nat, committed: nat): State {
    State(capacity, [], [], true, [], Waiting, store, [], head, committed, [], [], [])
  }

  lemma InitInv(capacity: nat, store: Tables, head: nat, committed: nat)
    requires StoreInv(store) && committed <= head
    ensures Inv(Init(capacity, store, head, committed))
  {}

  // ----- Each action keeps each part -----

  lemma RowsOfSnoc(handled: seq<Handled>, h: Handled)
    ensures Flatten(RowsOf(handled + [h])) == Flatten(RowsOf(handled)) + h.rows
  {
    assert RowsOf(handled + [h]) == RowsOf(handled) + [h.rows];
    FlattenSnoc(RowsOf(handled), h.rows);
  }

  lemma SettleConserves(s: State, last: bool, fate: Fate)
    requires Conserved(s)
    ensures Conserved(Settle(s, last, fate))
  {
    RowsOfSnoc(s.handled, Handled(s.batch, fate));
    assert Flatten(RowsOf(s.handled)) + s.batch + [] + s.queue == Flatten(RowsOf(s.handled)) + s.batch + s.queue;
  }

  lemma TakeConserves(done: seq<PendingWrite>, batch: seq<PendingWrite>, queue: seq<PendingWrite>)
    requires queue != []
    ensures done + (batch + [queue[0]]) + queue[1..] == done + batch + queue
  {}

  lemma SendConserves(done: seq<PendingWrite>, batch: seq<PendingWrite>, queue: seq<PendingWrite>, row: PendingWrite)
    ensures done + batch + (queue + [row]) == done + batch + queue + [row]
  {}

  lemma ConservedStep(s: State, a: Action)
    requires Conserved(s) && BatchesNonempty(s) && Enabled(s, a)
    ensures Conserved(Next(s, a))
  {
    var done := Flatten(RowsOf(s.handled));
    match a
    case Check(_) =>
    case Send(i) => SendConserves(done, s.batch, s.queue, s.inHand[i]);
    case DropSenders =>
    case Receive => if s.queue != [] { TakeConserves(done, s.batch, s.queue); }
    case Tick =>
    case Commit =>
      var landed := Land(s, s.batch).(committed := Max(s.committed, CheckpointOf(s.batch).slot));
      SettleConserves(landed, s.phase.last, Committed);
    case Fail(_, _) =>
    case Park(error) =>
      SettleConserves(s.(store := s.store.(deadLetters := s.store.deadLetters + Letters(s.batch, error))),
                      s.phase.last, Failed(s.phase.timedOut, s.phase.atCommit, Some(error)));
    case ParkFail => SettleConserves(s, s.phase.last, Failed(s.phase.timedOut, s.phase.atCommit, None));
    case LandLate(_) =>
  }

  lemma ShapeStep(s: State, a: Action)
    requires Shape(s) && Enabled(s, a)
    ensures Shape(Next(s, a))
  {
    hide CommitBatch, SidesOk, Letters, Newest;
  }

  lemma AttemptsSnoc(handled: seq<Handled>, h: Handled)
    ensures Attempts(handled + [h]) == Attempts(handled) + if SentCommit(h) then multiset{h.rows} else multiset{}
  {
    assert (handled + [h])[..|handled|] == handled;
  }

  lemma LandLateOnce(landed: seq<seq<PendingWrite>>, limbo: seq<seq<PendingWrite>>,
                     handled: seq<Handled>, pending: multiset<seq<PendingWrite>>, i: nat)
    requires LandedOnceOf(landed, limbo, handled, pending) && i < |limbo|
    ensures LandedOnceOf(landed + [limbo[i]], Without(limbo, i), handled, pending)
  {
    var b, rest := limbo[i], Without(limbo, i);
    assert b in limbo;
    assert multiset(landed + [b]) == multiset(landed) + multiset{b};
    forall x | x in rest ensures x in limbo {
      assert x in multiset(rest) + multiset{b};
    }
  }

  lemma CommitOnce(landed: seq<seq<PendingWrite>>, limbo: seq<seq<PendingWrite>>,
                   handled: seq<Handled>, batch: seq<PendingWrite>)
    requires LandedOnceOf(landed, limbo, handled, multiset{}) && batch != [] && SidesOk(batch)
    ensures LandedOnceOf(landed + [batch], limbo, handled + [Handled(batch, Committed)], multiset{})
  {
    var h := Handled(batch, Committed);
    AttemptsSnoc(handled, h);
    assert multiset(landed + [batch]) == multiset(landed) + multiset{batch};
    assert multiset(landed + [batch]) + multiset(limbo) == (multiset(landed) + multiset(limbo)) + multiset{batch};
    assert forall b :: b in landed + [batch] ==> b in landed || b == batch;
  }

  /** A batch that failed leaves the flush: its attempt, if there was one, is now recorded. */
  lemma FailOnce(landed: seq<seq<PendingWrite>>, limbo: seq<seq<PendingWrite>>,
                 handled: seq<Handled>, batch: seq<PendingWrite>, fate: Fate)
    requires fate.Failed?
    requires LandedOnceOf(landed, limbo, handled, if fate.atCommit then multiset{batch} else multiset{})
    ensures LandedOnceOf(landed, limbo, handled + [Handled(batch, fate)], multiset{})
  {
    var h := Handled(batch, fate);
    AttemptsSnoc(handled, h);
  }

  /** COMMIT is sent and its answer never comes. */
  lemma SendCommitOnce(landed: seq<seq<PendingWrite>>, limbo: seq<seq<PendingWrite>>,
                       handled: seq<Handled>, batch: seq<PendingWrite>)
    requires LandedOnceOf(landed, limbo, handled, multiset{}) && batch != [] && SidesOk(batch)
    ensures LandedOnceOf(landed, limbo + [batch], handled, multiset{batch})
  {
    assert multiset(limbo + [batch]) == multiset(limbo) + multiset{batch};
    assert multiset(landed) + multiset(limbo + [batch]) == (multiset(landed) + multiset(limbo)) + multiset{batch};
    assert forall b :: b in limbo + [batch] ==> b in limbo || b == batch;
  }

  /** The books of a state: what landed, what is in limbo, what was handled, what is pending. */
  lemma QuietBooks(s: State, a: Action)
    requires BatchesNonempty(s) && Enabled(s, a)
    requires a.Check? || a.Send? || a.DropSenders? || a.Receive? || a.Tick?
    ensures var s' := Next(s, a);
            s'.landed == s.landed && s'.limbo == s.limbo && s'.handled == s.handled && OpenAttempt(s') == OpenAttempt(s)
  {}

  lemma LandedOnceStep(s: State, a: Action)
    requires LandedOnce(s) && BatchesNonempty(s) && Enabled(s, a)
    ensures LandedOnce(Next(s, a))
  {
    hide LandedOnceOf, CommitBatch, SidesOk;
    if a.Commit? {
      CommitOnce(s.landed, s.limbo, s.handled, s.batch);
    } else if a.Park? || a.ParkFail? {
      var parked := if a.Park? then Some(a.error) else None;
      FailOnce(s.landed, s.limbo, s.handled, s.batch, Failed(s.phase.timedOut, s.phase.atCommit, parked));
    } else if a.LandLate? {
      LandLateOnce(s.landed, s.limbo, s.handled, OpenAttempt(s), a.i);
    } else if a.Fail? {
      if a.atCommit { SendCommitOnce(s.landed, s.limbo, s.handled, s.batch); }
    } else {
      QuietBooks(s, a);
    }
  }

  lemma HeadLeadsStep(s: State, a: Action)
    requires HeadLeads(s) && Shape(s) && Enabled(s, a)
    ensures HeadLeads(Next(s, a))
    ensures s.head <= Next(s, a).head && s.committed <= Next(s, a).committed
  {
    hide CommitBatch, SidesOk, Letters;
  }

  lemma StoreStep(s: State, a: Action)
    requires StoreInv(s.store) && LandedOnce(s) && Shape(s) && Enabled(s, a)
    ensures StoreInv(Next(s, a).store)
    ensures Extends(s.store.events, Next(s, a).store.events)
    ensures Extends(s.store.trades, Next(s, a).store.trades)
  {
    match a
    case Commit => CommitKeepsInv(s.store, s.batch);
    case LandLate(i) => assert s.limbo[i] in s.limbo; CommitKeepsInv(s.store, s.limbo[i]);
    case _ =>
  }

  lemma InvStep(s: State, a: Action)
    requires Inv(s) && Enabled(s, a)
    ensures Inv(Next(s, a))
    ensures Extends(s.store.events, Next(s, a).store.events)
    ensures Extends(s.store.trades, Next(s, a).store.trades)
  {
    ConservedStep(s, a);
    ShapeStep(s, a);
    LandedOnceStep(s, a);
    HeadLeadsStep(s, a);
    StoreStep(s, a);
  }
}
