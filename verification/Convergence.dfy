/** What the tables hold does not depend on how rows were batched, nor, under an exact
    condition on the input, on how often the process crashed before a clean pass. */
module Convergence {
  import opened Rows
  import opened Store
  import opened Protocol
  import opened Runs

  // ----- Batching is invisible -----

  /** One flush without faults: a batch with a side the CHECK constraint refuses rolls back. */
  function Attempt(t: Tables, batch: seq<PendingWrite>): Tables {
    if batch != [] && SidesOk(batch) then CommitBatch(t, batch) else t
  }

  function AttemptAll(t: Tables, batches: seq<seq<PendingWrite>>): Tables
    decreases |batches|
  {
    if batches == [] then t else AttemptAll(Attempt(t, batches[0]), batches[1..])
  }

  lemma SidesOkParts(a: seq<PendingWrite>, b: seq<PendingWrite>)
    ensures SidesOk(a + b) <==> SidesOk(a) && SidesOk(b)
  {
    if SidesOk(a + b) {
      forall i | 0 <= i < |a| && a[i].trade.Some? ensures SideOk(a[i].trade.value) { assert (a + b)[i] == a[i]; }
      forall i | 0 <= i < |b| && b[i].trade.Some? ensures SideOk(b[i].trade.value) { assert (a + b)[|a| + i] == b[i]; }
    }
  }

  lemma {:induction false} AttemptAllInserts(t: Tables, batches: seq<seq<PendingWrite>>)
    requires SidesOk(Flatten(batches))
    ensures AttemptAll(t, batches).events == Insert(t.events, EventPairs(Flatten(batches)))
    ensures AttemptAll(t, batches).trades == Insert(t.trades, TradePairs(Flatten(batches)))
    decreases |batches|
  {
    if batches != [] {
      var b, rest := batches[0], Flatten(batches[1..]);
      SidesOkParts(b, rest);
      AttemptAllInserts(Attempt(t, b), batches[1..]);
      EventPairsConcat(b, rest);
      TradePairsConcat(b, rest);
      InsertConcat(t.events, EventPairs(b), EventPairs(rest));
      InsertConcat(t.trades, TradePairs(b), TradePairs(rest));
    }
  }

  function Singles(rows: seq<PendingWrite>): seq<seq<PendingWrite>> {
    if rows == [] then [] else [[rows[0]]] + Singles(rows[1..])
  }

  lemma {:induction false} FlattenSingles(rows: seq<PendingWrite>)
    ensures Flatten(Singles(rows)) == rows
  {
    if rows != [] {
      FlattenSingles(rows[1..]);
      assert Singles(rows)[1..] == Singles(rows[1..]);
    }
  }

  /** Every way of cutting the same rows into batches gives the events and trades of
      inserting them one row at a time. */
  lemma BatchingInvisible(t: Tables, batches: seq<seq<PendingWrite>>)
    requires SidesOk(Flatten(batches))
    ensures AttemptAll(t, batches).events == AttemptAll(t, Singles(Flatten(batches))).events
    ensures AttemptAll(t, batches).trades == AttemptAll(t, Singles(Flatten(batches))).trades
  {
    FlattenSingles(Flatten(batches));
    AttemptAllInserts(t, batches);
    AttemptAllInserts(t, Singles(Flatten(batches)));
  }

  lemma {:induction false} FirstTrade(rows: seq<PendingWrite>, k: EventKey)
    ensures First(TradePairs(rows), k) == None <==>
              forall i :: 0 <= i < |rows| && rows[i].event.key == k ==> rows[i].trade == None
    ensures First(TradePairs(rows), k).Some? ==>
              exists i :: 0 <= i < |rows| && rows[i].event.key == k && rows[i].trade.Some?
                          && First(TradePairs(rows), k).value == Stored(rows[i].event, rows[i].trade.value)
                          && forall j :: 0 <= j < i && rows[j].event.key == k ==> rows[j].trade == None
  {
    if rows != [] {
      var rest := rows[1..];
      FirstTrade(rest, k);
      FirstConcat(TradePair(rows[0]), TradePairs(rest), k);
      assert forall i :: 0 < i < |rows| ==> rows[i] == rest[i - 1];
      if First(TradePair(rows[0]), k).None? && First(TradePairs(rest), k).Some? {
        var i :| 0 <= i < |rest| && rest[i].event.key == k && rest[i].trade.Some?
                 && First(TradePairs(rest), k).value == Stored(rest[i].event, rest[i].trade.value)
                 && forall j :: 0 <= j < i && rest[j].event.key == k ==> rest[j].trade == None;
        assert rows[i + 1] == rest[i];
      }
    }
  }

  /** Per key, a stored row stays; otherwise the first event wins, and independently of it
      the first row that carries a trade wins. */
  lemma FirstWins(t: Tables, batches: seq<seq<PendingWrite>>, k: EventKey)
    requires SidesOk(Flatten(batches))
    ensures var rows, t' := Flatten(batches), AttemptAll(t, batches);
            && (k in t.events ==> k in t'.events && t'.events[k] == t.events[k])
            && (k in t.trades ==> k in t'.trades && t'.trades[k] == t.trades[k])
            && (k !in t.events && k in t'.events ==>
                  exists i :: 0 <= i < |rows| && rows[i].event == t'.events[k] && rows[i].event.key == k
                              && forall j :: 0 <= j < i ==> rows[j].event.key != k)
            && (k !in t'.events ==> forall i :: 0 <= i < |rows| ==> rows[i].event.key != k)
            && (k !in t.trades && k in t'.trades ==>
                  exists i :: 0 <= i < |rows| && rows[i].event.key == k && rows[i].trade.Some?
                              && t'.trades[k] == StoredTrade(rows[i].event.slot, rows[i].event.blockTime,
                                                             rows[i].event.program, rows[i].trade.value)
                              && forall j :: 0 <= j < i && rows[j].event.key == k ==> rows[j].trade == None)
            && (k !in t'.trades ==> forall i :: 0 <= i < |rows| && rows[i].event.key == k ==> rows[i].trade == None)
  {
    var rows, t' := Flatten(batches), AttemptAll(t, batches);
    AttemptAllInserts(t, batches);
    InsertLookup(t.events, EventPairs(rows), k);
    InsertLookup(t.trades, TradePairs(rows), k);
    assert Lookup(t'.events, k) == if k in t.events then Some(t.events[k]) else First(EventPairs(rows), k);
    assert Lookup(t'.trades, k) == if k in t.trades then Some(t.trades[k]) else First(TradePairs(rows), k);
    FirstMeaning(EventPairs(rows), k);
    FirstTrade(rows, k);
    if First(EventPairs(rows), k).Some? {
      var i :| 0 <= i < |rows| && EventPairs(rows)[i] == (k, First(EventPairs(rows), k).value)
               && forall j :: 0 <= j < i ==> EventPairs(rows)[j].0 != k;
      assert forall j :: 0 <= j < i ==> EventPairs(rows)[j].0 == rows[j].event.key;
      assert rows[i].event.key == k;
    } else {
      assert forall j :: 0 <= j < |rows| ==> EventPairs(rows)[j].0 == rows[j].event.key;
    }
  }

  // ----- Crashes and restarts -----

  /** A kill and a fresh start: memory is gone, a COMMIT already sent may still land. */
  function Restart(s: State): State {
    s.(inHand := [], queue := [], senders := true, batch := [], phase := Waiting, accepted := [], handled := [])
  }

  /** A run of several process lives with a kill after each but the last. */
  function Lives(s: State, lives: seq<seq<Action>>): Option<State>
    decreases |lives|
  {
    if lives == [] then Some(s)
    else match Exec(Restart(s), lives[0])
      case None => None
      case Some(s') => Lives(s', lives[1..])
  }

  /** The processes read nothing but the input. */
  predicate Reads(run: seq<Action>, input: seq<PendingWrite>) {
    forall i :: 0 <= i < |run| && run[i].Check? ==> run[i].row in input
  }

  predicate AllIn(rows: seq<PendingWrite>, input: seq<PendingWrite>) {
    forall row :: row in rows ==> row in input
  }

  /** Whatever is anywhere in the system came from the input. */
  predicate FromInput(s: State, start: Tables, input: seq<PendingWrite>) {
    && AllIn(s.inHand, input) && AllIn(s.queue, input) && AllIn(s.batch, input)
    && (forall b :: b in s.limbo ==> AllIn(b, input))
    && AllIn(Flatten(s.landed), input)
    && s.store.events == Insert(start.events, EventPairs(Flatten(s.landed)))
    && s.store.trades == Insert(start.trades, TradePairs(Flatten(s.landed)))
  }

  lemma LandFromInput(s: State, start: Tables, input: seq<PendingWrite>, batch: seq<PendingWrite>)
    requires FromInput(s, start, input) && batch != [] && AllIn(batch, input)
    ensures FromInput(Land(s, batch), start, input)
  {
    FlattenSnoc(s.landed, batch);
    LandInLedger(start, s.store, s.landed, batch);
  }

  lemma FromInputStep(s: State, start: Tables, input: seq<PendingWrite>, a: Action)
    requires FromInput(s, start, input) && BatchesNonempty(s) && Enabled(s, a)
    requires a.Check? ==> a.row in input
    ensures FromInput(Next(s, a), start, input)
    ensures BatchesNonempty(Next(s, a))
  {
    hide SidesOk, Insert, CommitBatch, Letters, TradePairs;
    if a.Commit? {
      LandFromInput(s, start, input, s.batch);
    } else if a.LandLate? {
      assert s.limbo[a.i] in s.limbo;
      LandFromInput(s, start, input, s.limbo[a.i]);
    }
  }

  lemma {:induction false} FromInputRun(s: State, start: Tables, input: seq<PendingWrite>, run: seq<Action>)
    requires FromInput(s, start, input) && BatchesNonempty(s) && Reads(run, input) && Exec(s, run).Some?
    ensures FromInput(Exec(s, run).value, start, input) && BatchesNonempty(Exec(s, run).value)
    decreases |run|
  {
    hide FromInput, BatchesNonempty;
    if run != [] {
      FromInputStep(s, start, input, run[0]);
      assert Reads(run[1..], input) by {
        forall i | 0 <= i < |run[1..]| && run[1..][i].Check? ensures run[1..][i].row in input {
          assert run[1..][i] == run[i + 1];
        }
      }
      FromInputRun(Next(s, run[0]), start, input, run[1..]);
    }
  }

  lemma {:induction false} FromInputLives(s: State, start: Tables, input: seq<PendingWrite>, lives: seq<seq<Action>>)
    requires FromInput(s, start, input) && BatchesNonempty(s)
    requires (forall r :: r in lives ==> Reads(r, input)) && Lives(s, lives).Some?
    ensures FromInput(Lives(s, lives).value, start, input)
    decreases |lives|
  {
    if lives != [] {
      assert lives[0] in lives;
      FromInputRun(Restart(s), start, input, lives[0]);
      FromInputLives(Exec(Restart(s), lives[0]).value, start, input, lives[1..]);
    }
  }

  /** The input never carries two different events under one key that is not stored yet. */
  predicate NoConflict(events: Events, input: seq<PendingWrite>) {
    forall i, j :: 0 <= i < |input| && 0 <= j < |input| ==>
      input[i].event.key == input[j].event.key && input[i].event.key !in events ==> input[i].event == input[j].event
  }

  /** With no conflict, any two row sequences over the same rows store the same events. */
  lemma SameRowsSameEvents(events: Events, input: seq<PendingWrite>, rows: seq<PendingWrite>)
    requires NoConflict(events, input) && AllIn(rows, input) && AllIn(input, rows)
    ensures Insert(events, EventPairs(rows)) == Insert(events, EventPairs(input))
  {
    var a, b := EventPairs(rows), EventPairs(input);
    forall k ensures Lookup(Insert(events, a), k) == Lookup(Insert(events, b), k) {
      InsertLookup(events, a, k);
      InsertLookup(events, b, k);
      FirstMeaning(a, k);
      FirstMeaning(b, k);
      if First(b, k).Some? {
        var i :| 0 <= i < |b| && b[i] == (k, First(b, k).value);
        assert input[i] in rows;
        var j :| 0 <= j < |rows| && rows[j] == input[i];
        assert a[j].0 == k;
      }
      if k !in events && First(a, k).Some? {
        var i :| 0 <= i < |a| && a[i] == (k, First(a, k).value);
        assert rows[i] in input;
        var j :| 0 <= j < |input| && input[j] == rows[i];
        assert b[j].0 == k;
        var j' :| 0 <= j' < |b| && b[j'] == (k, First(b, k).value);
        assert input[j].event == input[j'].event;
      }
    }
    MapsEqual(Insert(events, a), Insert(events, b));
  }

  /** The last life was a clean pass: it read the whole input, committed every batch and
      stopped in order. */
  predicate CleanPass(s: State, input: seq<PendingWrite>) {
    s.phase == Stopped && s.accepted == input && forall h :: h in s.handled ==> h.fate == Committed
  }

  /** What one life keeps, whatever was in limbo when it began. */
  predicate LifeInv(s: State) {
    Conserved(s) && Shape(s) && forall h :: h in s.handled && h.fate.Committed? ==> h.rows in s.landed
  }

  lemma LifeInvStep(s: State, a: Action)
    requires LifeInv(s) && Enabled(s, a)
    ensures LifeInv(Next(s, a))
  {
    hide SidesOk, CommitBatch, Letters, Conserved;
    ConservedStep(s, a);
    ShapeStep(s, a);
  }

  lemma {:induction false} LifeInvRun(s: State, run: seq<Action>)
    requires LifeInv(s) && Exec(s, run).Some?
    ensures LifeInv(Exec(s, run).value)
    decreases |run|
  {
    hide LifeInv;
    if run != [] {
      LifeInvStep(s, run[0]);
      LifeInvRun(Next(s, run[0]), run[1..]);
    }
  }

  lemma {:induction false} LifeInvLives(s: State, lives: seq<seq<Action>>)
    requires LifeInv(s) && Lives(s, lives).Some?
    ensures LifeInv(Lives(s, lives).value)
    decreases |lives|
  {
    if lives != [] {
      LifeInvRun(Restart(s), lives[0]);
      LifeInvLives(Exec(Restart(s), lives[0]).value, lives[1..]);
    }
  }

  lemma CleanPassLandsAll(s: State, input: seq<PendingWrite>)
    requires LifeInv(s) && CleanPass(s, input)
    ensures AllIn(input, Flatten(s.landed))
  {
    forall row | row in input ensures row in Flatten(s.landed) {
      assert row in Flatten(RowsOf(s.handled));
      InFlatten(RowsOf(s.handled), row);
      var rows :| rows in RowsOf(s.handled) && row in rows;
      var i :| 0 <= i < |s.handled| && RowsOf(s.handled)[i] == rows;
      assert s.handled[i] in s.handled;
      InFlatten(s.landed, row);
    }
  }

  /** Crash-restart convergence: whatever lives came before, a clean last pass over the same
      input leaves the events of one clean pass from the same start. */
  lemma CrashRestartConverges(capacity: nat, start: Tables, input: seq<PendingWrite>, lives: seq<seq<Action>>)
    requires NoConflict(start.events, input)
    requires Lives(Init(capacity, start, 0, 0), lives).Some?
    requires forall r :: r in lives ==> Reads(r, input)
    requires CleanPass(Lives(Init(capacity, start, 0, 0), lives).value, input)
    ensures Lives(Init(capacity, start, 0, 0), lives).value.store.events == Insert(start.events, EventPairs(input))
  {
    var s, e := Init(capacity, start, 0, 0), Lives(Init(capacity, start, 0, 0), lives).value;
    InitFromInput(capacity, start, input);
    FromInputLives(s, start, input, lives);
    LifeInvLives(s, lives);
    CleanPassLandsAll(e, input);
    SameRowsSameEvents(start.events, input, Flatten(e.landed));
  }

  // ----- The condition is exact -----

  /** A producer and a writer with nothing to do. */
  predicate Idle(s: State) {
    && s.capacity > 0 && s.inHand == [] && s.queue == [] && s.senders && s.batch == [] && s.phase == Waiting
    && BatchesNonempty(s)
  }

  /** One row through an idle system, flushed by a tick and then committed or lost. */
  function RowRun(row: PendingWrite, lands: bool): seq<Action> {
    [Check(row), Send(0), Receive, Tick] + if lands then [Commit] else [Fail(false, false), ParkFail]
  }

  /** An idle system after one row went through the channel into the batch and a tick came. */
  function Flushing(s: State, row: PendingWrite): State {
    s.(head := Max(s.head, row.event.slot), accepted := s.accepted + [row], batch := [row], phase := Writing(false))
  }

  lemma RowIn(s: State, row: PendingWrite, tail: seq<Action>)
    requires Idle(s)
    ensures Exec(s, [Check(row), Send(0), Receive, Tick] + tail) == Exec(Flushing(s, row), tail)
  {
    hide CommitBatch, Exec;
    var s1 := Next(s, Check(row));
    assert s1.inHand == [row];
    var s2 := Next(s1, Send(0));
    assert s2.inHand == [] && s2.queue == [row];
    var s3 := Next(s2, Receive);
    assert s3.queue == [] && s3.batch == [row] && s3.phase == Waiting;
    assert Next(s3, Tick) == Flushing(s, row);
    assert [Check(row), Send(0), Receive, Tick] + tail == [Check(row)] + ([Send(0)] + ([Receive] + ([Tick] + tail)));
    ExecCons(s, Check(row), [Send(0)] + ([Receive] + ([Tick] + tail)));
    ExecCons(s1, Send(0), [Receive] + ([Tick] + tail));
    ExecCons(s2, Receive, [Tick] + tail);
    ExecCons(s3, Tick, tail);
  }

  lemma RowLands(s: State)
    requires BatchesNonempty(s) && s.phase == Writing(false) && SidesOk(s.batch)
    ensures Exec(s, [Commit]) == Some(Next(s, Commit))
  {
    hide CommitBatch, SidesOk;
    assert [Commit] == [Commit] + [];
    ExecCons(s, Commit, []);
  }

  lemma RowLost(s: State)
    requires BatchesNonempty(s) && s.phase == Writing(false)
    ensures Exec(s, [Fail(false, false), ParkFail]) == Some(Settle(s, false, Failed(false, false, None)))
  {
    hide CommitBatch, SidesOk;
    assert [Fail(false, false), ParkFail] == [Fail(false, false)] + ([ParkFail] + []);
    var s1 := Next(s, Fail(false, false));
    ExecCons(s, Fail(false, false), [ParkFail] + []);
    ExecCons(s1, ParkFail, []);
    assert Next(s1, ParkFail) == Settle(s, false, Failed(false, false, None));
  }

  lemma RowRunWorks(s: State, row: PendingWrite, lands: bool)
    requires Idle(s) && SidesOk([row])
    ensures var r := Exec(s, RowRun(row, lands));
            r.Some? && Idle(r.value) && r.value.accepted == s.accepted + [row]
            && r.value.limbo == s.limbo && r.value.capacity == s.capacity
            && r.value.landed == s.landed + (if lands then [[row]] else [])
            && r.value.handled == s.handled + [Handled([row], if lands then Committed else Failed(false, false, None))]
  {
    hide CommitBatch, SidesOk, Exec;
    var s' := Flushing(s, row);
    if lands {
      RowIn(s, row, [Commit]);
      RowLands(s');
    } else {
      RowIn(s, row, [Fail(false, false), ParkFail]);
      RowLost(s');
    }
  }

  /** Rows one by one, all committed or all lost. */
  function FeedRun(input: seq<PendingWrite>, land: bool): seq<Action> {
    if input == [] then [] else RowRun(input[0], land) + FeedRun(input[1..], land)
  }

  function Verdicts(input: seq<PendingWrite>, land: bool): (r: seq<Handled>)
    ensures |r| == |input|
    ensures forall h :: h in r ==> h.fate == if land then Committed else Failed(false, false, None)
  {
    if input == [] then []
    else [Handled([input[0]], if land then Committed else Failed(false, false, None))] + Verdicts(input[1..], land)
  }

  lemma FeedParts(input: seq<PendingWrite>, land: bool)
    requires input != []
    ensures FeedRun(input, land) == RowRun(input[0], land) + FeedRun(input[1..], land)
    ensures Singles(input) == [[input[0]]] + Singles(input[1..])
    ensures Verdicts(input, land)
            == [Handled([input[0]], if land then Committed else Failed(false, false, None))]
               + Verdicts(input[1..], land)
  {}

  lemma {:induction false} FeedRunWorks(s: State, input: seq<PendingWrite>, land: bool)
    requires Idle(s) && SidesOk(input)
    ensures var r := Exec(s, FeedRun(input, land));
            r.Some? && Idle(r.value) && r.value.accepted == s.accepted + input
            && r.value.landed == s.landed + (if land then Singles(input) else [])
            && r.value.handled == s.handled + Verdicts(input, land)
    decreases |input|
  {
    hide Idle, SidesOk, Exec, RowRun;
    if input == [] {
      ExecNil(s);
      assert s.accepted + [] == s.accepted && s.landed + [] == s.landed && s.handled + [] == s.handled;
    } else {
      hide FeedRun, Singles, Verdicts;
      var row, rest := input[0], input[1..];
      FeedParts(input, land);
      assert input == [row] + rest;
      SidesOkParts([row], rest);
      RowRunWorks(s, row, land);
      FeedRunWorks(Exec(s, RowRun(row, land)).value, rest, land);
      ExecConcat(s, RowRun(row, land), FeedRun(rest, land));
    }
  }

  lemma ReadsConcat(a: seq<Action>, b: seq<Action>, input: seq<PendingWrite>)
    requires Reads(a, input) && Reads(b, input)
    ensures Reads(a + b, input)
  {
    var ab := a + b;
    forall i | 0 <= i < |ab| && ab[i].Check? ensures ab[i].row in input {
      if i < |a| { assert ab[i] == a[i]; } else { assert ab[i] == b[i - |a|]; }
    }
  }

  lemma {:induction false} FeedRunReads(rows: seq<PendingWrite>, land: bool, input: seq<PendingWrite>)
    requires AllIn(rows, input)
    ensures Reads(FeedRun(rows, land), input)
    decreases |rows|
  {
    if rows != [] {
      FeedRunReads(rows[1..], land, input);
      ReadsConcat(RowRun(rows[0], land), FeedRun(rows[1..], land), input);
    }
  }

  /** A clean pass over the whole input, by itself. */
  function CleanRun(input: seq<PendingWrite>): seq<Action> {
    FeedRun(input, true) + [DropSenders, Receive]
  }

  lemma CleanRunWorks(s: State, input: seq<PendingWrite>)
    requires s.capacity > 0 && SidesOk(input) && BatchesNonempty(s)
    ensures var r := Exec(Restart(s), CleanRun(input));
            r.Some? && CleanPass(r.value, input) && r.value.landed == s.landed + Singles(input)
    ensures Reads(CleanRun(input), input)
  {
    FeedRunReads(input, true, input);
    ReadsConcat(FeedRun(input, true), [DropSenders, Receive], input);
    FeedRunWorks(Restart(s), input, true);
    var s1 := Exec(Restart(s), FeedRun(input, true)).value;
    ExecConcat(Restart(s), FeedRun(input, true), [DropSenders, Receive]);
    assert [DropSenders, Receive] == [DropSenders] + ([Receive] + []);
    ExecCons(s1, DropSenders, [Receive] + []);
    ExecCons(Next(s1, DropSenders), Receive, []);
  }

  /** A first life that loses every row before `j`, commits row `j` and is killed. */
  function CrashRun(input: seq<PendingWrite>, j: nat): seq<Action>
    requires j < |input|
  {
    FeedRun(input[..j], false) + RowRun(input[j], true)
  }

  lemma CrashRunWorks(s: State, input: seq<PendingWrite>, j: nat)
    requires Idle(s) && s == Restart(s) && SidesOk(input) && j < |input|
    ensures var r := Exec(s, CrashRun(input, j));
            r.Some? && Idle(r.value) && r.value.landed == s.landed + [[input[j]]]
    ensures Reads(CrashRun(input, j), input)
  {
    assert input == input[..j] + ([input[j]] + input[j + 1..]);
    SidesOkParts(input[..j], [input[j]] + input[j + 1..]);
    SidesOkParts([input[j]], input[j + 1..]);
    FeedRunWorks(s, input[..j], false);
    var s1 := Exec(s, FeedRun(input[..j], false)).value;
    RowRunWorks(s1, input[j], true);
    ExecConcat(s, FeedRun(input[..j], false), RowRun(input[j], true));
    FeedRunReads(input[..j], false, input);
    ReadsConcat(FeedRun(input[..j], false), RowRun(input[j], true), input);
  }

  /** Every sequence of lives over the input that ends in a clean pass leaves the events of
      one clean pass. */
  ghost predicate AlwaysConverges(start: Tables, input: seq<PendingWrite>) {
    forall capacity: nat, lives: seq<seq<Action>> ::
      var r := Lives(Init(capacity, start, 0, 0), lives);
      (forall l :: l in lives ==> Reads(l, input)) && r.Some? && CleanPass(r.value, input) ==>
        r.value.store.events == Insert(start.events, EventPairs(input))
  }

  lemma InitFromInput(capacity: nat, start: Tables, input: seq<PendingWrite>)
    ensures FromInput(Init(capacity, start, 0, 0), start, input) && LifeInv(Init(capacity, start, 0, 0))
  {
    InitLedger(capacity, start, 0, 0);
  }

  /** Row `j` lands alone, the process is killed, and a clean pass follows. */
  lemma CrashThenClean(start: Tables, input: seq<PendingWrite>, j: nat)
    requires SidesOk(input) && j < |input|
    ensures var r := Lives(Init(1, start, 0, 0), [CrashRun(input, j), CleanRun(input)]);
            r.Some? && CleanPass(r.value, input)
            && r.value.store.events == Insert(start.events, EventPairs([input[j]] + input))
    ensures Reads(CrashRun(input, j), input) && Reads(CleanRun(input), input)
  {
    hide Insert, SidesOk, CommitBatch, Exec, FromInput, CrashRun, CleanRun, Reads, CleanPass, EventPairs, LifeInv;
    var s := Init(1, start, 0, 0);
    var lives := [CrashRun(input, j), CleanRun(input)];
    CrashRunWorks(s, input, j);
    var s1 := Exec(s, CrashRun(input, j)).value;
    CleanRunWorks(s1, input);
    var e := Exec(Restart(s1), CleanRun(input)).value;
    assert lives[1..] == [CleanRun(input)];
    assert [CleanRun(input)][1..] == [];
    assert Lives(s1, [CleanRun(input)]) == Some(e);
    assert Lives(s, lives) == Some(e);
    InitFromInput(1, start, input);
    FromInputLives(s, start, input, lives);
    FlattenConcat([[input[j]]], Singles(input));
    FlattenSingles(input);
    assert Flatten([[input[j]]]) == [input[j]];
    LandedEvents(e, start, input);
  }

  lemma LandedEvents(s: State, start: Tables, input: seq<PendingWrite>)
    requires FromInput(s, start, input)
    ensures s.store.events == Insert(start.events, EventPairs(Flatten(s.landed)))
  {}

  /** Two different events under a free key: one crash makes the later one win. */
  lemma ConflictDiverges(start: Tables, input: seq<PendingWrite>, i: nat, j: nat)
    requires SidesOk(input) && i < |input| && j < |input|
    requires input[i].event.key == input[j].event.key && input[i].event.key !in start.events
    requires input[i].event != input[j].event
    requires forall m :: 0 <= m < i ==> input[m].event.key != input[i].event.key
    ensures !AlwaysConverges(start, input)
  {
    hide Insert, SidesOk, Lives, CleanPass, CrashRun, CleanRun, Reads;
    var k, rows := input[i].event.key, [input[j]] + input;
    CrashThenClean(start, input, j);
    InsertLookup(start.events, EventPairs(rows), k);
    InsertLookup(start.events, EventPairs(input), k);
    assert rows[0] == input[j];
    FirstAt(rows, 0);
    FirstAt(input, i);
  }

  lemma FirstAt(input: seq<PendingWrite>, i: nat)
    requires i < |input| && forall m :: 0 <= m < i ==> input[m].event.key != input[i].event.key
    ensures First(EventPairs(input), input[i].event.key) == Some(input[i].event)
  {
    var ps, k := EventPairs(input), input[i].event.key;
    FirstMeaning(ps, k);
    assert ps[i].0 == k;
    var n :| 0 <= n < |ps| && ps[n] == (k, First(ps, k).value) && forall m :: 0 <= m < n ==> ps[m].0 != k;
    assert n == i;
  }

  /** Crash-restart convergence holds for every pattern of faults and kills exactly when the
      input never carries two different events under one free key. */
  lemma ConvergesExactlyWithoutConflict(start: Tables, input: seq<PendingWrite>)
    requires SidesOk(input)
    ensures AlwaysConverges(start, input) <==> NoConflict(start.events, input)
  {
    if NoConflict(start.events, input) {
      forall capacity: nat, lives: seq<seq<Action>> |
        (forall l :: l in lives ==> Reads(l, input)) && Lives(Init(capacity, start, 0, 0), lives).Some?
        && CleanPass(Lives(Init(capacity, start, 0, 0), lives).value, input)
        ensures Lives(Init(capacity, start, 0, 0), lives).value.store.events == Insert(start.events, EventPairs(input))
      {
        CrashRestartConverges(capacity, start, input, lives);
      }
    } else {
      var i, j :| 0 <= i < |input| && 0 <= j < |input| && input[i].event.key == input[j].event.key
                  && input[i].event.key !in start.events && input[i].event != input[j].event;
      var f := FirstOccurrence(input, i);
      ConflictDiverges(start, input, f, if input[f].event != input[i].event then i else j);
    }
  }

  ghost function FirstOccurrence(input: seq<PendingWrite>, i: nat): (f: nat)
    requires i < |input|
    ensures f <= i && input[f].event.key == input[i].event.key
    ensures forall m :: 0 <= m < f ==> input[m].event.key != input[i].event.key
  {
    if exists m :: 0 <= m < i && input[m].event.key == input[i].event.key then
      var m :| 0 <= m < i && input[m].event.key == input[i].event.key;
      FirstOccurrence(input, m)
    else i
  }
}
