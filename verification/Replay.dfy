/** The file datasource with its passes, and the file check of `verify.rs`. */
module Replay {
  import opened Rows
  import opened Store
  import opened Database
  import opened Writer
  import opened Pipeline

  /** A line of the recording: a transaction with the events it decodes to, a line some decoding
      step refuses, or one the file system cannot read. */
  datatype Line = Usable(events: seq<EventRow>) | Unusable | Unreadable

  function Transactions(lines: seq<Line>): seq<seq<EventRow>> {
    if lines == [] then []
    else
      var n := |lines| - 1;
      Transactions(lines[..n]) + if lines[n].Usable? then [lines[n].events] else []
  }

  function Skips(lines: seq<Line>): nat {
    if lines == [] then 0
    else
      var n := |lines| - 1;
      Skips(lines[..n]) + if lines[n].Unusable? then 1 else 0
  }

  /** What is sent: of the usable lines the events, line after line. */
  lemma {:induction false} TransactionsAre(lines: seq<Line>)
    ensures forall e :: e in Flatten(Transactions(lines)) <==>
              exists i :: 0 <= i < |lines| && lines[i].Usable? && e in lines[i].events
  {
    if lines != [] {
      var n := |lines| - 1;
      TransactionsAre(lines[..n]);
      assert forall i :: 0 <= i < n ==> lines[..n][i] == lines[i];
      if lines[n].Usable? {
        FlattenSnoc(Transactions(lines[..n]), lines[n].events);
      } else {
        assert Transactions(lines) == Transactions(lines[..n]);
      }
      forall e ensures e in Flatten(Transactions(lines)) <==>
                         exists i :: 0 <= i < |lines| && lines[i].Usable? && e in lines[i].events {
        if i :| 0 <= i < n && lines[..n][i].Usable? && e in lines[..n][i].events {
          assert lines[i].Usable? && e in lines[i].events;
        }
      }
    }
  }

  /** A usable line is the transaction after those of the lines before it. */
  lemma {:induction false} TransactionAt(lines: seq<Line>, i: nat)
    requires i < |lines| && lines[i].Usable?
    ensures |Transactions(lines[..i])| < |Transactions(lines)|
    ensures Transactions(lines)[|Transactions(lines[..i])|] == lines[i].events
  {
    var n := |lines| - 1;
    if i == n {
      assert lines[..n] == lines[..i];
    } else {
      assert lines[..n][..i] == lines[..i] && lines[..n][i] == lines[i];
      TransactionAt(lines[..n], i);
    }
  }

  lemma {:induction false} EachLineOnce(lines: seq<Line>)
    requires Unreadable !in lines
    ensures |Transactions(lines)| + Skips(lines) == |lines|
  {
    if lines != [] {
      EachLineOnce(lines[..|lines| - 1]);
    }
  }

  function Repeat<T>(xs: seq<T>, n: nat): seq<T> {
    if n == 0 then [] else Repeat(xs, n - 1) + xs
  }

  lemma {:induction false} RepeatLength<T>(xs: seq<T>, n: nat)
    ensures |Repeat(xs, n)| == n * |xs|
  {
    if n != 0 {
      RepeatLength(xs, n - 1);
      assert n * |xs| == (n - 1) * |xs| + |xs|;
    }
  }

  /** Pass after pass the same sequence. */
  lemma {:induction false} RepeatAt<T>(xs: seq<T>, n: nat, pass: nat, j: nat)
    requires pass < n && j < |xs|
    ensures |Repeat(xs, n)| == n * |xs| && 0 <= pass * |xs| + j < n * |xs|
    ensures Repeat(xs, n)[pass * |xs| + j] == xs[j]
  {
    RepeatLength(xs, n);
    RepeatLength(xs, n - 1);
    assert n * |xs| == (n - 1) * |xs| + |xs|;
    if pass == n - 1 {
      assert Repeat(xs, n)[pass * |xs| + j] == xs[j];
    } else {
      RepeatAt(xs, n - 1, pass, j);
    }
  }

  /** Each line is counted once per pass, as sent or as skipped. */
  lemma CountedOncePerPass(lines: seq<Line>, passes: nat, at: nat)
    requires Unreadable !in lines && at <= |lines|
    ensures |Repeat(Transactions(lines), passes) + Transactions(lines[..at])| + passes * Skips(lines) +
              Skips(lines[..at])
            == passes * |lines| + at
  {
    RepeatLength(Transactions(lines), passes);
    EachLineOnce(lines);
    EachLineOnce(lines[..at]);
    assert passes * |Transactions(lines)| + passes * Skips(lines) == passes * (|Transactions(lines)| + Skips(lines));
  }

  /** How the source stopped: all passes done, told to stop, or an I/O error. */
  datatype End = Finished | Cancelled | Failed

  /** What a source still may do: `checks` cancellation checks pass before the token is
      cancelled, `sends` sends succeed before the receiver is gone. */
  datatype Leave = Leave(checks: nat, sends: nat)

  /** Enough to read `lines` lines `passes` times over. */
  predicate Enough(leave: Leave, passes: nat, lines: nat) {
    leave.checks >= passes * (lines + 1) && leave.sends >= passes * lines
  }

  lemma EnoughForOne(leave: Leave, passes: nat, lines: nat)
    requires passes > 0 && Enough(leave, passes, lines)
    ensures leave.checks >= lines + 1 && leave.sends >= lines
    ensures forall after: Leave :: after.checks >= leave.checks - (lines + 1) && after.sends >= leave.sends - lines ==>
              Enough(after, passes - 1, lines)
  {
    assert passes * (lines + 1) == (passes - 1) * (lines + 1) + (lines + 1);
    assert passes * lines == (passes - 1) * lines + lines;
    assert (passes - 1) * (lines + 1) >= 0 && (passes - 1) * lines >= 0;
  }

  /** One pass over the lines: each is sent or skipped until something stops the pass. */
  method Pass(lines: seq<Line>, before: Leave)
    returns (end: End, sent: seq<seq<EventRow>>, skipped: nat, at: nat, left: Leave)
    ensures at <= |lines| && sent == Transactions(lines[..at]) && skipped == Skips(lines[..at])
    ensures Unreadable !in lines[..at]
    ensures end == Finished <==> at == |lines|
    ensures end == Failed ==> at < |lines| && lines[at] == Unreadable
    ensures left.checks <= before.checks
    ensures before.checks >= |lines| && before.sends >= |lines| ==>
              && end != Cancelled
              && left.checks >= before.checks - |lines| && left.sends >= before.sends - |lines|
  {
    sent, skipped, at, left := [], 0, 0, before;
    while at < |lines|
      invariant 0 <= at <= |lines| && left.checks <= before.checks
      invariant sent == Transactions(lines[..at]) && skipped == Skips(lines[..at]) && Unreadable !in lines[..at]
      invariant left.checks == before.checks - at && left.sends >= before.sends - at
    {
      if left.checks == 0 { return Cancelled, sent, skipped, at, left; }
      left := left.(checks := left.checks - 1);
      assert lines[..at + 1][..at] == lines[..at];
      match lines[at] {
        case Unreadable => return Failed, sent, skipped, at, left;
        case Unusable => skipped := skipped + 1;
        case Usable(events) =>
          if left.sends == 0 { return Cancelled, sent, skipped, at, left; }
          left := left.(sends := left.sends - 1);
          sent := sent + [events];
      }
      at := at + 1;
    }
    end := Finished;
  }

  /** `ReplayDatasource::consume`: ends after `passes` whole passes and `at` lines of the next. */
  method Consume(file: Option<seq<Line>>, repeat: nat, leave: Leave)
    returns (end: End, sent: seq<seq<EventRow>>, skipped: nat, passes: nat, at: nat)
    ensures file.None? ==> sent == [] && skipped == 0 && end != Finished
    ensures file.Some? ==>
              && at <= |file.value|
              && sent == Repeat(Transactions(file.value), passes) + Transactions(file.value[..at])
              && skipped == passes * Skips(file.value) + Skips(file.value[..at])
              && Unreadable !in file.value[..at] && (passes > 0 ==> Unreadable !in file.value)
              && (end == Failed ==> at < |file.value| && file.value[at] == Unreadable)
              && (repeat > 0 && Enough(leave, repeat, |file.value|) ==> end != Cancelled)
    ensures file.None? && leave.checks > 0 ==> end == Failed
    ensures end == Finished ==> at == 0 && passes == repeat > 0
    ensures end != Finished ==> repeat == 0 || passes < repeat
  {
    hide Enough, Transactions, Skips, Repeat;
    sent, skipped, passes, at, end := [], 0, 0, 0, Finished;
    var left := leave;
    ghost var enough := file.Some? && repeat > 0 && Enough(leave, repeat, |file.value|);
    Beginning(if file.Some? then file.value else []);
    while true
      invariant repeat > 0 ==> passes < repeat
      invariant file.None? ==> sent == [] && skipped == 0
      invariant file.Some? ==> sent == Repeat(Transactions(file.value), passes) && skipped == passes * Skips(file.value)
      invariant file.Some? && passes > 0 ==> Unreadable !in file.value
      invariant file.None? ==> left == leave
      invariant enough ==> Enough(left, repeat - passes, |file.value|)
      decreases left.checks
    {
      if enough { EnoughForOne(left, repeat - passes, |file.value|); }
      if left.checks == 0 || file.None? {
        end := if left.checks == 0 then Cancelled else Failed;
        if file.Some? { NoLines(file.value); assert sent + [] == sent; }
        return end, sent, skipped, passes, 0;
      }
      var lines := file.value;
      var some, more;
      end, some, more, at, left := Pass(lines, left.(checks := left.checks - 1));
      if end != Finished {
        return end, sent + some, skipped + more, passes, at;
      }
      assert lines[..|lines|] == lines;
      PassDone(lines, passes);
      sent, skipped, passes, at := sent + some, skipped + more, passes + 1, 0;
      if repeat != 0 && passes >= repeat {
        NoLines(lines);
        assert sent + [] == sent;
        return;
      }
    }
  }

  lemma Beginning(lines: seq<Line>)
    ensures Repeat(Transactions(lines), 0) == [] && 0 * Skips(lines) == 0
  {}

  lemma NoLines(lines: seq<Line>)
    ensures Transactions(lines[..0]) == [] && Skips(lines[..0]) == 0
  {}

  lemma PassDone(lines: seq<Line>, passes: nat)
    ensures Repeat(Transactions(lines), passes) + Transactions(lines) == Repeat(Transactions(lines), passes + 1)
    ensures passes * Skips(lines) + Skips(lines) == (passes + 1) * Skips(lines)
  {}

  // ----- Passes over the same file -----

  lemma {:induction false} FlattenRepeat<T>(parts: seq<seq<T>>, n: nat)
    ensures Flatten(Repeat(parts, n)) == Repeat(Flatten(parts), n)
  {
    if n != 0 {
      FlattenRepeat(parts, n - 1);
      FlattenConcat(Repeat(parts, n - 1), parts);
    }
  }

  function Keyed(log: seq<EventRow>): (r: seq<(EventKey, EventRow)>)
    ensures |r| == |log| && forall i :: 0 <= i < |r| ==> r[i] == (log[i].key, log[i])
  {
    seq(|log|, i requires 0 <= i < |log| => (log[i].key, log[i]))
  }

  lemma {:induction false} RepeatedLog(events: Events, log: seq<EventRow>, n: nat)
    requires n > 0
    ensures Insert(events, Keyed(Repeat(log, n))) == Insert(events, Keyed(log))
  {
    hide Insert;
    if n == 1 {
      assert Repeat(log, 1) == Repeat(log, 0) + log == log;
    } else {
      RepeatedLog(events, log, n - 1);
      assert Keyed(Repeat(log, n)) == Keyed(Repeat(log, n - 1)) + Keyed(log);
      InsertConcat(events, Keyed(Repeat(log, n - 1)), Keyed(log));
      InsertKeeps(events, Keyed(log));
      InsertAbsorbed(Insert(events, Keyed(log)), Keyed(log));
    }
  }

  /** Storing n passes over a file is storing one, whatever trades each pass made of it. */
  lemma RepeatedPasses(events: Events, lines: seq<Line>, rows: seq<PendingWrite>, once: seq<PendingWrite>, n: nat)
    requires n > 0 && EventsOf(rows) == Flatten(Repeat(Transactions(lines), n))
    requires EventsOf(once) == Flatten(Transactions(lines))
    ensures Insert(events, EventPairs(rows)) == Insert(events, EventPairs(once))
  {
    hide Insert, Repeat, Transactions;
    FlattenRepeat(Transactions(lines), n);
    RepeatedLog(events, EventsOf(once), n);
    assert EventPairs(rows) == Keyed(EventsOf(rows));
    assert EventPairs(once) == Keyed(EventsOf(once));
  }

  // ----- run_verify -----

  function Signatures(log: seq<EventRow>): set<string> {
    set e | e in log :: e.key.signature
  }

  /** What the file check compares: the file's keys with the keys stored under its signatures. */
  predicate FileMatches(events: Events, log: seq<EventRow>) {
    KeysOf(log) == set k | k in events && k.signature in Signatures(log)
  }

  /** The lines before the first one that cannot be read; none of a file that cannot be opened. */
  function Readable(file: Option<seq<Line>>): seq<Line> {
    if file.None? then [] else UptoUnreadable(file.value)
  }

  function UptoUnreadable(lines: seq<Line>): seq<Line> {
    if lines == [] || lines[0] == Unreadable then [] else [lines[0]] + UptoUnreadable(lines[1..])
  }

  lemma {:induction false} UnreadableAt(lines: seq<Line>, at: nat)
    requires at <= |lines| && Unreadable !in lines[..at] && (at < |lines| ==> lines[at] == Unreadable)
    ensures UptoUnreadable(lines) == lines[..at]
  {
    if at > 0 {
      assert lines[..at][0] == lines[0] && lines[..at][1..] == lines[1..][..at - 1];
      UnreadableAt(lines[1..], at - 1);
    }
  }

  predicate Sound(file: Option<seq<Line>>) {
    file.Some? && Unreadable !in file.value
  }

  /** Every event of the file is stored. */
  ghost predicate FileStored(events: Events, lines: seq<Line>) {
    forall i, e :: 0 <= i < |lines| && lines[i].Usable? && e in lines[i].events ==> e.key in events
  }

  /** What is stored under a signature of the file is an event of the file. */
  ghost predicate NothingForeign(events: Events, lines: seq<Line>) {
    forall k, i, e :: k in events && 0 <= i < |lines| && lines[i].Usable? && e in lines[i].events
                      && e.key.signature == k.signature ==>
      exists j, f :: 0 <= j < |lines| && lines[j].Usable? && f in lines[j].events && f.key == k
  }

  /** The comparison of the two key sets, told from the lines of the file. */
  lemma MatchesMeans(events: Events, lines: seq<Line>)
    ensures var log := Flatten(Transactions(lines));
            && (FileMatches(events, log) <==> FileStored(events, lines) && NothingForeign(events, lines))
            && (NoForeignKeys(events, log) <==> NothingForeign(events, lines))
            && (KeysOf(log) <= events.Keys <==> FileStored(events, lines))
  {
    TransactionsAre(lines);
    hide Flatten, Transactions;
    var log := Flatten(Transactions(lines));
    forall k ensures k in KeysOf(log) <==>
                       exists j, f :: 0 <= j < |lines| && lines[j].Usable? && f in lines[j].events && f.key == k {
      if j, f :| 0 <= j < |lines| && lines[j].Usable? && f in lines[j].events && f.key == k {
        assert f in log;
      }
    }
    forall i, e | 0 <= i < |lines| && lines[i].Usable? && e in lines[i].events
      ensures e in log && e.key.signature in Signatures(log) {}
    forall s | s in Signatures(log)
      ensures exists i, e :: 0 <= i < |lines| && lines[i].Usable? && e in lines[i].events && e.key.signature == s
    {
      var e :| e in log && e.key.signature == s;
    }
    GrownThenVerify(events, events, log);
  }

  /** The two sets the check builds from the event log. */
  method KeysAndSignatures(log: seq<EventRow>) returns (keys: set<EventKey>, signatures: set<string>)
    ensures keys == KeysOf(log) && signatures == Signatures(log)
  {
    keys, signatures := {}, {};
    for i := 0 to |log|
      invariant keys == KeysOf(log[..i]) && signatures == Signatures(log[..i])
    {
      assert log[..i + 1] == log[..i] + [log[i]];
      keys := keys + {log[i].key};
      signatures := signatures + {log[i].key.signature};
    }
    assert log[..|log|] == log;
  }

  /** What one undisturbed pass sends: the lines up to the first that cannot be read. */
  lemma OnePass(file: Option<seq<Line>>, sent: seq<seq<EventRow>>, passes: nat, at: nat)
    requires file.None? ==> sent == []
    requires file.Some? ==>
               && at <= |file.value| && passes <= 1
               && sent == Repeat(Transactions(file.value), passes) + Transactions(file.value[..at])
               && Unreadable !in file.value[..at] && (passes > 0 ==> Unreadable !in file.value)
               && (passes == 1 ==> at == 0) && (passes == 0 ==> at < |file.value| && file.value[at] == Unreadable)
    ensures sent == Transactions(Readable(file))
    ensures Sound(file) ==> Readable(file) == file.value
  {
    if file.Some? {
      hide Transactions;
      var lines := file.value;
      assert Repeat(Transactions(lines), 0) == [];
      if passes == 1 {
        assert Repeat(Transactions(lines), 1) == Repeat(Transactions(lines), 0) + Transactions(lines);
        NoLines(lines);
        assert lines[..|lines|] == lines;
        UnreadableAt(lines, |lines|);
      } else {
        UnreadableAt(lines, at);
      }
    }
  }

  /** `run_verify`: decode the file once more with no database attached and compare. None is an
      I/O error that Carbon hands on; if it does not, the lines read so far are compared. */
  method RunVerify(db: Database, file: Option<seq<Line>>, surfaces: bool) returns (clean: Option<bool>)
    ensures clean.None? <==> surfaces && !Sound(file)
    ensures clean.Some? ==> (clean.value <==> FileMatches(db.events, Flatten(Transactions(Readable(file)))))
    ensures Sound(file) ==> Readable(file) == file.value
    ensures Sound(file) ==>
              && clean.Some?
              && (clean.value <==> FileStored(db.events, file.value) && NothingForeign(db.events, file.value))
  {
    if file.Some? { MatchesMeans(db.events, file.value); }
    hide Transactions, Repeat, Readable, Signatures, Flatten, FileStored, NothingForeign;
    var n := if file.Some? then |file.value| else 0;
    var end, sent, _, passes, at := Consume(file, 1, Leave(n + 1, n));
    assert Enough(Leave(n + 1, n), 1, n);
    OnePass(file, sent, passes, at);
    if end == Failed && surfaces {
      return None;
    }
    var expected, signatures := KeysAndSignatures(Flatten(sent));
    var actual := set k | k in db.events && k.signature in signatures;
    var missing, extra := expected - actual, actual - expected;
    clean := Some(missing == {} && extra == {});
    assert clean.value <==> expected == actual;
  }

  /** Keys stored under the file's signatures that the file does not account for. */
  predicate NoForeignKeys(events: Events, log: seq<EventRow>) {
    forall k :: k in events && k.signature in Signatures(log) ==> k in KeysOf(log)
  }

  /** After any growth of the table by events of the file, the check succeeds exactly when no
      foreign key was stored before and every key of the file is stored now. */
  lemma GrownThenVerify(events: Events, after: Events, log: seq<EventRow>)
    requires Extends(events, after) && forall k :: k in after ==> k in events || k in KeysOf(log)
    ensures FileMatches(after, log) <==> NoForeignKeys(events, log) && KeysOf(log) <= after.Keys
  {
    var stored := set k | k in after && k.signature in Signatures(log);
    forall k | k in KeysOf(log) ensures k.signature in Signatures(log) {
      var e :| e in log && e.key == k;
    }
    if NoForeignKeys(events, log) && KeysOf(log) <= after.Keys {
      forall k ensures k in KeysOf(log) <==> k in stored {}
      assert KeysOf(log) == stored;
    }
    if FileMatches(after, log) {
      forall k | k in events && k.signature in Signatures(log) ensures k in KeysOf(log) {
        assert k in stored;
      }
      forall k | k in KeysOf(log) ensures k in after {
        assert k in stored;
      }
    }
  }

  /** Rows of a file grow the table by events of the file. */
  lemma StoredFromLog(events: Events, rows: seq<PendingWrite>, log: seq<EventRow>)
    requires forall row :: row in rows ==> row.event in log
    ensures var after := Insert(events, EventPairs(rows));
            && Extends(events, after) && (forall k :: k in after ==> k in events || k in KeysOf(log))
            && KeysOf(EventsOf(rows)) <= after.Keys
  {
    hide Insert;
    var after := Insert(events, EventPairs(rows));
    InsertKeeps(events, EventPairs(rows));
    forall k | k in after && k !in events ensures k in KeysOf(log) {
      InsertSource(events, EventPairs(rows), k);
      var i :| 0 <= i < |rows| && EventPairs(rows)[i] == (k, after[k]);
      assert rows[i] in rows;
    }
    forall k | k in KeysOf(EventsOf(rows)) ensures k in after {
      var e :| e in EventsOf(rows) && e.key == k;
      var i :| 0 <= i < |rows| && EventsOf(rows)[i] == e;
      assert EventPairs(rows)[i].0 == k;
    }
  }

  lemma {:induction false} InRepeat<T>(xs: seq<T>, n: nat, x: T)
    ensures x in Repeat(xs, n) <==> n > 0 && x in xs
  {
    if n != 0 {
      InRepeat(xs, n - 1, x);
    }
  }

  /** Everything `Consume` sends is in the file; after one whole pass that is all of it. */
  lemma SentFromFile(lines: seq<Line>, passes: nat, at: nat, e: EventRow)
    requires at <= |lines|
    ensures e in Flatten(Repeat(Transactions(lines), passes) + Transactions(lines[..at])) ==>
              e in Flatten(Transactions(lines))
    ensures passes > 0 && e in Flatten(Transactions(lines)) ==>
              e in Flatten(Repeat(Transactions(lines), passes) + Transactions(lines[..at]))
  {
    hide Flatten, Transactions, Repeat;
    var all, some := Transactions(lines), Transactions(lines[..at]);
    TransactionsPrefix(lines, at);
    FlattenConcat(Repeat(all, passes), some);
    FlattenRepeat(all, passes);
    InRepeat(Flatten(all), passes, e);
    if e in Flatten(some) {
      InFlatten(some, e);
      var part :| part in some && e in part;
      InFlatten(all, e);
      assert part in all;
    }
  }

  lemma {:induction false} TransactionsPrefix(lines: seq<Line>, at: nat)
    requires at <= |lines|
    ensures Transactions(lines[..at]) <= Transactions(lines)
  {
    if at < |lines| {
      var n := |lines| - 1;
      assert lines[..n][..at] == lines[..at];
      TransactionsPrefix(lines[..n], at);
    } else {
      assert lines[..at] == lines;
    }
  }

  /** Replay, then verify: for any file and repeat count, whatever trades each pass made, clean
      passes leave a table that passes the check exactly when it held no foreign key under the
      file's signatures, whatever else it held. */
  lemma ReplayThenVerify(events: Events, lines: seq<Line>, rows: seq<PendingWrite>, n: nat)
    requires n > 0 && EventsOf(rows) == Flatten(Repeat(Transactions(lines), n))
    ensures var log := Flatten(Transactions(lines));
            FileMatches(Insert(events, EventPairs(rows)), log) <==> NoForeignKeys(events, log)
  {
    hide Insert, Flatten, Transactions, Repeat, FileMatches, NoForeignKeys;
    var log := Flatten(Transactions(lines));
    FlattenRepeat(Transactions(lines), n);
    forall e ensures e in EventsOf(rows) <==> e in log {
      InRepeat(log, n, e);
    }
    forall row | row in rows ensures row.event in log {
      var i :| 0 <= i < |rows| && rows[i] == row;
      assert EventsOf(rows)[i] in EventsOf(rows);
    }
    StoredFromLog(events, rows, log);
    GrownThenVerify(events, Insert(events, EventPairs(rows)), log);
  }

  /** The `replay` command, then the `verify` command, on one file. Replay may be stopped and its
      flushes may fail; `interpret(i, e)` is the trade the processors make of the `i`-th event. */
  method ReplayAndVerify(db: Database, file: Option<seq<Line>>, repeat: nat, leave: Leave,
                         interpret: (nat, EventRow) -> Option<TradeRow>, weather: nat -> Weather,
                         pace: nat -> seq<Nudge>, late: seq<nat>, surfaces: bool)
    returns (clean: Option<bool>)
    requires db.Valid() && forall n, e :: interpret(n, e).Some? ==> SideOk(interpret(n, e).value)
    modifies db
    ensures db.Valid() && Extends(old(db.events), db.events)
    ensures Sound(file) ==>
              var log := Flatten(Transactions(file.value));
              && clean.Some?
              && (clean.value <==> NoForeignKeys(old(db.events), log) && KeysOf(log) <= db.events.Keys)
              && (repeat > 0 && Enough(leave, repeat, |file.value|) && AlwaysFine(weather) ==>
                    (clean.value <==> NoForeignKeys(old(db.events), log)))
    ensures Sound(file) ==>
              && clean.Some?
              && (clean.value <==> NothingForeign(old(db.events), file.value) && FileStored(db.events, file.value))
              && (repeat > 0 && Enough(leave, repeat, |file.value|) && AlwaysFine(weather) ==>
                    FileStored(db.events, file.value))
  {
    hide Flatten, Transactions, Repeat, Insert, FileMatches, NoForeignKeys, Enough, Sound, SidesOk;
    hide Interpreted, Readable, FileStored, NothingForeign;
    if file.Some? { MatchesMeans(db.events, file.value); }
    var end, sent, skipped, passes, at := Consume(file, repeat, leave);
    var rows := Interpreted(Flatten(sent), interpret);
    ghost var events := db.events;
    RowsAreSent(Flatten(sent), interpret);
    var ok, writer, turns;
    ghost var base;
    ok, writer, turns, base := RunPipeline(db, null, rows, WRITE_QUEUE_SIZE, weather, pace, late, None);
    assert AlwaysFine(weather) ==> Calm(weather, turns);
    clean := RunVerify(db, file, surfaces);
    if Sound(file) {
      SoundMeans(file);
      AfterReplay(events, db.events, file.value, passes, at, sent, rows);
      if AlwaysFine(weather) { AllStored(events, rows, file.value, passes, at, sent); }
      MatchesMeans(db.events, file.value);
    }
  }

  lemma SoundMeans(file: Option<seq<Line>>)
    requires Sound(file)
    ensures file.Some? && Unreadable !in file.value
  {}

  lemma RowsAreSent(log: seq<EventRow>, interpret: (nat, EventRow) -> Option<TradeRow>)
    requires forall n, e :: interpret(n, e).Some? ==> SideOk(interpret(n, e).value)
    ensures SidesOk(Interpreted(log, interpret)) && EventsOf(Interpreted(log, interpret)) == log
  {}

  /** Whatever of the rows arrived, the table grew by events of the file. */
  lemma AfterReplay(events: Events, after: Events, lines: seq<Line>, passes: nat, at: nat,
                    sent: seq<seq<EventRow>>, rows: seq<PendingWrite>)
    requires at <= |lines| && sent == Repeat(Transactions(lines), passes) + Transactions(lines[..at])
    requires EventsOf(rows) == Flatten(sent) && Extends(events, after)
    requires forall k :: k in after && k !in events ==> Offered(rows, k, after[k])
    ensures var log := Flatten(Transactions(lines));
            FileMatches(after, log) <==> NoForeignKeys(events, log) && KeysOf(log) <= after.Keys
  {
    hide Flatten, Transactions, Repeat, FileMatches, NoForeignKeys;
    var log := Flatten(Transactions(lines));
    forall k | k in after ensures k in events || k in KeysOf(log) {
      if k !in events {
        var i :| 0 <= i < |rows| && rows[i].event == after[k] && after[k].key == k;
        assert EventsOf(rows)[i] in EventsOf(rows);
        SentFromFile(lines, passes, at, rows[i].event);
      }
    }
    GrownThenVerify(events, after, log);
  }

  /** One whole pass that all arrived stores every key of the file. */
  lemma AllStored(events: Events, rows: seq<PendingWrite>, lines: seq<Line>, passes: nat, at: nat,
                  sent: seq<seq<EventRow>>)
    requires at <= |lines| && sent == Repeat(Transactions(lines), passes) + Transactions(lines[..at])
    requires EventsOf(rows) == Flatten(sent)
    ensures passes > 0 ==> KeysOf(Flatten(Transactions(lines))) <= Insert(events, EventPairs(rows)).Keys
  {
    hide Flatten, Transactions, Repeat, Insert;
    StoredFromLog(events, rows, EventsOf(rows)) by {
      forall row | row in rows ensures row.event in EventsOf(rows) {
        var i :| 0 <= i < |rows| && rows[i] == row;
        assert EventsOf(rows)[i] == row.event;
      }
    }
    if passes > 0 {
      forall k | k in KeysOf(Flatten(Transactions(lines))) ensures k in Insert(events, EventPairs(rows)) {
        var e :| e in Flatten(Transactions(lines)) && e.key == k;
        SentFromFile(lines, passes, at, e);
      }
    }
  }
}
