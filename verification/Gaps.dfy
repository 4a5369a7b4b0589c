/** The slot watermark shared by two processors, and the gaps it reports. */
module Gaps {
  import opened Rows
  import opened Store
  import opened Database

  const TOLERANCE := 50

  datatype Gap = Gap(start: nat, end: nat)

  /** `fetch_max` with the value it replaced, and the gap that value reveals, if any: a
      watermark of 0 is unset. */
  function Reveals(previous: nat, slot: nat): Option<Gap> {
    if previous == 0 || slot <= previous + TOLERANCE then None else Some(Gap(previous, slot))
  }

  class Watermark {
    var mark: nat
    var headSlot: nat
    var channel: seq<Gap>
    const capacity: nat

    constructor (capacity: nat)
      ensures mark == 0 && headSlot == 0 && channel == [] && this.capacity == capacity
    {
      mark, headSlot, channel, this.capacity := 0, 0, [], capacity;
    }

    /** `check_slot`, run by one processor without interference: the report is dropped when
        the channel is full. */
    method CheckSlot(slot: nat)
      modifies this
      ensures mark >= old(mark) && mark >= slot && (mark == old(mark) || mark == slot)
      ensures headSlot >= old(headSlot) && headSlot >= slot && (headSlot == old(headSlot) || headSlot == slot)
      ensures channel == old(channel) + match Reveals(old(mark), slot)
                                        case Some(g) => if |old(channel)| < capacity then [g] else []
                                        case None => []
      ensures old(mark) == 0 || slot <= old(mark) + 50 ==> channel == old(channel)
      ensures old(mark) != 0 && slot > old(mark) + 50 && |old(channel)| < capacity ==>
                channel == old(channel) + [Gap(old(mark), slot)]
    {
      var previous := mark;
      if mark < slot {
        mark := slot;
      }
      if headSlot < slot {
        headSlot := slot;
      }
      if previous == 0 || slot <= previous + TOLERANCE {
        return;
      }
      if |channel| < capacity {
        channel := channel + [Gap(previous, slot)];
      }
    }
  }

  // ----- The interleavings -----

  /** Two processors between `fetch_max` and `try_send`. `seen` is the order of the atomic
      operations. */
  datatype State = State(
    mark: nat,
    pending: map<bool, Gap>,
    reports: seq<Gap>,
    dropped: seq<Gap>,
    seen: seq<nat>)

  datatype Action = Swap(processor: bool, slot: nat) | Report(processor: bool, room: bool)

  predicate Enabled(s: State, a: Action) {
    match a
    case Swap(p, _) => p !in s.pending
    case Report(p, _) => p in s.pending
  }

  function Next(s: State, a: Action): State
    requires Enabled(s, a)
  {
    match a
    case Swap(p, slot) =>
      s.(mark := if s.mark < slot then slot else s.mark,
         seen := s.seen + [slot],
         pending := match Reveals(s.mark, slot)
                    case Some(g) => s.pending[p := g]
                    case None => s.pending)
    case Report(p, room) =>
      var g := s.pending[p];
      s.(pending := s.pending - {p},
         reports := if room then s.reports + [g] else s.reports,
         dropped := if room then s.dropped else s.dropped + [g])
  }

  const START := State(0, map[], [], [], [])

  function Exec(s: State, run: seq<Action>): Option<State>
    decreases |run|
  {
    if run == [] then Some(s)
    else if Enabled(s, run[0]) then Exec(Next(s, run[0]), run[1..])
    else None
  }

  // ----- The gaps of a slot sequence -----

  function Highest(seen: seq<nat>): nat {
    if seen == [] then 0
    else
      var n := |seen| - 1;
      var h := Highest(seen[..n]);
      if h < seen[n] then seen[n] else h
  }

  function GapsOf(seen: seq<nat>): seq<Gap> {
    if seen == [] then []
    else
      var n := |seen| - 1;
      GapsOf(seen[..n]) + match Reveals(Highest(seen[..n]), seen[n])
                          case Some(g) => [g]
                          case None => []
  }

  /** Gaps come in slot order: each starts no earlier than the one before ended. */
  lemma {:induction false} GapsOrdered(seen: seq<nat>)
    ensures forall i :: 0 <= i < |GapsOf(seen)| ==>
              GapsOf(seen)[i].start + 50 < GapsOf(seen)[i].end <= Highest(seen)
    ensures forall i :: 0 <= i < |GapsOf(seen)| ==>
              GapsOf(seen)[i].start != 0 && GapsOf(seen)[i].start in seen && GapsOf(seen)[i].end in seen
    ensures forall i, j :: 0 <= i < j < |GapsOf(seen)| ==> GapsOf(seen)[i].end <= GapsOf(seen)[j].start
  {
    if seen != [] {
      var n := |seen| - 1;
      GapsOrdered(seen[..n]);
      HighestSeen(seen[..n]);
      assert forall x :: x in seen[..n] ==> x in seen;
      assert seen[n] in seen;
    }
  }

  predicate Inside(s: nat, g: Gap) { g.start <= s <= g.end }

  predicate NearSeen(s: nat, seen: seq<nat>) {
    exists i :: 0 <= i < |seen| && seen[i] <= s < seen[i] + 50
  }

  predicate Covered(s: nat, gaps: seq<Gap>, seen: seq<nat>) {
    NearSeen(s, seen) || exists i :: 0 <= i < |gaps| && Inside(s, gaps[i])
  }

  lemma {:induction false} HighestSeen(seen: seq<nat>)
    ensures Highest(seen) == 0 || Highest(seen) in seen
    ensures forall i :: 0 <= i < |seen| ==> seen[i] <= Highest(seen)
  {
    if seen != [] {
      var n := |seen| - 1;
      HighestSeen(seen[..n]);
      assert forall i :: 0 <= i < n ==> seen[..n][i] == seen[i];
    }
  }

  /** Every slot from a nonzero slot seen up to the head lies in a gap or close after a slot
      that was seen. */
  lemma {:induction false} GapsComplete(seen: seq<nat>, first: nat, s: nat)
    requires first < |seen| && seen[first] != 0 && (forall i :: 0 <= i < first ==> seen[i] == 0)
    requires seen[first] <= s <= Highest(seen)
    ensures Covered(s, GapsOf(seen), seen)
    decreases |seen|
  {
    var n := |seen| - 1;
    var before, h := seen[..n], Highest(seen[..n]);
    HighestSeen(before);
    assert forall i :: 0 <= i < n ==> before[i] == seen[i];
    if s <= h && first < n {
      GapsComplete(before, first, s);
      StillCovered(s, before, seen);
    } else if first == n {
      assert h == 0;
      assert NearSeen(s, seen) by { assert seen[n] <= s < seen[n] + TOLERANCE; }
    } else {
      assert before[first] <= h;
      if seen[n] <= h + TOLERANCE {
        if s < seen[n] {
          var i :| 0 <= i < n && before[i] == h;
          assert seen[i] <= s < seen[i] + TOLERANCE;
        } else {
          assert seen[n] <= s < seen[n] + TOLERANCE;
        }
      } else {
        var gaps := GapsOf(seen);
        assert gaps[|gaps| - 1] == Gap(h, seen[n]);
        assert Inside(s, gaps[|gaps| - 1]);
      }
    }
  }

  lemma StillCovered(s: nat, before: seq<nat>, seen: seq<nat>)
    requires seen != [] && before == seen[..|seen| - 1] && Covered(s, GapsOf(before), before)
    ensures Covered(s, GapsOf(seen), seen)
  {
    if NearSeen(s, before) {
      var i :| 0 <= i < |before| && before[i] <= s < before[i] + TOLERANCE;
      assert seen[i] == before[i];
    } else {
      var i :| 0 <= i < |GapsOf(before)| && Inside(s, GapsOf(before)[i]);
      assert GapsOf(seen)[i] == GapsOf(before)[i];
    }
  }

  // ----- What every interleaving keeps -----

  function PendingBag(pending: map<bool, Gap>): multiset<Gap> {
    (if true in pending then multiset{pending[true]} else multiset{})
    + (if false in pending then multiset{pending[false]} else multiset{})
  }

  /** Whatever the order of sends, every gap of the seen slots is reported, dropped or pending,
      exactly once. */
  predicate Inv(s: State) {
    && s.mark == Highest(s.seen)
    && multiset(s.reports) + multiset(s.dropped) + PendingBag(s.pending) == multiset(GapsOf(s.seen))
  }

  lemma SwapKeeps(s: State, p: bool, slot: nat)
    requires Inv(s) && p !in s.pending
    ensures Inv(Next(s, Swap(p, slot)))
  {
    var s' := Next(s, Swap(p, slot));
    assert s'.seen[..|s.seen|] == s.seen;
    match Reveals(s.mark, slot)
    case None => assert GapsOf(s'.seen) == GapsOf(s.seen);
    case Some(g) =>
      assert GapsOf(s'.seen) == GapsOf(s.seen) + [g];
      assert PendingBag(s'.pending) == PendingBag(s.pending) + multiset{g};
  }

  lemma ReportKeeps(s: State, p: bool, room: bool)
    requires Inv(s) && p in s.pending
    ensures Inv(Next(s, Report(p, room)))
  {
    hide GapsOf, Highest;
    var g := s.pending[p];
    TakePending(s.pending, p);
    hide PendingBag;
    MoveOne(multiset(s.reports), multiset(s.dropped), PendingBag(s.pending - {p}), multiset(GapsOf(s.seen)), g);
    if room {
      assert multiset(s.reports + [g]) == multiset(s.reports) + multiset{g};
    } else {
      assert multiset(s.dropped + [g]) == multiset(s.dropped) + multiset{g};
    }
  }

  lemma TakePending(pending: map<bool, Gap>, p: bool)
    requires p in pending
    ensures PendingBag(pending) == PendingBag(pending - {p}) + multiset{pending[p]}
  {}

  lemma MoveOne(a: multiset<Gap>, b: multiset<Gap>, c: multiset<Gap>, all: multiset<Gap>, g: Gap)
    requires a + b + (c + multiset{g}) == all
    ensures (a + multiset{g}) + b + c == all && a + (b + multiset{g}) + c == all
  {}

  lemma {:induction false} RunKeepsInv(s: State, run: seq<Action>)
    requires Inv(s) && Exec(s, run).Some?
    ensures Inv(Exec(s, run).value)
    decreases |run|
  {
    hide Inv;
    if run != [] {
      match run[0] {
        case Swap(p, slot) => SwapKeeps(s, p, slot);
        case Report(p, room) => ReportKeeps(s, p, room);
      }
      RunKeepsInv(Next(s, run[0]), run[1..]);
    }
  }

  predicate Apart(a: Gap, b: Gap) { a.end <= b.start || b.end <= a.start }

  lemma {:induction false} Multiplicity(gaps: seq<Gap>, g: Gap)
    requires forall i, j :: 0 <= i < j < |gaps| ==> gaps[i] != gaps[j]
    ensures multiset(gaps)[g] <= 1
  {
    if gaps != [] {
      var n := |gaps| - 1;
      Multiplicity(gaps[..n], g);
      assert gaps == gaps[..n] + [gaps[n]];
      if gaps[n] == g { assert g !in gaps[..n]; }
    }
  }

  lemma StartInv()
    ensures Inv(START)
  {}

  lemma Twice(r: seq<Gap>, i: nat, j: nat)
    requires i < j < |r| && r[i] == r[j]
    ensures multiset(r)[r[i]] >= 2
  {
    assert r == r[..j] + [r[j]] + r[j + 1..];
    assert r[..j][i] == r[i];
    assert r[i] in r[..j];
  }

  lemma SubBagApart(r: seq<Gap>, gaps: seq<Gap>, i: nat, j: nat)
    requires multiset(r) <= multiset(gaps) && i < j < |r|
    requires forall m :: 0 <= m < |gaps| ==> gaps[m].start < gaps[m].end
    requires forall m, n :: 0 <= m < n < |gaps| ==> gaps[m].end <= gaps[n].start
    ensures Apart(r[i], r[j]) && r[i] != r[j]
  {
    assert r[i] in multiset(r) && r[j] in multiset(r);
    assert r[i] in gaps && r[j] in gaps;
    Multiplicity(gaps, r[i]);
    if r[i] == r[j] {
      Twice(r, i, j);
    } else {
      var a :| 0 <= a < |gaps| && gaps[a] == r[i];
      var b :| 0 <= b < |gaps| && gaps[b] == r[j];
    }
  }

  /** Under every interleaving no two reported ranges overlap in more than an endpoint. */
  lemma ReportsApart(run: seq<Action>, i: nat, j: nat)
    requires Exec(START, run).Some?
    requires i < j < |Exec(START, run).value.reports|
    ensures var r := Exec(START, run).value.reports; Apart(r[i], r[j]) && r[i] != r[j]
  {
    StartInv();
    hide Exec, GapsOf, PendingBag;
    RunKeepsInv(START, run);
    var s := Exec(START, run).value;
    GapsOrdered(s.seen);
    assert multiset(s.reports) <= multiset(GapsOf(s.seen));
    SubBagApart(s.reports, GapsOf(s.seen), i, j);
  }

  /** A range that is reported or dropped runs from one slot the stream delivered to another,
      more than 50 apart; the first slot of a stream reports nothing. */
  lemma ReportsAreSeen(run: seq<Action>, g: Gap)
    requires Exec(START, run).Some?
    requires g in Exec(START, run).value.reports || g in Exec(START, run).value.dropped
    ensures g.start in Exec(START, run).value.seen && g.end in Exec(START, run).value.seen
    ensures g.start != 0 && g.start + 50 < g.end
  {
    StartInv();
    hide Exec, GapsOf, PendingBag;
    RunKeepsInv(START, run);
    var s := Exec(START, run).value;
    GapsOrdered(s.seen);
    assert g in multiset(s.reports) + multiset(s.dropped) + PendingBag(s.pending);
    assert g in GapsOf(s.seen);
  }

  /** A report is delivered or dropped as the channel had room: without a full channel none is
      dropped. */
  lemma {:induction false} RoomDelivers(s: State, run: seq<Action>)
    requires Exec(s, run).Some?
    ensures (forall i :: 0 <= i < |run| && run[i].Report? ==> run[i].room) ==> Exec(s, run).value.dropped == s.dropped
    ensures (forall i :: 0 <= i < |run| && run[i].Report? ==> !run[i].room) ==> Exec(s, run).value.reports == s.reports
    decreases |run|
  {
    if run != [] {
      RoomDelivers(Next(s, run[0]), run[1..]);
      assert forall i :: 0 <= i < |run[1..]| ==> run[1..][i] == run[i + 1];
    }
  }

  lemma MarkIsHighest(run: seq<Action>)
    requires Exec(START, run).Some?
    ensures Exec(START, run).value.mark == Highest(Exec(START, run).value.seen)
  {
    StartInv();
    RunKeepsInv(START, run);
  }

  /** When no report is pending, every slot from the first nonzero slot seen up to the head is
      in a range that was reported, or in one whose report was dropped, or fewer than 50 slots
      after one seen. */
  lemma ReportsComplete(run: seq<Action>, first: nat, slot: nat)
    requires Exec(START, run).Some?
    requires var s := Exec(START, run).value; s.pending == map[] && first < |s.seen|
    requires var seen := Exec(START, run).value.seen;
             seen[first] != 0 && (forall i :: 0 <= i < first ==> seen[i] == 0) && seen[first] <= slot <= Highest(seen)
    ensures var s := Exec(START, run).value;
            && s.mark == Highest(s.seen)
            && Covered(slot, s.reports + s.dropped, s.seen)
            && (s.dropped == [] ==> Covered(slot, s.reports, s.seen))
  {
    RunKeepsInv(START, run);
    var s := Exec(START, run).value;
    var all := s.reports + s.dropped;
    GapsComplete(s.seen, first, slot);
    assert multiset(all) == multiset(GapsOf(s.seen));
    assert s.dropped == [] ==> all == s.reports;
    if !NearSeen(slot, s.seen) {
      var i :| 0 <= i < |GapsOf(s.seen)| && Inside(slot, GapsOf(s.seen)[i]);
      assert GapsOf(s.seen)[i] in multiset(all);
      var j :| 0 <= j < |all| && all[j] == GapsOf(s.seen)[i];
      assert Inside(slot, all[j]);
    }
  }

  // ----- The recorder -----

  predicate UniqueRanges(gaps: seq<GapRow>) {
    forall i, j :: 0 <= i < j < |gaps| ==> gaps[i].start != gaps[j].start || gaps[i].end != gaps[j].end
  }

  /** `spawn_gap_recorder`: every range ends up stored exactly once, however many detectors
      reported it; GAP_DETECTED counts the new rows, DB_WRITE_ERRORS the refused writes. */
  method Record(db: Database, channel: seq<Gap>, refused: nat -> bool) returns (detected: nat, errors: nat)
    requires db.Valid() && UniqueRanges(db.gaps)
    modifies db`gaps, db`nextGapId
    ensures db.Valid() && UniqueRanges(db.gaps)
    ensures |db.gaps| == |old(db.gaps)| + detected && old(db.gaps) <= db.gaps
    ensures forall i :: 0 <= i < |channel| && !refused(i) ==> HasRange(db.gaps, channel[i].start, channel[i].end)
    ensures forall g :: g in db.gaps[|old(db.gaps)|..] ==> g.status == Open && Gap(g.start, g.end) in channel
    ensures errors == |set i | 0 <= i < |channel| && refused(i)|
  {
    detected, errors := 0, 0;
    for i := 0 to |channel|
      invariant db.Valid() && UniqueRanges(db.gaps)
      invariant |db.gaps| == |old(db.gaps)| + detected && old(db.gaps) <= db.gaps
      invariant forall j :: 0 <= j < i && !refused(j) ==> HasRange(db.gaps, channel[j].start, channel[j].end)
      invariant forall g :: g in db.gaps[|old(db.gaps)|..] ==> g.status == Open && Gap(g.start, g.end) in channel
      invariant errors == |set j | 0 <= j < i && refused(j)|
    {
      assert (set j | 0 <= j < i + 1 && refused(j))
             == (set j | 0 <= j < i && refused(j)) + if refused(i) then {i} else {};
      if refused(i) {
        errors := errors + 1;
      } else {
        ghost var before := db.gaps;
        var written := db.WriteGap(channel[i].start, channel[i].end);
        if written {
          detected := detected + 1;
          RangesAppended(before, db.gaps, channel[i], channel, |old(db.gaps)|);
        }
      }
    }
  }

  lemma RangesAppended(before: seq<GapRow>, after: seq<GapRow>, g: Gap, channel: seq<Gap>, n: nat)
    requires UniqueRanges(before) && !HasRange(before, g.start, g.end) && g in channel && n <= |before|
    requires exists id :: after == before + [GapRow(id, g.start, g.end, Open, None, None)]
    ensures UniqueRanges(after) && HasRange(after, g.start, g.end)
    ensures forall s, e :: HasRange(before, s, e) ==> HasRange(after, s, e)
    ensures (forall r :: r in before[n..] ==> r.status == Open && Gap(r.start, r.end) in channel) ==>
              forall r :: r in after[n..] ==> r.status == Open && Gap(r.start, r.end) in channel
  {
    assert after[|before|].start == g.start && after[|before|].end == g.end;
    forall s, e | HasRange(before, s, e) ensures HasRange(after, s, e) {
      var i :| 0 <= i < |before| && before[i].start == s && before[i].end == e;
      assert after[i] == before[i];
    }
    assert after[n..] == before[n..] + [after[|before|]];
  }
}
