/** From an outage to its repair: the watermark reports the gap, the recorder stores it, recovery
    refetches it. */
module Outage {
  import opened Rows
  import opened Store
  import opened Database
  import opened Backfill
  import opened Recover
  import Gaps

  /** Rows that are not open any more stand for ranges that were completed. A range that is
      reported again keeps its row and its status. */
  ghost predicate SettledComplete(gaps: seq<GapRow>, events: Events, chain: Chain) {
    forall g :: g in gaps && g.status != Open ==> RangeStored(events, chain, g.start, g.end)
  }

  /** A reported range is stored after a smooth, finished recovery. */
  lemma ReportedIsStored(c: Case, p: Progress, tables: Tables, covered: seq<(nat, nat)>, start: nat, end: nat)
    requires LoopInv(c, p, tables, covered) && p.processed == |OpenGaps(c)| && Smooth(c)
    requires IdsIncrease(c.before.gaps) && HasRange(c.before.gaps, start, end)
    requires SettledComplete(c.before.gaps, c.before.events, c.chain)
    ensures RangeStored(tables.events, c.chain, start, end)
  {
    hide LoopInv, OpenOf, Smooth, RangeMatches, RangeStored;
    OpenOfMeaning(c.before.gaps);
    var i :| 0 <= i < |c.before.gaps| && c.before.gaps[i].start == start && c.before.gaps[i].end == end;
    var g := c.before.gaps[i];
    if g.status == Open {
      assert g in OpenGaps(c);
      var j :| 0 <= j < |OpenGaps(c)| && OpenGaps(c)[j] == g;
      SmoothGapMatches(c, p, tables, covered, j);
      MatchesMeansStored(tables.events, c.chain, start, end);
    } else {
      EventsGrew(c, p, tables, covered);
      StoredGrows(c.before.events, tables.events, c.chain, start, end);
    }
  }

  lemma MatchesMeansStored(events: Events, chain: Chain, start: nat, end: nat)
    requires RangeMatches(events, chain, start, end)
    ensures RangeStored(events, chain, start, end)
  {}

  lemma StoredGrows(events: Events, more: Events, chain: Chain, start: nat, end: nat)
    requires RangeStored(events, chain, start, end) && Extends(events, more)
    ensures RangeStored(more, chain, start, end)
  {}

  lemma EventsGrew(c: Case, p: Progress, tables: Tables, covered: seq<(nat, nat)>)
    requires LoopInv(c, p, tables, covered)
    ensures Extends(c.before.events, tables.events)
  {
    InsertKeeps(c.before.events, EventPairs(Flatten(p.landed)));
  }

  /** The gap recorder, then a recovery. Smooth and finished, it leaves every reported range
      stored whose row the database took. */
  method RecordAndRecover(db: Database, channel: seq<Gaps.Gap>, refused: nat -> bool, chain: Chain,
                          trials: nat -> Trial, budget: nat)
    returns (done: bool, ghost c: Case)
    requires db.Valid() && Gaps.UniqueRanges(db.gaps) && forall i :: TrialOk(trials(i))
    modifies db
    ensures db.Valid() && c == Case(old(db.State()).(gaps := c.before.gaps), chain, trials)
    ensures done && Smooth(c) && SettledComplete(old(db.gaps), old(db.events), chain) ==>
              forall i :: 0 <= i < |channel| && !refused(i) ==>
                RangeStored(db.events, chain, channel[i].start, channel[i].end)
  {
    hide Smooth, LoopInv, StoreInv, RangeStored, RangeMatches, OpenOf, TrialOk, PoolsParse, IdsIncrease;
    ghost var before := db.State();
    var detected, errors := Gaps.Record(db, channel, refused);
    c := Case(db.State(), chain, trials);
    GapIds(db.State());
    NewRowsAreOpen(before.gaps, db.gaps, before.events, chain);
    var covered;
    ghost var p;
    done, covered, p := RunRecover(db, chain, trials, budget);
    if done && Smooth(c) && SettledComplete(before.gaps, before.events, chain) {
      forall i | 0 <= i < |channel| && !refused(i)
        ensures RangeStored(db.events, chain, channel[i].start, channel[i].end)
      {
        ReportedIsStored(c, p, db.State(), covered, channel[i].start, channel[i].end);
      }
    }
  }

  lemma NewRowsAreOpen(before: seq<GapRow>, after: seq<GapRow>, events: Events, chain: Chain)
    requires before <= after && forall g :: g in after[|before|..] ==> g.status == Open
    ensures SettledComplete(before, events, chain) ==> SettledComplete(after, events, chain)
  {
    hide RangeStored;
    assert after == before + after[|before|..];
  }

  /** No silent hole: once the reports whose rows the database took are recovered, each event of
      the chain from the first nonzero slot up to the head is stored, or lies fewer than 50 slots
      after a slot the stream delivered, or in a range that was printed as lost: its report was
      dropped, or its row refused. */
  lemma NoSilentHole(run: seq<Gaps.Action>, refused: nat -> bool, events: Events, chain: Chain,
                     first: nat, slot: nat, k: EventKey)
    requires Gaps.Exec(Gaps.START, run).Some?
    requires var s := Gaps.Exec(Gaps.START, run).value;
             && s.pending == map[] && first < |s.seen| && s.seen[first] != 0
             && (forall i :: 0 <= i < first ==> s.seen[i] == 0)
             && s.seen[first] <= slot <= s.mark
             && forall i :: 0 <= i < |s.reports| && !refused(i) ==>
                  RangeStored(events, chain, s.reports[i].start, s.reports[i].end)
    requires OnChain(chain, slot, k)
    ensures var s := Gaps.Exec(Gaps.START, run).value;
            || k in events || Gaps.NearSeen(slot, s.seen)
            || (exists i :: 0 <= i < |s.dropped| && Gaps.Inside(slot, s.dropped[i]))
            || (exists i :: 0 <= i < |s.reports| && Gaps.Inside(slot, s.reports[i]) && refused(i))
  {
    hide Gaps.Exec, Gaps.Highest, OnChain;
    var s := Gaps.Exec(Gaps.START, run).value;
    Gaps.MarkIsHighest(run);
    Gaps.ReportsComplete(run, first, slot);
    if !Gaps.NearSeen(slot, s.seen) {
      var i :| 0 <= i < |s.reports + s.dropped| && Gaps.Inside(slot, (s.reports + s.dropped)[i]);
      if i >= |s.reports| {
        assert Gaps.Inside(slot, s.dropped[i - |s.reports|]);
      } else {
        assert Gaps.Inside(slot, s.reports[i]);
      }
    }
  }
}
