/** `run_recover`: the walk over the open gaps, its status machine and its covered ranges. */
module Recover {
  import opened Rows
  import opened Store
  import opened Database
  import opened Protocol
  import opened Runs
  import opened Writer
  import opened Pipeline
  import opened Backfill

  const GAP_OVERLAP := 64

  function Widened(g: GapRow): (nat, nat) {
    (if g.start < GAP_OVERLAP then 0 else g.start - GAP_OVERLAP, g.end + GAP_OVERLAP)
  }

  predicate Spans(wide: (nat, nat), narrow: (nat, nat)) {
    wide.0 <= narrow.0 && narrow.1 <= wide.1
  }

  predicate CoveredBy(range: (nat, nat), covered: seq<(nat, nat)>) {
    exists c :: c in covered && Spans(c, range)
  }

  // ----- The status machine -----

  /** One gap row when the run has reached `frontier`: if it was open, it is closed below the
      frontier, and at the frontier it is recovering once marked; else it is as it was. */
  predicate RowShape(before: GapRow, after: GapRow, frontier: nat, marked: bool) {
    && after.id == before.id && after.start == before.start && after.end == before.end
    && if before.status == Open && before.id < frontier then
         after.status == Closed && after.recoveredAt.Some? && after.recoveryMethod == Some("rpc-block-fetch")
       else if before.status == Open && before.id == frontier && marked then after == Mark(before, Recovering, 0)
       else after == before
  }

  /** The crash shape: a closed prefix in gap_id order, at most one recovering, the rest open. */
  predicate CrashShape(before: seq<GapRow>, after: seq<GapRow>, frontier: nat, marked: bool) {
    |after| == |before| && forall i :: 0 <= i < |before| ==> RowShape(before[i], after[i], frontier, marked)
  }

  predicate RecoveredExactly(gaps: seq<GapRow>) {
    forall i :: 0 <= i < |gaps| ==> (gaps[i].recoveredAt.Some? <==> gaps[i].status == Closed)
  }

  lemma ShapeKeepsRecovered(before: seq<GapRow>, after: seq<GapRow>, frontier: nat, marked: bool)
    requires CrashShape(before, after, frontier, marked) && RecoveredExactly(before)
    ensures RecoveredExactly(after)
    ensures IdsIncrease(before) && (forall i :: 0 <= i < |before| ==> before[i].status != Recovering) ==>
              forall i, j :: 0 <= i < j < |after| ==> after[i].status != Recovering || after[j].status != Recovering
  {}

  lemma MarkRecovering(before: seq<GapRow>, gaps: seq<GapRow>, frontier: nat, now: nat)
    requires CrashShape(before, gaps, frontier, false) && IdsIncrease(before)
    requires forall i :: 0 <= i < |before| && before[i].id == frontier ==> before[i].status == Open
    ensures CrashShape(before, Store.MarkGap(gaps, frontier, Recovering, now), frontier, true)
  {}

  lemma MarkClosed(before: seq<GapRow>, gaps: seq<GapRow>, frontier: nat, next: nat, marked: bool, now: nat)
    requires CrashShape(before, gaps, frontier, marked) && IdsIncrease(before) && frontier < next
    requires forall i :: 0 <= i < |before| && before[i].id == frontier ==> before[i].status == Open
    requires forall i :: 0 <= i < |before| && before[i].status == Open ==>
               before[i].id <= frontier || next <= before[i].id
    ensures CrashShape(before, Store.MarkGap(gaps, frontier, Closed, now), next, false)
  {}

  /** Gap id the run has reached, one past the last when it is through. */
  function Frontier(open: seq<GapRow>, i: nat): nat
    requires i <= |open|
  {
    if i < |open| then open[i].id else if open == [] then 0 else open[|open| - 1].id + 1
  }

  lemma IdsAt(gaps: seq<GapRow>, a: nat, b: nat)
    requires IdsIncrease(gaps) && a <= b < |gaps|
    ensures gaps[a].id <= gaps[b].id
  {}

  /** An open row is one of the snapshot, so its id is at most the frontier or past it. */
  lemma AroundFrontier(gaps: seq<GapRow>, i: nat, n: nat)
    requires IdsIncrease(gaps) && i < |OpenOf(gaps)| && n < |gaps| && gaps[n].status == Open
    ensures gaps[n].id <= Frontier(OpenOf(gaps), i) || Frontier(OpenOf(gaps), i + 1) <= gaps[n].id
  {
    var open := OpenOf(gaps);
    OpenOfMeaning(gaps);
    hide OpenOf;
    assert gaps[n] in open;
    var j :| 0 <= j < |open| && open[j] == gaps[n];
    hide IdsIncrease;
    if j <= i {
      IdsAt(open, j, i);
    } else if i + 1 < |open| {
      IdsAt(open, i + 1, j);
    }
  }

  /** The row at the frontier is open. */
  lemma FrontierIsOpen(gaps: seq<GapRow>, i: nat) returns (m: nat)
    requires IdsIncrease(gaps) && i < |OpenOf(gaps)|
    ensures m < |gaps| && gaps[m].id == Frontier(OpenOf(gaps), i) && gaps[m].status == Open
    ensures forall n :: 0 <= n < |gaps| && gaps[n].id == Frontier(OpenOf(gaps), i) ==> n == m
  {
    var open := OpenOf(gaps);
    OpenOfMeaning(gaps);
    hide OpenOf;
    assert open[i] in open;
    m :| 0 <= m < |gaps| && gaps[m] == open[i];
  }

  lemma FrontierMoves(gaps: seq<GapRow>, i: nat)
    requires IdsIncrease(gaps) && i < |OpenOf(gaps)|
    ensures Frontier(OpenOf(gaps), i) < Frontier(OpenOf(gaps), i + 1)
  {
    OpenOfMeaning(gaps);
    hide OpenOf;
  }

  /** The open rows around the frontier. */
  lemma AtFrontier(gaps: seq<GapRow>, i: nat)
    requires IdsIncrease(gaps) && i < |OpenOf(gaps)|
    ensures var open := OpenOf(gaps);
            && Frontier(open, i) < Frontier(open, i + 1)
            && (forall n :: 0 <= n < |gaps| && gaps[n].id == Frontier(open, i) ==> gaps[n].status == Open)
            && (forall n :: 0 <= n < |gaps| && gaps[n].status == Open ==>
                  gaps[n].id <= Frontier(open, i) || Frontier(open, i + 1) <= gaps[n].id)
  {
    hide OpenOf, Frontier, IdsIncrease;
    FrontierMoves(gaps, i);
    var m := FrontierIsOpen(gaps, i);
    forall n | 0 <= n < |gaps| && gaps[n].status == Open
      ensures gaps[n].id <= Frontier(OpenOf(gaps), i) || Frontier(OpenOf(gaps), i + 1) <= gaps[n].id
    {
      AroundFrontier(gaps, i, n);
    }
  }

  lemma BelowLastFrontier(gaps: seq<GapRow>, i: nat)
    requires IdsIncrease(gaps) && i < |gaps| && gaps[i].status == Open
    ensures gaps[i].id < Frontier(OpenOf(gaps), |OpenOf(gaps)|)
  {
    OpenOfMeaning(gaps);
    var open := OpenOf(gaps);
    hide OpenOf;
    assert gaps[i] in open;
    var j :| 0 <= j < |open| && open[j] == gaps[i];
  }

  /** A run that reached the end closed every open gap. */
  lemma AllClosed(before: seq<GapRow>, after: seq<GapRow>)
    requires IdsIncrease(before) && CrashShape(before, after, Frontier(OpenOf(before), |OpenOf(before)|), false)
    ensures forall n :: 0 <= n < |before| && before[n].status == Open ==> after[n].status == Closed
  {
    hide OpenOf, Frontier;
    forall n | 0 <= n < |before| && before[n].status == Open ensures after[n].status == Closed {
      BelowLastFrontier(before, n);
    }
  }

  /** A run that stopped anywhere, then one that reached the end: together they close every gap
      exactly when the first did not stop between the two status changes of a gap. A row left
      recovering is not selected again. */
  lemma SecondRunExactly(before: seq<GapRow>, mid: seq<GapRow>, after: seq<GapRow>, i: nat, marked: bool)
    requires IdsIncrease(before) && i <= |OpenOf(before)| && (marked ==> i < |OpenOf(before)|)
    requires CrashShape(before, mid, Frontier(OpenOf(before), i), marked)
    requires IdsIncrease(mid) && CrashShape(mid, after, Frontier(OpenOf(mid), |OpenOf(mid)|), false)
    ensures (forall n :: 0 <= n < |before| && before[n].status == Open ==> after[n].status == Closed) <==> !marked
  {
    AllClosed(mid, after);
    hide OpenOf, Frontier, IdsIncrease;
    if marked {
      var m := FrontierIsOpen(before, i);
      assert mid[m].status == Recovering && after[m] == mid[m];
    } else {
      forall n | 0 <= n < |before| && before[n].status == Open ensures after[n].status == Closed {
        assert RowShape(before[n], mid[n], Frontier(OpenOf(before), i), false);
        assert RowShape(mid[n], after[n], Frontier(OpenOf(mid), |OpenOf(mid)|), false);
      }
    }
  }

  // ----- Which gaps get a backfill -----

  /** The gaps among the first `n` that a run backfills; the others lie in one of those. */
  function Backfilled(open: seq<GapRow>, n: nat): (b: seq<nat>)
    requires n <= |open|
    ensures forall i :: 0 <= i < |b| ==> b[i] < n
  {
    if n == 0 then []
    else
      var b := Backfilled(open, n - 1);
      if CoveredBy(Widened(open[n - 1]), RangesOf(open, b)) then b else b + [n - 1]
  }

  function RangesOf(open: seq<GapRow>, gaps: seq<nat>): seq<(nat, nat)>
    requires forall i :: 0 <= i < |gaps| ==> gaps[i] < |open|
  {
    seq(|gaps|, i requires 0 <= i < |gaps| => Widened(open[gaps[i]]))
  }

  /** No backfill before it covers this gap. */
  predicate IsBackfilled(open: seq<GapRow>, i: nat) {
    i < |open| && !CoveredBy(Widened(open[i]), RangesOf(open, Backfilled(open, i)))
  }

  lemma {:induction false} BackfilledAre(open: seq<GapRow>, n: nat, i: nat)
    requires n <= |open|
    ensures i in Backfilled(open, n) <==> i < n && IsBackfilled(open, i)
  {
    if n != 0 {
      BackfilledAre(open, n - 1, i);
    }
  }

  lemma CoveredGrows(range: (nat, nat), covered: seq<(nat, nat)>, more: seq<(nat, nat)>)
    requires CoveredBy(range, covered)
    ensures CoveredBy(range, covered + more)
  {
    var c :| c in covered && Spans(c, range);
    assert c in covered + more;
  }

  lemma NowCovered(covered: seq<(nat, nat)>, range: (nat, nat))
    ensures CoveredBy(range, covered + [range])
  {
    assert range in covered + [range] && Spans(range, range);
  }

  lemma RangesSnoc(open: seq<GapRow>, gaps: seq<nat>, i: nat)
    requires (forall n :: 0 <= n < |gaps| ==> gaps[n] < |open|) && i < |open|
    ensures RangesOf(open, gaps + [i]) == RangesOf(open, gaps) + [Widened(open[i])]
  {
    hide Widened;
  }

  /** Those backfills cover every gap they were passed over for. */
  lemma {:induction false} BackfilledCover(open: seq<GapRow>, n: nat, j: nat)
    requires j < n <= |open|
    ensures CoveredBy(Widened(open[j]), RangesOf(open, Backfilled(open, n)))
  {
    hide Widened, CoveredBy;
    var b := Backfilled(open, n - 1);
    if CoveredBy(Widened(open[n - 1]), RangesOf(open, b)) {
      if j < n - 1 { BackfilledCover(open, n - 1, j); }
    } else {
      RangesSnoc(open, b, n - 1);
      if j < n - 1 {
        BackfilledCover(open, n - 1, j);
        CoveredGrows(Widened(open[j]), RangesOf(open, b), [Widened(open[n - 1])]);
      } else {
        NowCovered(RangesOf(open, b), Widened(open[n - 1]));
      }
    }
  }

  // ----- What a run did so far -----

  /** What a run starts from and meets; `trials(i)` is what the backfill of gap `i` meets. */
  datatype Case = Case(before: Tables, chain: Chain, trials: nat -> Trial)

  function OpenGaps(c: Case): seq<GapRow> {
    OpenOf(c.before.gaps)
  }

  /** One backfill of the run: the gap it was for, whether its pipeline returned Ok, and the
      batches it handled. */
  datatype Trip = Trip(gap: nat, whole: bool, handled: seq<Handled>)

  /** Gaps processed, whether the next one is marked recovering, and the backfills; over all of
      them the batches that landed, in order, and the COMMITs without an answer that may land
      yet, whichever pipeline is running by then. */
  datatype Progress = Progress(processed: nat, marked: bool, trips: seq<Trip>,
                               landed: seq<seq<PendingWrite>>, limbo: seq<seq<PendingWrite>>)

  const START: Progress := Progress(0, false, [], [], [])

  function AllHandled(trips: seq<Trip>): seq<Handled> {
    if trips == [] then []
    else AllHandled(trips[..|trips| - 1]) + trips[|trips| - 1].handled
  }

  lemma AllHandledSnoc(trips: seq<Trip>, t: Trip)
    ensures AllHandled(trips + [t]) == AllHandled(trips) + t.handled
  {
    assert (trips + [t])[..|trips|] == trips;
  }

  lemma {:induction false} AllHandledAre(trips: seq<Trip>, h: Handled)
    ensures h in AllHandled(trips) <==> exists t :: t in trips && h in t.handled
  {
    if trips != [] {
      var n := |trips| - 1;
      AllHandledAre(trips[..n], h);
      assert trips == trips[..n] + [trips[n]];
    }
  }

  /** The rows made of what the source sends in the backfill of a gap. */
  function RowsFor(c: Case, gap: nat): seq<PendingWrite>
    requires gap < |OpenGaps(c)|
  {
    var range := Widened(OpenGaps(c)[gap]);
    SentRows(c.chain, range.0, range.1, c.trials(gap))
  }

  ghost predicate TripOk(c: Case, t: Trip) {
    && t.gap < |OpenGaps(c)|
    && Books(RowsFor(c, t.gap), t.whole, t.handled)
    && (t.whole ==> PoolsParse(c.before.pools))
    && (!PoolsParse(c.before.pools) ==> t.handled == [])
    && (AlwaysFine(c.trials(t.gap).weather) ==> AllCommitted(t.handled))
    && (AlwaysStormy(c.trials(t.gap).weather) ==> NoneSent(t.handled))
  }

  /** The backfills so far: those of the processed gaps, all of them through, and possibly the
      one of the gap that is marked. `covered` lists the widened ranges of those that are
      through, in order, and nothing else. */
  ghost predicate TripsOk(c: Case, p: Progress, covered: seq<(nat, nat)>)
    requires p.processed <= |OpenGaps(c)|
  {
    var open, n := OpenGaps(c), p.processed;
    var b := Backfilled(open, n);
    && (forall t :: t in p.trips ==> TripOk(c, t))
    && (p.marked ==> IsBackfilled(open, n))
    && |b| <= |p.trips| <= |b| + 1
    && (forall i :: 0 <= i < |b| ==> p.trips[i].gap == b[i] && p.trips[i].whole)
    && (|p.trips| > |b| ==> p.marked && p.trips[|b|].gap == n)
    && covered == RangesOf(open, b) + if |p.trips| > |b| && p.trips[|b|].whole then [Widened(open[n])] else []
  }

  /** Events and trades are those at the start plus the rows that landed. */
  predicate Grown(before: Tables, rows: seq<PendingWrite>, tables: Tables) {
    && tables.events == Insert(before.events, EventPairs(rows))
    && tables.trades == Insert(before.trades, TradePairs(rows))
    && tables.pools == before.pools
  }

  /** What the loop keeps, under any fault: the tables grew by the rows that landed; over the
      whole run each COMMIT that was sent takes effect at most once; the gaps have the crash
      shape, `covered` is what was backfilled, and every processed gap lies in it. */
  ghost predicate LoopInv(c: Case, p: Progress, tables: Tables, covered: seq<(nat, nat)>) {
    && p.processed <= |OpenGaps(c)|
    && Grown(c.before, Flatten(p.landed), tables)
    && LandedOnceOf(p.landed, p.limbo, AllHandled(p.trips), multiset{})
    && CrashShape(c.before.gaps, tables.gaps, Frontier(OpenGaps(c), p.processed), p.marked)
    && TripsOk(c, p, covered)
    && (forall j :: 0 <= j < p.processed ==> CoveredBy(Widened(OpenGaps(c)[j]), covered))
  }

  lemma StartLoop(c: Case)
    requires IdsIncrease(c.before.gaps)
    ensures LoopInv(c, START, c.before, [])
  {
    OpenOfMeaning(c.before.gaps);
    assert EventPairs([]) == [];
    forall i | 0 <= i < |c.before.gaps|
      ensures RowShape(c.before.gaps[i], c.before.gaps[i], Frontier(OpenGaps(c), 0), false)
    {
      if c.before.gaps[i].status == Open {
        assert c.before.gaps[i] in OpenGaps(c);
      }
    }
  }

  lemma FrontierId(open: seq<GapRow>, i: nat)
    requires i < |open|
    ensures Frontier(open, i) == open[i].id
  {}

  lemma SameGrown(before: Tables, rows: seq<PendingWrite>, tables: Tables, gaps: seq<GapRow>)
    requires Grown(before, rows, tables)
    ensures Grown(before, rows, tables.(gaps := gaps))
  {}

  /** The gap is marked recovering. */
  lemma LoopMarked(c: Case, p: Progress, tables: Tables, covered: seq<(nat, nat)>, now: nat)
    requires LoopInv(c, p, tables, covered) && IdsIncrease(c.before.gaps)
    requires !p.marked && p.processed < |OpenGaps(c)| && !CoveredBy(Widened(OpenGaps(c)[p.processed]), covered)
    ensures var id := OpenGaps(c)[p.processed].id;
            LoopInv(c, p.(marked := true), tables.(gaps := Store.MarkGap(tables.gaps, id, Recovering, now)), covered)
  {
    hide OpenOf, CoveredBy, TripsOk, CrashShape, Frontier, Grown, IdsIncrease;
    AtFrontier(c.before.gaps, p.processed);
    MarkRecovering(c.before.gaps, tables.gaps, Frontier(OpenGaps(c), p.processed), now);
    FrontierId(OpenGaps(c), p.processed);
    TripsMarked(c, p, covered);
    SameGrown(c.before, Flatten(p.landed), tables,
              Store.MarkGap(tables.gaps, OpenGaps(c)[p.processed].id, Recovering, now));
  }

  lemma TripsMarked(c: Case, p: Progress, covered: seq<(nat, nat)>)
    requires !p.marked && p.processed < |OpenGaps(c)| && TripsOk(c, p, covered)
    requires !CoveredBy(Widened(OpenGaps(c)[p.processed]), covered)
    ensures TripsOk(c, p.(marked := true), covered)
  {
    hide TripOk, OpenGaps, CoveredBy, Widened, Backfilled;
    assert covered == RangesOf(OpenGaps(c), Backfilled(OpenGaps(c), p.processed));
  }

  /** Its range went through the pipeline, to the end or not; older COMMITs may have landed. */
  lemma LoopBackfilled(c: Case, p: Progress, tables: Tables, covered: seq<(nat, nat)>, t: Trip,
                       landed: seq<seq<PendingWrite>>, limbo: seq<seq<PendingWrite>>, after: Tables)
    requires LoopInv(c, p, tables, covered) && p.marked && |p.trips| == |Backfilled(OpenGaps(c), p.processed)|
    requires TripOk(c, t) && t.gap == p.processed
    requires Grown(c.before, Flatten(landed), after) && after.gaps == tables.gaps
    requires LandedOnceOf(landed, limbo, AllHandled(p.trips) + t.handled, multiset{})
    ensures p.processed < |OpenGaps(c)|
    ensures var range := Widened(OpenGaps(c)[p.processed]);
            LoopInv(c, p.(trips := p.trips + [t], landed := landed, limbo := limbo), after,
                    if t.whole then covered + [range] else covered)
  {
    hide OpenOf, OpenGaps, TripOk, Widened, Flatten, CrashShape, CoveredBy, Grown, Backfilled, LandedOnceOf;
    AllHandledSnoc(p.trips, t);
    forall j | 0 <= j < p.processed
      ensures CoveredBy(Widened(OpenGaps(c)[j]), covered + [Widened(OpenGaps(c)[p.processed])])
    {
      CoveredGrows(Widened(OpenGaps(c)[j]), covered, [Widened(OpenGaps(c)[p.processed])]);
    }
  }

  /** The gap at the frontier is through: it was covered, or its own backfill is. */
  ghost predicate Through(c: Case, p: Progress, covered: seq<(nat, nat)>)
    requires p.processed < |OpenGaps(c)|
  {
    var b := Backfilled(OpenGaps(c), p.processed);
    if p.marked then |p.trips| == |b| + 1 && p.trips[|b|].whole
    else CoveredBy(Widened(OpenGaps(c)[p.processed]), covered)
  }

  /** The gap is closed. */
  lemma LoopClosed(c: Case, p: Progress, tables: Tables, covered: seq<(nat, nat)>, now: nat)
    requires LoopInv(c, p, tables, covered) && IdsIncrease(c.before.gaps)
    requires p.processed < |OpenGaps(c)| && Through(c, p, covered)
    ensures var id := OpenGaps(c)[p.processed].id;
            LoopInv(c, p.(processed := p.processed + 1, marked := false),
                    tables.(gaps := Store.MarkGap(tables.gaps, id, Closed, now)), covered)
  {
    hide OpenOf, CoveredBy, TripsOk, CrashShape, Frontier, Grown, IdsIncrease, Through;
    var open := OpenGaps(c);
    AtFrontier(c.before.gaps, p.processed);
    MarkClosed(c.before.gaps, tables.gaps, Frontier(open, p.processed), Frontier(open, p.processed + 1), p.marked, now);
    FrontierId(open, p.processed);
    TripsClosed(c, p, covered);
    SameGrown(c.before, Flatten(p.landed), tables, Store.MarkGap(tables.gaps, open[p.processed].id, Closed, now));
    ThroughIsCovered(c, p, covered);
  }

  lemma ThroughIsCovered(c: Case, p: Progress, covered: seq<(nat, nat)>)
    requires p.processed < |OpenGaps(c)| && TripsOk(c, p, covered) && Through(c, p, covered)
    ensures CoveredBy(Widened(OpenGaps(c)[p.processed]), covered)
  {
    hide OpenGaps, Widened, TripOk, Backfilled;
    if p.marked {
      NowCovered(RangesOf(OpenGaps(c), Backfilled(OpenGaps(c), p.processed)), Widened(OpenGaps(c)[p.processed]));
    }
  }

  lemma TripsClosed(c: Case, p: Progress, covered: seq<(nat, nat)>)
    requires p.processed < |OpenGaps(c)| && TripsOk(c, p, covered) && Through(c, p, covered)
    ensures TripsOk(c, p.(processed := p.processed + 1, marked := false), covered)
  {
    hide TripOk, OpenGaps, Widened, CoveredBy;
    var open, n := OpenGaps(c), p.processed;
    var b := Backfilled(open, n);
    RangesSnoc(open, b, n);
    assert RangesOf(open, b) + [] == RangesOf(open, b);
    assert Backfilled(open, n + 1) == if p.marked then b + [n] else b;
  }

  // ----- What a closed gap is worth -----

  /** Which backfill covers a gap. */
  lemma CoveringGap(open: seq<GapRow>, n: nat, j: nat) returns (i: nat)
    requires j < n <= |open|
    ensures i < |Backfilled(open, n)| && IsBackfilled(open, Backfilled(open, n)[i])
    ensures Spans(Widened(open[Backfilled(open, n)[i]]), Widened(open[j]))
  {
    hide Widened, Spans, Backfilled, IsBackfilled;
    var b := Backfilled(open, n);
    BackfilledCover(open, n, j);
    var r :| r in RangesOf(open, b) && Spans(r, Widened(open[j]));
    i :| 0 <= i < |b| && RangesOf(open, b)[i] == r;
    BackfilledAre(open, n, b[i]);
  }

  lemma TripAt(c: Case, p: Progress, tables: Tables, covered: seq<(nat, nat)>, i: nat)
    requires LoopInv(c, p, tables, covered) && i < |Backfilled(OpenGaps(c), p.processed)|
    ensures i < |p.trips| && p.trips[i] in p.trips && TripOk(c, p.trips[i]) && p.trips[i].whole
    ensures p.trips[i].gap == Backfilled(OpenGaps(c), p.processed)[i]
  {
    hide OpenGaps, TripOk, Widened, CrashShape, Grown, LandedOnceOf, Backfilled, IsBackfilled, CoveredBy, RangesOf;
    assert p.trips[i] in p.trips;
  }

  /** The backfill that covers a processed gap. */
  lemma CoveringTrip(c: Case, p: Progress, tables: Tables, covered: seq<(nat, nat)>, j: nat) returns (t: Trip)
    requires LoopInv(c, p, tables, covered) && j < p.processed
    ensures t in p.trips && TripOk(c, t) && t.whole && t.gap < p.processed && IsBackfilled(OpenGaps(c), t.gap)
    ensures Spans(Widened(OpenGaps(c)[t.gap]), Widened(OpenGaps(c)[j]))
  {
    hide LoopInv, OpenGaps, TripOk, Widened, Spans, Backfilled, IsBackfilled;
    LoopParts(c, p, tables, covered);
    var i := CoveringGap(OpenGaps(c), p.processed, j);
    TripAt(c, p, tables, covered, i);
    t := p.trips[i];
  }

  /** Where a landed row comes from: a batch some backfill of the run handled, and sent the
      COMMIT of. */
  lemma LandedFrom(c: Case, p: Progress, tables: Tables, covered: seq<(nat, nat)>, row: PendingWrite)
    returns (t: Trip, h: Handled)
    requires LoopInv(c, p, tables, covered) && row in Flatten(p.landed)
    ensures t in p.trips && TripOk(c, t) && h in t.handled && SentCommit(h) && row in h.rows
    ensures row in RowsFor(c, t.gap)
  {
    hide CrashShape, Grown, CoveredBy, OpenGaps, Flatten, TripOk, RowsFor, Attempts, AllHandled, Backfilled;
    InFlatten(p.landed, row);
    var b :| b in p.landed && row in b;
    assert b in multiset(p.landed) + multiset(p.limbo);
    AttemptSource(AllHandled(p.trips), b);
    h :| h in AllHandled(p.trips) && h.rows == b && SentCommit(h);
    AllHandledAre(p.trips, h);
    t :| t in p.trips && h in t.handled;
    RowFromTrip(c, t, h, row);
  }

  lemma RowFromTrip(c: Case, t: Trip, h: Handled, row: PendingWrite)
    requires TripOk(c, t) && h in t.handled && row in h.rows
    ensures row in RowsFor(c, t.gap) && row.event.key in KeysOf(EventsOf(RowsFor(c, t.gap)))
  {
    hide OpenGaps, RowsFor, Books;
    HandledWasSent(RowsFor(c, t.gap), t.whole, t.handled, h, row);
  }

  /** A committed batch of the run landed. */
  lemma CommittedLanded(c: Case, p: Progress, tables: Tables, covered: seq<(nat, nat)>, t: Trip)
    requires LoopInv(c, p, tables, covered) && t in p.trips
    ensures forall h :: h in t.handled && h.fate.Committed? ==> h.rows in p.landed
  {
    hide CrashShape, Grown, CoveredBy, OpenGaps, TripsOk, Attempts, AllHandled;
    forall h | h in t.handled && h.fate.Committed? ensures h.rows in p.landed {
      AllHandledAre(p.trips, h);
    }
  }

  /** What is stored: what was stored before, and the keys of the rows that landed. */
  lemma StoredExactly(c: Case, p: Progress, tables: Tables, covered: seq<(nat, nat)>, k: EventKey)
    requires LoopInv(c, p, tables, covered)
    ensures k in tables.events <==> k in c.before.events || Landed(p.landed, k)
  {
    hide TripsOk, CrashShape, Insert, Flatten, CoveredBy, OpenGaps, LandedOnceOf;
    var rows := Flatten(p.landed);
    InsertKeeps(c.before.events, EventPairs(rows));
    if k in tables.events && k !in c.before.events {
      InsertSource(c.before.events, EventPairs(rows), k);
      var i :| 0 <= i < |rows| && EventPairs(rows)[i].0 == k;
      assert rows[i] in rows;
    }
    if Landed(p.landed, k) {
      var row :| row in rows && row.event.key == k;
      var i :| 0 <= i < |rows| && rows[i] == row;
      assert EventPairs(rows)[i].0 == k;
    }
  }

  /** Whatever happened, the table still holds only rows the chain accounts for. */
  lemma RunAccounted(c: Case, p: Progress, tables: Tables, covered: seq<(nat, nat)>)
    requires LoopInv(c, p, tables, covered)
    requires ChainOk(c.chain) && AccountedFor(c.before.events, c.chain)
    ensures AccountedFor(tables.events, c.chain)
  {
    hide CrashShape, Insert, Flatten, CoveredBy, OpenGaps, ChainOk, OnChain, RowsFor, TripOk, LandedOnceOf, TripsOk;
    var rows, events := Flatten(p.landed), tables.events;
    InsertKeeps(c.before.events, EventPairs(rows));
    forall k | k in events ensures OnChain(c.chain, events[k].slot, k) {
      if k !in c.before.events {
        InsertSource(c.before.events, EventPairs(rows), k);
        var i :| 0 <= i < |rows| && EventPairs(rows)[i] == (k, events[k]);
        var t, h := LandedFrom(c, p, tables, covered, rows[i]);
        TripGap(c, t);
        SentOnChain(c, t.gap, rows[i]);
      }
    }
  }

  lemma TripGap(c: Case, t: Trip)
    requires TripOk(c, t)
    ensures t.gap < |OpenGaps(c)|
  {}

  lemma SentOnChain(c: Case, gap: nat, row: PendingWrite)
    requires gap < |OpenGaps(c)| && ChainOk(c.chain) && row in RowsFor(c, gap)
    ensures OnChain(c.chain, row.event.slot, row.event.key)
  {
    hide Sent, Widened, OpenGaps;
    var range := Widened(OpenGaps(c)[gap]);
    var node, rows := c.trials(gap).node, RowsFor(c, gap);
    var n :| 0 <= n < |rows| && rows[n] == row;
    assert row.event == Sent(c.chain, range.0, range.1, node)[n];
    SentSource(c.chain, range.0, range.1, node, row.event);
    var s :| s in c.chain && row.event in c.chain[s] && OnChain(c.chain, s, row.event.key);
    var i :| 0 <= i < |c.chain[s]| && c.chain[s][i] == row.event;
  }

  /** The ledger step: a closed gap passes the range check exactly when every key of the chain
      there was stored before or is carried by a row of a batch that landed. */
  lemma ClosedGapExactly(c: Case, p: Progress, tables: Tables, covered: seq<(nat, nat)>, j: nat)
    requires LoopInv(c, p, tables, covered) && j < p.processed
    requires ChainOk(c.chain) && AccountedFor(c.before.events, c.chain)
    ensures var g := OpenGaps(c)[j];
            RangeMatches(tables.events, c.chain, g.start, g.end) <==>
              forall s, k :: g.start <= s <= g.end && OnChain(c.chain, s, k) ==>
                k in c.before.events || Landed(p.landed, k)
  {
    hide LoopInv, ChainOk, OnChain, AccountedFor, Landed, RangeMatches, OpenGaps;
    LoopParts(c, p, tables, covered);
    var g := OpenGaps(c)[j];
    RunAccounted(c, p, tables, covered);
    MatchesIsStored(tables.events, c.chain, g.start, g.end);
    forall k ensures k in tables.events <==> k in c.before.events || Landed(p.landed, k) {
      StoredExactly(c, p, tables, covered, k);
    }
  }

  lemma KeysAreSent(c: Case, gap: nat)
    requires gap < |OpenGaps(c)|
    ensures var range := Widened(OpenGaps(c)[gap]);
            EventsOf(RowsFor(c, gap)) == Sent(c.chain, range.0, range.1, c.trials(gap).node)
  {
    hide Sent, OpenGaps, Widened;
  }

  /** Why a closed gap misses a key, whatever the faults: the backfill that covers it did not
      send the key, or sent it in a batch whose flush failed. Over a steady source the first
      means that it gave up on the block. */
  lemma WhyMissing(c: Case, p: Progress, tables: Tables, covered: seq<(nat, nat)>, j: nat, s: nat, k: EventKey)
    returns (t: Trip)
    requires LoopInv(c, p, tables, covered) && j < p.processed && ChainOk(c.chain)
    requires var g := OpenGaps(c)[j]; g.start <= s <= g.end && OnChain(c.chain, s, k) && k !in tables.events
    ensures t in p.trips && t.whole && t.gap < |OpenGaps(c)|
    ensures var range := Widened(OpenGaps(c)[t.gap]);
            && Spans(range, Widened(OpenGaps(c)[j]))
            && (k !in KeysOf(EventsOf(RowsFor(c, t.gap))) || FailedBatch(t.handled, k))
            && (Steady(c.chain, range.0, range.1, c.trials(t.gap).node) ==>
                  c.trials(t.gap).node.outage(s) >= MAX_ATTEMPTS || FailedBatch(t.handled, k))
  {
    hide LoopInv, ChainOk, OnChain, Sent, Steady, Books, Landed, FailedBatch, OpenGaps, RowsFor;
    t := CoveringTrip(c, p, tables, covered, j);
    var range, node := Widened(OpenGaps(c)[t.gap]), c.trials(t.gap).node;
    StoredExactly(c, p, tables, covered, k);
    KeysAreSent(c, t.gap);
    CommittedLanded(c, p, tables, covered, t);
    if k in KeysOf(EventsOf(RowsFor(c, t.gap))) {
      SentLandedOrFailed(RowsFor(c, t.gap), t.handled, p.landed, k);
    }
    if Steady(c.chain, range.0, range.1, node) {
      assert range.0 <= s <= range.1;
      SteadySends(c.chain, range.0, range.1, node, s, k);
    }
  }

  // ----- When a closed gap is complete, told from what the run meets -----

  /** The flushes of this gap's backfill all go through, or are all stopped. */
  ghost predicate Plain(c: Case, i: nat) {
    AlwaysFine(c.trials(i).weather) || AlwaysStormy(c.trials(i).weather)
  }

  /** It delivers the key: its source sends it, and its flushes go through. A source cut short by
      a cancellation or a closed receiver sends less, and its gap is closed all the same. */
  ghost predicate Delivers(c: Case, i: nat, k: EventKey)
    requires i < |OpenGaps(c)|
  {
    AlwaysFine(c.trials(i).weather) && k in KeysOf(EventsOf(RowsFor(c, i)))
  }

  /** Some backfill among the first `n` gaps delivers the key. Which gaps are backfilled is a
      matter of the open gaps alone. */
  ghost predicate Delivered(c: Case, n: nat, k: EventKey) {
    exists i: nat :: i < n && IsBackfilled(OpenGaps(c), i) && Delivers(c, i, k)
  }

  lemma TripDelivers(c: Case, p: Progress, tables: Tables, covered: seq<(nat, nat)>, t: Trip, k: EventKey)
    requires LoopInv(c, p, tables, covered) && t in p.trips && TripOk(c, t) && t.whole && Delivers(c, t.gap, k)
    ensures Landed(p.landed, k)
  {
    hide LoopInv, OpenGaps, RowsFor, Flatten, Books;
    CommittedLanded(c, p, tables, covered, t);
    var h, row := SentWasHandled(RowsFor(c, t.gap), t.handled, k);
    InFlatten(p.landed, row);
  }

  lemma LandedDelivers(c: Case, t: Trip, h: Handled, row: PendingWrite)
    requires TripOk(c, t) && Plain(c, t.gap) && h in t.handled && SentCommit(h) && row in h.rows
    ensures Delivers(c, t.gap, row.event.key)
  {
    hide OpenGaps, RowsFor, Books;
    RowFromTrip(c, t, h, row);
  }

  lemma DeliveredIsLanded(c: Case, p: Progress, tables: Tables, covered: seq<(nat, nat)>, k: EventKey)
    requires LoopInv(c, p, tables, covered) && !p.marked
    requires forall i: nat :: i < p.processed && IsBackfilled(OpenGaps(c), i) ==> Plain(c, i)
    ensures Landed(p.landed, k) <==> Delivered(c, p.processed, k)
  {
    hide LoopInv, TripOk, Plain, Delivers, OpenGaps, Backfilled, IsBackfilled, Flatten, RowsFor;
    LoopParts(c, p, tables, covered);
    var open := OpenGaps(c);
    var b := Backfilled(open, p.processed);
    if Landed(p.landed, k) {
      var row :| row in Flatten(p.landed) && row.event.key == k;
      var t, h := LandedFrom(c, p, tables, covered, row);
      var n :| 0 <= n < |p.trips| && p.trips[n] == t;
      TripAt(c, p, tables, covered, n);
      BackfilledAre(open, p.processed, b[n]);
      LandedDelivers(c, t, h, row);
    }
    if i: nat :| i < p.processed && IsBackfilled(open, i) && Delivers(c, i, k) {
      BackfilledAre(open, p.processed, i);
      var n :| 0 <= n < |b| && b[n] == i;
      TripAt(c, p, tables, covered, n);
      TripDelivers(c, p, tables, covered, p.trips[n], k);
    }
  }

  /** A closed gap, backfilled or closed through the shortcut, passes the range check exactly
      when every key of the chain in its range that was not stored before is delivered by some
      backfill of the run: sent by its source, through flushes that are not refused. */
  lemma CompleteExactly(c: Case, p: Progress, tables: Tables, covered: seq<(nat, nat)>, j: nat)
    requires LoopInv(c, p, tables, covered) && !p.marked && j < p.processed
    requires ChainOk(c.chain) && AccountedFor(c.before.events, c.chain)
    requires forall i: nat :: i < p.processed && IsBackfilled(OpenGaps(c), i) ==> Plain(c, i)
    ensures var g := OpenGaps(c)[j];
            RangeMatches(tables.events, c.chain, g.start, g.end) <==>
              forall s, k :: g.start <= s <= g.end && OnChain(c.chain, s, k) ==>
                k in c.before.events || Delivered(c, p.processed, k)
  {
    hide LoopInv, ChainOk, OnChain, AccountedFor, Landed, RangeMatches, OpenGaps, IsBackfilled, Plain, Delivered;
    LoopParts(c, p, tables, covered);
    ClosedGapExactly(c, p, tables, covered, j);
    forall k ensures Landed(p.landed, k) <==> Delivered(c, p.processed, k) {
      DeliveredIsLanded(c, p, tables, covered, k);
    }
  }

  /** The backfill of this gap fetches the block of this slot: it is in its range and the node
      answers within the four attempts; and its flushes go through. */
  ghost predicate Fetches(c: Case, i: nat, s: nat)
    requires i < |OpenGaps(c)|
  {
    var range := Widened(OpenGaps(c)[i]);
    range.0 <= s <= range.1 && c.trials(i).node.outage(s) < MAX_ATTEMPTS && AlwaysFine(c.trials(i).weather)
  }

  ghost predicate SteadyGap(c: Case, i: nat)
    requires i < |OpenGaps(c)|
  {
    var range := Widened(OpenGaps(c)[i]);
    Steady(c.chain, range.0, range.1, c.trials(i).node)
  }

  lemma SteadyDelivers(c: Case, i: nat, s: nat, k: EventKey)
    requires i < |OpenGaps(c)| && SteadyGap(c, i) && ChainOk(c.chain) && OnChain(c.chain, s, k)
    ensures Delivers(c, i, k) <==> Fetches(c, i, s)
  {
    hide ChainOk, OnChain, Steady, OpenGaps, RowsFor, Sent, Widened;
    var range, node := Widened(OpenGaps(c)[i]), c.trials(i).node;
    KeysAreSent(c, i);
    if range.0 <= s <= range.1 { SteadySends(c.chain, range.0, range.1, node, s, k); }
    if k in KeysOf(EventsOf(RowsFor(c, i))) { SentInRange(c.chain, range.0, range.1, node, s, k); }
  }

  lemma SentInRange(chain: Chain, from: nat, to: nat, node: Node, s: nat, k: EventKey)
    requires ChainOk(chain) && OnChain(chain, s, k) && k in KeysOf(Sent(chain, from, to, node))
    ensures from <= s <= to && node.outage(s) < MAX_ATTEMPTS
  {
    hide ChainOk, OnChain, Sent;
    var e :| e in Sent(chain, from, to, node) && e.key == k;
    SentSource(chain, from, to, node, e);
    var r :| from <= r <= to && node.outage(r) < MAX_ATTEMPTS && OnChain(chain, r, k);
    OneSlot(chain, s, r, k);
  }

  /** Where the sources are not cut short, only the blocks given up on count: a closed gap is
      complete exactly when every block of its range whose events were not all stored before is
      fetched by some backfill of the run whose flushes go through. */
  lemma GivenUpExactly(c: Case, p: Progress, tables: Tables, covered: seq<(nat, nat)>, j: nat)
    requires LoopInv(c, p, tables, covered) && !p.marked && j < p.processed
    requires ChainOk(c.chain) && AccountedFor(c.before.events, c.chain)
    requires forall i: nat :: i < p.processed && IsBackfilled(OpenGaps(c), i) ==> Plain(c, i) && SteadyGap(c, i)
    ensures var g := OpenGaps(c)[j];
            RangeMatches(tables.events, c.chain, g.start, g.end) <==>
              forall s, k :: g.start <= s <= g.end && OnChain(c.chain, s, k) ==>
                || k in c.before.events
                || exists i: nat :: i < p.processed && IsBackfilled(OpenGaps(c), i) && Fetches(c, i, s)
  {
    hide LoopInv, ChainOk, OnChain, AccountedFor, RangeMatches, OpenGaps, IsBackfilled, Plain, SteadyGap;
    hide Delivers, Fetches;
    LoopParts(c, p, tables, covered);
    CompleteExactly(c, p, tables, covered, j);
    forall s, k | OnChain(c.chain, s, k)
      ensures Delivered(c, p.processed, k) <==>
                exists i: nat :: i < p.processed && IsBackfilled(OpenGaps(c), i) && Fetches(c, i, s)
    {
      forall i: nat | i < p.processed ensures Delivers(c, i, k) && IsBackfilled(OpenGaps(c), i) <==>
                                                Fetches(c, i, s) && IsBackfilled(OpenGaps(c), i) {
        if IsBackfilled(OpenGaps(c), i) { SteadyDelivers(c, i, s, k); }
      }
    }
  }

  /** Refused flushes do not show: when the database stops every one of them, the run stores
      nothing, however well the blocks were fetched, and a gap it closes is complete exactly
      when it was complete before. */
  lemma RefusedFlushesStoreNothing(c: Case, p: Progress, tables: Tables, covered: seq<(nat, nat)>)
    requires LoopInv(c, p, tables, covered)
    requires forall i: nat :: i <= p.processed && IsBackfilled(OpenGaps(c), i) ==> AlwaysStormy(c.trials(i).weather)
    ensures tables.events == c.before.events && tables.trades == c.before.trades
    ensures ChainOk(c.chain) && AccountedFor(c.before.events, c.chain) ==>
              forall j :: 0 <= j < p.processed ==>
                var g := OpenGaps(c)[j];
                (RangeMatches(tables.events, c.chain, g.start, g.end) <==>
                   RangeStored(c.before.events, c.chain, g.start, g.end))
  {
    hide CrashShape, CoveredBy, Books, OpenGaps, OnChain, ChainOk, AccountedFor, RangeMatches, RangeStored;
    hide AlwaysStormy, IsBackfilled, Backfilled, RowsFor, Widened, LandedOnceOf;
    var b := Backfilled(OpenGaps(c), p.processed);
    forall t | t in p.trips ensures NoneSent(t.handled) {
      var n :| 0 <= n < |p.trips| && p.trips[n] == t;
      if n < |b| { BackfilledAre(OpenGaps(c), p.processed, b[n]); }
    }
    NothingLanded(p);
    NothingGrown(c.before, tables);
    if ChainOk(c.chain) && AccountedFor(c.before.events, c.chain) {
      forall j | 0 <= j < p.processed
        ensures var g := OpenGaps(c)[j];
                RangeMatches(tables.events, c.chain, g.start, g.end) <==>
                  RangeStored(c.before.events, c.chain, g.start, g.end)
      {
        MatchesIsStored(tables.events, c.chain, OpenGaps(c)[j].start, OpenGaps(c)[j].end);
      }
    }
  }

  lemma NothingGrown(before: Tables, after: Tables)
    requires Grown(before, Flatten([]), after)
    ensures after.events == before.events && after.trades == before.trades
  {
    assert EventPairs([]) == [];
  }

  /** Without a COMMIT nothing lands. */
  lemma NothingLanded(p: Progress)
    requires LandedOnceOf(p.landed, p.limbo, AllHandled(p.trips), multiset{})
    requires forall t :: t in p.trips ==> NoneSent(t.handled)
    ensures p.landed == []
  {
    hide AllHandled;
    forall h | h in AllHandled(p.trips) ensures !SentCommit(h) {
      AllHandledAre(p.trips, h);
    }
    NoAttempts(AllHandled(p.trips));
    BothEmpty(p.landed, p.limbo);
  }

  lemma BothEmpty<T>(a: seq<T>, b: seq<T>)
    requires multiset(a) + multiset(b) == multiset{}
    ensures a == []
  {
    assert |a| == |multiset(a)| <= |multiset(a) + multiset(b)| == 0;
  }

  lemma {:induction false} NoAttempts(handled: seq<Handled>)
    requires NoneSent(handled)
    ensures Attempts(handled) == multiset{}
  {
    if handled != [] {
      NoAttempts(handled[..|handled| - 1]);
      assert handled[|handled| - 1] in handled;
    }
  }

  /** No fault hides a row of this gap: every flush goes through and every block is fetched. */
  ghost predicate SmoothGap(c: Case, i: nat)
    requires i < |OpenGaps(c)|
  {
    var range := Widened(OpenGaps(c)[i]);
    && Steady(c.chain, range.0, range.1, c.trials(i).node) && AllFetched(c.chain, range.0, range.1, c.trials(i).node)
    && AlwaysFine(c.trials(i).weather)
  }

  /** The gaps that are backfilled meet no fault; what the others would meet does not matter. */
  ghost predicate Smooth(c: Case) {
    && ChainOk(c.chain) && AccountedFor(c.before.events, c.chain)
    && forall i: nat :: IsBackfilled(OpenGaps(c), i) ==> SmoothGap(c, i)
  }

  /** In a smooth run the whole widened range of every processed gap is stored. */
  lemma SmoothGapStored(c: Case, p: Progress, tables: Tables, covered: seq<(nat, nat)>, j: nat)
    requires LoopInv(c, p, tables, covered) && j < p.processed && Smooth(c)
    ensures var range := Widened(OpenGaps(c)[j]); RangeStored(tables.events, c.chain, range.0, range.1)
  {
    hide LoopInv, ChainOk, OnChain, Steady, Books, OpenGaps, AccountedFor, Sent, Landed, FailedBatch;
    hide IsBackfilled, Widened, RowsFor;
    LoopParts(c, p, tables, covered);
    var t := CoveringTrip(c, p, tables, covered, j);
    var range, wide, node := Widened(OpenGaps(c)[j]), Widened(OpenGaps(c)[t.gap]), c.trials(t.gap).node;
    assert SmoothGap(c, t.gap);
    NothingFailed(t.handled);
    KeysAreSent(c, t.gap);
    CommittedLanded(c, p, tables, covered, t);
    forall s, k | range.0 <= s <= range.1 && OnChain(c.chain, s, k) ensures k in tables.events {
      SteadySends(c.chain, wide.0, wide.1, node, s, k);
      SentLandedOrFailed(RowsFor(c, t.gap), t.handled, p.landed, k);
      StoredExactly(c, p, tables, covered, k);
    }
  }

  lemma NothingFailed(handled: seq<Handled>)
    requires AllCommitted(handled)
    ensures forall k :: !FailedBatch(handled, k)
  {}

  /** Of the first `n` gaps everything on the chain is stored from 64 slots before the gap to 64
      slots after it. */
  ghost predicate StoredAround(open: seq<GapRow>, n: nat, events: Events, chain: Chain) {
    forall j, s: nat, k ::
      0 <= j < n <= |open| && open[j].start <= s + 64 && s <= open[j].end + 64 && OnChain(chain, s, k) ==> k in events
  }

  /** The overlap: that is what a smooth run leaves, wherever it stops. */
  lemma OverlapStored(c: Case, p: Progress, tables: Tables, covered: seq<(nat, nat)>)
    requires LoopInv(c, p, tables, covered)
    ensures Smooth(c) ==> StoredAround(OpenGaps(c), p.processed, tables.events, c.chain)
  {
    hide LoopInv, Smooth, OnChain, OpenGaps;
    if Smooth(c) {
      forall j, s: nat, k | 0 <= j < p.processed <= |OpenGaps(c)| && OpenGaps(c)[j].start <= s + 64
                       && s <= OpenGaps(c)[j].end + 64 && OnChain(c.chain, s, k)
        ensures k in tables.events
      {
        SmoothGapStored(c, p, tables, covered, j);
      }
    }
  }

  /** In a smooth run every processed gap is complete, covered ones included. */
  lemma SmoothGapMatches(c: Case, p: Progress, tables: Tables, covered: seq<(nat, nat)>, j: nat)
    requires LoopInv(c, p, tables, covered) && j < p.processed && Smooth(c)
    ensures var g := OpenGaps(c)[j]; RangeMatches(tables.events, c.chain, g.start, g.end)
  {
    hide LoopInv, ChainOk, OnChain, OpenGaps, RangeMatches, AccountedFor, SmoothGap, IsBackfilled;
    LoopParts(c, p, tables, covered);
    var g := OpenGaps(c)[j];
    RunAccounted(c, p, tables, covered);
    SmoothGapStored(c, p, tables, covered, j);
    MatchesIsStored(tables.events, c.chain, g.start, g.end);
  }

  /** Recovery satisfies the independent checker: after a smooth run a check whose own source is
      steady and gives up on nothing answers that the gap is clean. */
  lemma RecoveredPassesCheck(c: Case, p: Progress, tables: Tables, covered: seq<(nat, nat)>, j: nat, check: Node)
    requires LoopInv(c, p, tables, covered) && j < p.processed && Smooth(c)
    requires var g := OpenGaps(c)[j];
             Steady(c.chain, g.start, g.end, check) && AllFetched(c.chain, g.start, g.end, check)
    ensures var g := OpenGaps(c)[j];
            StoredKeys(tables.events, g.start, g.end) == KeysOf(Sent(c.chain, g.start, g.end, check))
  {
    hide LoopInv, OnChain, OpenGaps, RangeMatches, AccountedFor, Steady, AllFetched, Sent, StoredKeys, ChainOk;
    LoopParts(c, p, tables, covered);
    SmoothGapMatches(c, p, tables, covered, j);
    CheckIsAsGoodAsItsFetches(tables.events, c.chain, OpenGaps(c)[j].start, OpenGaps(c)[j].end, check);
  }

  // ----- The run -----

  lemma TripIs(c: Case, gap: nat, range: (nat, nat), ok: bool, handled: seq<Handled>)
    requires gap < |OpenGaps(c)| && range == Widened(OpenGaps(c)[gap])
    requires Books(SentRows(c.chain, range.0, range.1, c.trials(gap)), ok, handled)
    requires ok ==> PoolsParse(c.before.pools)
    requires !PoolsParse(c.before.pools) ==> handled == []
    requires AlwaysFine(c.trials(gap).weather) ==> AllCommitted(handled)
    requires AlwaysStormy(c.trials(gap).weather) ==> NoneSent(handled)
    ensures TripOk(c, Trip(gap, ok, handled))
  {}

  lemma LoopParts(c: Case, p: Progress, tables: Tables, covered: seq<(nat, nat)>)
    requires LoopInv(c, p, tables, covered)
    ensures p.processed <= |OpenGaps(c)| && tables.pools == c.before.pools
    ensures CrashShape(c.before.gaps, tables.gaps, Frontier(OpenGaps(c), p.processed), p.marked)
    ensures !p.marked ==> |p.trips| == |Backfilled(OpenGaps(c), p.processed)|
    ensures Grown(c.before, Flatten(p.landed), tables)
  {}

  lemma NowThrough(c: Case, p: Progress, t: Trip, covered: seq<(nat, nat)>)
    requires p.processed < |OpenGaps(c)| && p.marked && t.whole
    requires |p.trips| == |Backfilled(OpenGaps(c), p.processed)|
    ensures forall landed, limbo :: Through(c, p.(trips := p.trips + [t], landed := landed, limbo := limbo), covered)
  {}

  lemma CoveredIsThrough(c: Case, p: Progress, covered: seq<(nat, nat)>)
    requires p.processed < |OpenGaps(c)| && !p.marked && CoveredBy(Widened(OpenGaps(c)[p.processed]), covered)
    ensures Through(c, p, covered)
  {}

  /** A pipeline of this trial gets to its end unless it is killed. */
  predicate GetsThrough(pools: Pools, trial: Trial) {
    PoolsParse(pools) && (trial.node.lists || !trial.node.surfaces)
  }

  /** The writer of the last pipeline, and with it everything the process and the database
      remember of the pipelines so far. */
  ghost predicate Carries(db: Database, writer: WriterTask?, c: Case, p: Progress)
    reads db, writer, if writer == null then {} else {writer.db}
  {
    if writer == null then p.landed == [] && p.limbo == [] && AllHandled(p.trips) == []
    else
      && Resumes(db, writer) && writer.start.(gaps := c.before.gaps) == c.before
      && writer.handled == AllHandled(p.trips) && writer.landed == p.landed && writer.limbo == p.limbo
  }

  /** `mark_gap` between two pipelines. */
  method MarkBetween(db: Database, writer: WriterTask?, id: nat, status: GapStatus, now: nat, ghost c: Case,
                     ghost p: Progress)
    requires db.Valid() && Carries(db, writer, c, p)
    modifies db`gaps
    ensures db.Valid() && Carries(db, writer, c, p)
    ensures db.gaps == Store.MarkGap(old(db.gaps), id, status, now)
  {
    hide Inv, Ledger, StoreInv, SidesOk, AllHandled, Failures, ParkedLetters;
    ghost var s := if writer == null then Init(0, db.State(), 0, 0) else writer.View();
    db.MarkGap(id, status, now);
    GapIds(db.State());
    if writer != null {
      GapsApart(s, writer.start, db.gaps);
      assert writer.View() == s.(store := s.store.(gaps := db.gaps));
    }
  }

  /** A backfill that found an earlier writer leaves the books of all of them. */
  lemma NowCarries(db: Database, writer: WriterTask, c: Case, p: Progress, t: Trip, before: Tables)
    requires writer.db == db && writer.Valid() && SidesOk(writer.accepted) && before.gaps == db.gaps
    requires writer.start == c.before.(gaps := before.gaps) && writer.handled == AllHandled(p.trips) + t.handled
    requires db.events == Insert(writer.start.events, EventPairs(Flatten(writer.landed)))
    requires db.trades == Insert(writer.start.trades, TradePairs(Flatten(writer.landed)))
    requires db.pools == c.before.pools
    ensures LandedOnceOf(writer.landed, writer.limbo, AllHandled(p.trips) + t.handled, multiset{})
    ensures Grown(c.before, Flatten(writer.landed), db.State())
    ensures writer.stopped ==>
              Carries(db, writer, c, p.(trips := p.trips + [t], landed := writer.landed, limbo := writer.limbo))
  {
    OnceOf(writer.View());
    hide Inv, Ledger, StoreInv, SidesOk, AllHandled, Insert, Flatten, TradePairs, LandedOnceOf;
    AllHandledSnoc(p.trips, t);
    if writer.stopped { ValidIsLeft(writer); }
  }

  lemma OnceOf(s: State)
    requires Inv(s) && (s.phase == Waiting || s.phase == Stopped)
    ensures LandedOnceOf(s.landed, s.limbo, s.handled, multiset{})
  {}

  /** What `previous` was started from. */
  lemma StartOf(db: Database, previous: WriterTask?, c: Case, p: Progress)
    requires Carries(db, previous, c, p)
    requires previous == null ==> Grown(c.before, Flatten(p.landed), db.State()) && db.checkpoint == c.before.checkpoint
                                  && db.deadLetters == c.before.deadLetters
    ensures Resumes(db, previous) && BaseTables(db, previous) == c.before.(gaps := db.gaps)
    ensures HandledBy(previous) == AllHandled(p.trips)
  {
    hide Inv, Ledger, StoreInv, SidesOk, AllHandled, Insert;
    if previous == null {
      NothingGrown(c.before, db.State());
    }
  }

  /** Until the first pipeline runs, nothing but gap rows changes. */
  ghost predicate Untouched(db: Database, writer: WriterTask?, c: Case)
    reads db
  {
    writer == null ==> db.checkpoint == c.before.checkpoint && db.deadLetters == c.before.deadLetters
  }

  /** The pipeline of one gap, between its two status changes. */
  method Pipe(db: Database, previous: WriterTask?, chain: Chain, range: (nat, nat), trial: Trial, killed: bool,
              covered: seq<(nat, nat)>, ghost c: Case, ghost p: Progress)
    returns (ok: bool, writer: WriterTask?, ghost q: Progress)
    requires db.Valid() && TrialOk(trial) && Carries(db, previous, c, p) && Untouched(db, previous, c)
    requires LoopInv(c, p, db.State(), covered) && p.marked && p.processed < |OpenGaps(c)|
    requires |p.trips| == |Backfilled(OpenGaps(c), p.processed)|
    requires range == Widened(OpenGaps(c)[p.processed]) && trial == c.trials(p.processed) && chain == c.chain
    modifies db
    ensures db.Valid() && db.gaps == old(db.gaps)
    ensures q.processed == p.processed && q.marked
    ensures LoopInv(c, q, db.State(), if ok then covered + [range] else covered)
    ensures ok <==> !killed && GetsThrough(c.before.pools, trial)
    ensures ok ==> Carries(db, writer, c, q) && writer != null && Through(c, q, covered + [range])
  {
    hide LoopInv, StoreInv, OpenGaps, TrialOk, TripOk, Books, Insert, SentRows, PoolsParse, Backfilled, Grown, Flatten;
    hide AlwaysFine, AlwaysStormy, AllCommitted, NoneSent, Carries, Resumes, LandedOnceOf, SidesOk, AllHandled;
    hide Inv, Ledger;
    LoopParts(c, p, db.State(), covered);
    StartOf(db, previous, c, p);
    ghost var tables := db.State();
    ghost var handled;
    ok, writer, handled := Backfill.Backfill(db, previous, chain, range.0, range.1, trial, killed);
    ghost var t := Trip(p.processed, ok, handled);
    TripIs(c, p.processed, range, ok, handled);
    if !PoolsParse(c.before.pools) {
      OnceIs(c, p, tables, covered);
      SameLanded(c.before, Flatten(p.landed), tables, db.State());
      assert AllHandled(p.trips) + t.handled == AllHandled(p.trips);
      LoopBackfilled(c, p, tables, covered, t, p.landed, p.limbo, db.State());
      q := p.(trips := p.trips + [t]);
    } else {
      NowCarries(db, writer, c, p, t, tables);
      LoopBackfilled(c, p, tables, covered, t, writer.landed, writer.limbo, db.State());
      if ok { NowThrough(c, p, t, covered + [range]); }
      q := p.(trips := p.trips + [t], landed := writer.landed, limbo := writer.limbo);
    }
  }

  lemma OnceIs(c: Case, p: Progress, tables: Tables, covered: seq<(nat, nat)>)
    requires LoopInv(c, p, tables, covered)
    ensures LandedOnceOf(p.landed, p.limbo, AllHandled(p.trips), multiset{})
  {}

  lemma SameLanded(before: Tables, rows: seq<PendingWrite>, tables: Tables, after: Tables)
    requires Grown(before, rows, tables) && after.events == tables.events && after.trades == tables.trades
    requires after.pools == tables.pools
    ensures Grown(before, rows, after)
  {}

  lemma CarriesNext(db: Database, writer: WriterTask?, c: Case, p: Progress, q: Progress)
    requires Carries(db, writer, c, p) && q.trips == p.trips && q.landed == p.landed && q.limbo == p.limbo
    ensures Carries(db, writer, c, q)
  {}

  /** One gap: closed at once when this run already covered its range, else recovered through
      the pipeline between its two status changes. Not alive means the run ended here. */
  method RecoverGap(db: Database, previous: WriterTask?, gap: GapRow, chain: Chain, trial: Trial, budget: nat,
                    before: seq<(nat, nat)>, ghost c: Case, ghost p: Progress)
    returns (alive: bool, writer: WriterTask?, left: nat, covered: seq<(nat, nat)>, ghost q: Progress)
    requires db.Valid() && TrialOk(trial) && IdsIncrease(c.before.gaps) && !p.marked
    requires Carries(db, previous, c, p) && Untouched(db, previous, c)
    requires LoopInv(c, p, db.State(), before) && p.processed < |OpenGaps(c)|
    requires gap == OpenGaps(c)[p.processed] && trial == c.trials(p.processed) && chain == c.chain
    modifies db
    ensures db.Valid() && LoopInv(c, q, db.State(), covered)
    ensures q.processed == if alive then p.processed + 1 else p.processed
    ensures alive ==> !q.marked && Carries(db, writer, c, q) && Untouched(db, writer, c)
    ensures budget >= 3 && (CoveredBy(Widened(gap), before) || GetsThrough(c.before.pools, trial)) ==>
              alive && left >= budget - 3
    ensures !CoveredBy(Widened(gap), before) && !PoolsParse(c.before.pools) ==> !alive && (budget >= 1 ==> q.marked)
  {
    hide LoopInv, CoveredBy, IdsIncrease, StoreInv, OpenGaps, TrialOk, PoolsParse, Carries, Through, Backfilled;
    var from := if gap.start < GAP_OVERLAP then 0 else gap.start - GAP_OVERLAP;
    var to := gap.end + GAP_OVERLAP;
    alive, writer, left, covered, q := false, previous, budget, before, p;
    LoopParts(c, p, db.State(), covered);

    if !CoveredBy((from, to), covered) {
      if left == 0 { return; }
      left := left - 1;
      LoopMarked(c, p, db.State(), covered, trial.now);
      MarkBetween(db, writer, gap.id, Recovering, trial.now, c, p);
      q := p.(marked := true);
      CarriesNext(db, writer, c, p, q);

      var ok;
      ok, writer, q := Pipe(db, writer, chain, (from, to), trial, left == 0, covered, c, q);
      if !ok { return; }
      left := left - 1;
      covered := covered + [(from, to)];
    } else {
      CoveredIsThrough(c, p, covered);
    }

    if left == 0 { return; }
    left := left - 1;
    LoopClosed(c, q, db.State(), covered, trial.now);
    MarkBetween(db, writer, gap.id, Closed, trial.now, c, q);
    ghost var done := q.(processed := p.processed + 1, marked := false);
    CarriesNext(db, writer, c, q, done);
    alive, q := true, done;
  }

  /** Every pipeline of the run gets to its end unless it is killed. */
  predicate AllGetThrough(c: Case) {
    forall i :: 0 <= i < |OpenGaps(c)| && IsBackfilled(OpenGaps(c), i) ==> GetsThrough(c.before.pools, c.trials(i))
  }

  /** `run_recover`. `budget` is the number of awaits that complete before an error or a kill
      ends the run, where the await of a pipeline may end it anywhere inside. */
  method RunRecover(db: Database, chain: Chain, trials: nat -> Trial, budget: nat)
    returns (done: bool, covered: seq<(nat, nat)>, ghost p: Progress)
    requires db.Valid() && forall i :: TrialOk(trials(i))
    modifies db
    ensures db.Valid()
    ensures LoopInv(Case(old(db.State()), chain, trials), p, db.State(), covered)
    ensures done ==> p.processed == |OpenOf(old(db.gaps))| && !p.marked
    ensures done ==>
              forall i :: 0 <= i < |old(db.gaps)| && old(db.gaps)[i].status == Open ==> db.gaps[i].status == Closed
    ensures done && Smooth(Case(old(db.State()), chain, trials)) ==>
              forall g :: g in OpenOf(old(db.gaps)) ==> RangeMatches(db.events, chain, g.start, g.end)
    ensures Smooth(Case(old(db.State()), chain, trials)) ==>
              StoredAround(OpenOf(old(db.gaps)), p.processed, db.events, chain)
    ensures budget > 3 * |OpenOf(old(db.gaps))| && AllGetThrough(Case(old(db.State()), chain, trials)) ==> done
    ensures budget >= 2 && OpenOf(old(db.gaps)) != [] && !PoolsParse(old(db.pools)) ==>
              !done && p.processed == 0 && p.marked && db.events == old(db.events)
  {
    hide LoopInv, CoveredBy, CrashShape, IdsIncrease, StoreInv, Smooth, OpenOf, RangeMatches, ChainOk, TrialOk;
    hide PoolsParse, AllGetThrough, StoredAround;
    ghost var c := Case(db.State(), chain, trials);
    GapIds(db.State());
    StartLoop(c);
    var processed := 0;
    done, covered, p := false, [], START;
    var writer: WriterTask? := null;
    var left: nat := budget;
    OverlapStored(c, p, db.State(), covered);
    if left == 0 { return; }
    left := left - 1;
    var gaps := db.OpenGaps();

    while processed < |gaps|
      invariant db.Valid() && gaps == OpenGaps(c) && processed == p.processed <= |gaps|
      invariant LoopInv(c, p, db.State(), covered) && !p.marked
      invariant Carries(db, writer, c, p) && Untouched(db, writer, c)
      invariant budget > 3 * |gaps| && AllGetThrough(c) ==> left >= 3 * (|gaps| - processed)
      invariant processed > 0 ==> PoolsParse(c.before.pools)
      invariant processed == 0 ==> covered == [] && left == budget - 1
    {
      ThisOneGetsThrough(c, p, db.State(), covered);
      var alive;
      alive, writer, left, covered, p :=
        RecoverGap(db, writer, gaps[processed], chain, trials(processed), left, covered, c, p);
      OverlapStored(c, p, db.State(), covered);
      if !alive {
        if !PoolsParse(c.before.pools) && processed == 0 { NothingLandedUnprimed(c, p, db.State(), covered); }
        return;
      }
      processed := processed + 1;
    }
    LoopDone(c, p, db.State(), covered);
    OverlapStored(c, p, db.State(), covered);
    done := true;
  }

  lemma GapIds(t: Tables)
    requires StoreInv(t)
    ensures IdsIncrease(t.gaps)
  {}

  lemma ThisOneGetsThrough(c: Case, p: Progress, tables: Tables, covered: seq<(nat, nat)>)
    requires LoopInv(c, p, tables, covered) && !p.marked && p.processed < |OpenGaps(c)|
    ensures AllGetThrough(c) ==>
              || CoveredBy(Widened(OpenGaps(c)[p.processed]), covered)
              || GetsThrough(c.before.pools, c.trials(p.processed))
    ensures covered == [] ==> !CoveredBy(Widened(OpenGaps(c)[p.processed]), covered)
    ensures p.processed == 0 ==> covered == []
  {
    hide CrashShape, Grown, TripOk, OpenGaps, GetsThrough, Widened, CoveredBy, LandedOnceOf;
    assert covered == RangesOf(OpenGaps(c), Backfilled(OpenGaps(c), p.processed));
    if covered == [] { NothingCovers(Widened(OpenGaps(c)[p.processed])); }
  }

  lemma NothingCovers(range: (nat, nat))
    ensures !CoveredBy(range, [])
  {}

  /** With a pools row that does not parse nothing lands. */
  lemma NothingLandedUnprimed(c: Case, p: Progress, tables: Tables, covered: seq<(nat, nat)>)
    requires LoopInv(c, p, tables, covered) && !PoolsParse(c.before.pools)
    ensures tables.events == c.before.events
  {
    hide CrashShape, OpenGaps, Books, PoolsParse, Backfilled, CoveredBy, LandedOnceOf;
    NothingLanded(p);
    NothingGrown(c.before, tables);
  }

  /** At the end every open gap is closed, and in a smooth run each passes the range check. */
  lemma LoopDone(c: Case, p: Progress, tables: Tables, covered: seq<(nat, nat)>)
    requires LoopInv(c, p, tables, covered) && IdsIncrease(c.before.gaps)
    requires p.processed == |OpenGaps(c)| && !p.marked
    ensures forall i :: 0 <= i < |c.before.gaps| && c.before.gaps[i].status == Open ==>
              i < |tables.gaps| && tables.gaps[i].status == Closed
    ensures Smooth(c) ==> forall g :: g in OpenGaps(c) ==> RangeMatches(tables.events, c.chain, g.start, g.end)
  {
    hide LoopInv, OpenOf, Smooth, RangeMatches, RowShape;
    LoopParts(c, p, tables, covered);
    AllClosed(c.before.gaps, tables.gaps);
    forall g | g in OpenGaps(c) && Smooth(c) ensures RangeMatches(tables.events, c.chain, g.start, g.end) {
      var j :| 0 <= j < |OpenGaps(c)| && OpenGaps(c)[j] == g;
      SmoothGapMatches(c, p, tables, covered, j);
    }
  }
}
