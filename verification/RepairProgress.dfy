/** Repeated repairs: when a truncated run is sure to make progress, and where runs end up. */
module RepairProgress {
  import opened Rows
  import opened Store
  import opened Interpret
  import opened Repair

  function Unrepairable(t: Tables): set<EventKey> {
    Unrepaired(t) - Repairable(t)
  }

  /** Events no run can repair that come no later than every event it could repair. */
  function Blockers(t: Tables): set<EventKey> {
    set k | k in Unrepairable(t) && forall j :: j in Repairable(t) ==> t.events[k].slot <= t.events[j].slot
  }

  /** A run writes nothing exactly when nothing it loaded can be rebuilt. */
  lemma WritesNothing(t: Tables, limit: nat, es: seq<EventRow>)
    requires IsLoad(t, limit, es)
    ensures RepairPairs(es, KnownPools(t.pools)) == [] <==> forall i :: 0 <= i < |es| ==> es[i].key !in Repairable(t)
  {
    var pools := KnownPools(t.pools);
    hide KnownPools, Build;
    forall i | 0 <= i < |es|
      ensures es[i].key in Repairable(t) <==> RepairPair(es[i], pools) != []
      ensures RepairPair(es[i], pools) != [] ==> RepairPair(es[i], pools)[0] in RepairPairs(es, pools)
    {
      assert es[i].key in Unrepaired(t) && t.events[es[i].key] == es[i];
      if RepairPair(es[i], pools) != [] {
        RepairPairsSource(es, pools, RepairPair(es[i], pools)[0]);
      }
    }
    if RepairPairs(es, pools) != [] {
      var p := RepairPairs(es, pools)[0];
      RepairPairsSource(es, pools, p);
      var i :| 0 <= i < |es| && p in RepairPair(es[i], pools);
      assert es[i].key in Repairable(t);
    }
  }

  /** A load with nothing repairable in it is made of blockers and is full. */
  lemma StalledLoad(t: Tables, limit: nat, es: seq<EventRow>)
    requires IsLoad(t, limit, es) && KeysMatch(t.events) && Repairable(t) != {}
    requires forall i :: 0 <= i < |es| ==> es[i].key !in Repairable(t)
    ensures limit <= |Blockers(t)|
  {
    var r :| r in Repairable(t);
    NotLoaded(t, limit, es, r);
    forall i | 0 <= i < |es| ensures es[i].key in Blockers(t) {
      var k := es[i].key;
      assert k in Unrepaired(t) && t.events[k] == es[i];
      forall j | j in Repairable(t) ensures t.events[k].slot <= t.events[j].slot {
        NotLoaded(t, limit, es, j);
      }
    }
    DistinctKeys(es, Blockers(t));
  }

  lemma NotLoaded(t: Tables, limit: nat, es: seq<EventRow>, r: EventKey)
    requires IsLoad(t, limit, es) && KeysMatch(t.events) && r in Repairable(t)
    requires forall i :: 0 <= i < |es| ==> es[i].key !in Repairable(t)
    ensures r in Unrepaired(t) && t.events[r] !in es && |es| == limit
  {}

  /** The `n` lowest events among `keys`, in slot order. */
  lemma LowestOf(events: Events, keys: set<EventKey>, n: nat) returns (es: seq<EventRow>)
    requires KeysMatch(events) && (forall k :: k in keys ==> k in events) && n <= |keys|
    ensures |es| == n
    ensures forall i :: 0 <= i < n ==> es[i].key in keys && events[es[i].key] == es[i]
    ensures forall i, j :: 0 <= i < j < n ==> es[i].key != es[j].key && es[i].slot <= es[j].slot
    ensures forall k, i :: k in keys && events[k] !in es && 0 <= i < n ==> es[i].slot <= events[k].slot
    decreases n
  {
    if n == 0 {
      es := [];
    } else {
      var low := LowestSlot(events, keys);
      var rest := LowestOf(events, keys - {low}, n - 1);
      es := [events[low]] + rest;
      assert events[low].key == low;
      forall k, i | k in keys && events[k] !in es && 0 <= i < n ensures es[i].slot <= events[k].slot {
        assert k != low by { assert es[0] == events[low]; }
        assert events[k] !in rest by { assert forall j :: 0 <= j < |rest| ==> rest[j] == es[j + 1]; }
      }
    }
  }

  lemma BlockedLoad(t: Tables, limit: nat) returns (es: seq<EventRow>)
    requires KeysMatch(t.events) && Repairable(t) != {} && limit <= |Blockers(t)|
    ensures IsLoad(t, limit, es) && forall i :: 0 <= i < |es| ==> es[i].key !in Repairable(t)
  {
    es := LowestOf(t.events, Blockers(t), limit);
    forall k, i | k in Unrepaired(t) && t.events[k] !in es && 0 <= i < |es| ensures es[i].slot <= t.events[k].slot {
      assert es[i].key in Blockers(t);
      if k !in Blockers(t) && k !in Repairable(t) {
        var j :| j in Repairable(t) && t.events[k].slot > t.events[j].slot;
      }
    }
  }

  /** While something can be repaired, every run is sure to write a trade exactly when the
      limit exceeds the number of blockers; otherwise a run may write nothing, forever. */
  lemma ProgressExactly(t: Tables, limit: nat)
    requires KeysMatch(t.events) && Repairable(t) != {}
    ensures (forall es :: IsLoad(t, limit, es) ==> RepairPairs(es, KnownPools(t.pools)) != [])
            <==> |Blockers(t)| < limit
  {
    forall es | IsLoad(t, limit, es)
      ensures RepairPairs(es, KnownPools(t.pools)) == [] ==> limit <= |Blockers(t)|
    {
      WritesNothing(t, limit, es);
      if RepairPairs(es, KnownPools(t.pools)) == [] { StalledLoad(t, limit, es); }
    }
    if limit <= |Blockers(t)| {
      var es := BlockedLoad(t, limit);
      WritesNothing(t, limit, es);
    }
  }

  lemma SubsetSize<T>(a: set<T>, b: set<T>)
    requires a <= b
    ensures |a| <= |b|
    ensures a != b ==> |a| < |b|
  {
    assert b == a + (b - a);
    assert a != b ==> b - a != {};
  }

  /** One run, whatever it loaded. */
  predicate IsRepair(t: Tables, t': Tables, limit: nat, es: seq<EventRow>) {
    IsLoad(t, limit, es) && t' == t.(trades := Insert(t.trades, RepairPairs(es, KnownPools(t.pools))))
  }

  /** A run takes what it wrote off the list, changes nothing else, and leaves the full repair
      of the table what it was. */
  lemma RepairShrinks(t: Tables, t': Tables, limit: nat, es: seq<EventRow>)
    requires KeysMatch(t.events) && IsRepair(t, t', limit, es)
    ensures Repairable(t') <= Repairable(t) && Unrepairable(t') == Unrepairable(t)
    ensures RepairPairs(es, KnownPools(t.pools)) != [] ==> |Repairable(t')| < |Repairable(t)|
    ensures RepairedTrades(t') == RepairedTrades(t)
  {
    hide KnownPools, Build, Insert, IsLoad, RepairPairs;
    WritesNothing(t, limit, es);
    forall k ensures k in t'.trades <==> k in t.trades || (k in Repairable(t) && t.events[k] in es) {
      RepairAt(t, t', limit, es, k);
    }
    forall k ensures Lookup(RepairedTrades(t'), k) == Lookup(RepairedTrades(t), k) {
      RepairAt(t, t', limit, es, k);
    }
    MapsEqual(RepairedTrades(t'), RepairedTrades(t));
    if RepairPairs(es, KnownPools(t.pools)) != [] {
      var i :| 0 <= i < |es| && es[i].key in Repairable(t);
      LoadedAt(t, limit, es, i);
      assert es[i].key !in Repairable(t');
    }
    SubsetSize(Repairable(t'), Repairable(t));
  }

  lemma LoadedAt(t: Tables, limit: nat, es: seq<EventRow>, i: nat)
    requires IsLoad(t, limit, es) && i < |es|
    ensures es[i].key in t.events && t.events[es[i].key] == es[i]
  {}

  /** A run under one key. */
  lemma RepairAt(t: Tables, t': Tables, limit: nat, es: seq<EventRow>, k: EventKey)
    requires KeysMatch(t.events) && IsRepair(t, t', limit, es)
    ensures k in t'.trades <==> k in t.trades || (k in Repairable(t) && t.events[k] in es)
    ensures Lookup(RepairedTrades(t'), k) == Lookup(RepairedTrades(t), k)
  {
    hide KnownPools, Build, Insert, IsLoad, RepairPairs;
    RepairLookup(t, limit, es, k);
    assert Lookup(t'.trades, k) == Lookup(Insert(t.trades, RepairPairs(es, KnownPools(t.pools))), k);
  }

  /** Runs one after the other. */
  predicate Repairs(ts: seq<Tables>, loads: seq<seq<EventRow>>, limit: nat) {
    |ts| == |loads| + 1 && forall i :: 0 <= i < |loads| ==> IsRepair(ts[i], ts[i + 1], limit, loads[i])
  }

  /** With fewer unrepairable events than the limit, as many runs as there are repairable
      events reach the full repair, and from then on a run writes nothing. */
  lemma {:induction false} RepairsReachFixpoint(ts: seq<Tables>, loads: seq<seq<EventRow>>, limit: nat)
    requires Repairs(ts, loads, limit) && KeysMatch(ts[0].events)
    requires |Unrepairable(ts[0])| < limit && |Repairable(ts[0])| <= |loads|
    ensures var t := ts[|loads|];
            && Repairable(t) == {} && t.trades == RepairedTrades(ts[0])
            && forall es :: IsLoad(t, limit, es) ==> RepairPairs(es, KnownPools(t.pools)) == []
    decreases |loads|
  {
    var t := ts[0];
    if loads == [] {
      FullyRepaired(t);
      forall es | IsLoad(t, limit, es) ensures RepairPairs(es, KnownPools(t.pools)) == [] {
        WritesNothing(t, limit, es);
      }
    } else {
      var t', es := ts[1], loads[0];
      assert IsRepair(ts[0], ts[0 + 1], limit, loads[0]);
      RepairShrinks(t, t', limit, es);
      if Repairable(t) != {} {
        SubsetSize(Blockers(t), Unrepairable(t));
        ProgressExactly(t, limit);
      }
      assert Repairs(ts[1..], loads[1..], limit) by {
        forall i | 0 <= i < |loads[1..]| ensures IsRepair(ts[1..][i], ts[1..][i + 1], limit, loads[1..][i]) {
          assert IsRepair(ts[i + 1], ts[i + 1 + 1], limit, loads[i + 1]);
        }
      }
      RepairsReachFixpoint(ts[1..], loads[1..], limit);
    }
  }

  lemma FullyRepaired(t: Tables)
    requires Repairable(t) == {}
    ensures t.trades == RepairedTrades(t)
  {
    forall k | k in RepairedTrades(t) ensures k in t.trades {
      assert k !in Repairable(t);
    }
  }
}
