/** Live ingestion as the program runs it: the processors, and the lookup worker between them,
    over a stream of updates. */
module Live {
  import opened Rows
  import opened Interpret
  import opened ColdWarm
  import opened PumpSwap
  import ColdLives

  /** One thing that happens: an update reaches its processor, the worker takes a request, or the
      node answers it, with what the chain says or not at all. */
  datatype Step = See(u: Update, waited: nat, saveOk: bool) | Take | Answer(answers: bool, saveOk: bool)

  /** A pool is created with the mints it has on the chain. */
  predicate FromChain(step: Step, chain: Cache) {
    step.See? && step.u.instruction.CreatePool? ==>
      step.u.instruction.pool in chain && Pools.Mints(step.u.instruction.info, chain[step.u.instruction.pool])
  }

  /** What the worker makes of an account: the mints, never the decimals. */
  function Fetched(chain: Cache, pool: Pubkey, answers: bool): Option<PoolInfo> {
    if answers && pool in chain then Some(PoolInfo(chain[pool].baseMint, chain[pool].quoteMint, None, None)) else None
  }

  /** The events the updates decode to, without those of failed transactions. */
  function Seen(step: Step): seq<Sighting> {
    if step.See? && !step.u.failed && step.u.instruction.Event? then
      [Sighting(step.u.key, step.u.slot, step.u.blockTime, step.u.instruction.event)]
    else []
  }

  function Stream(steps: seq<Step>): seq<Sighting> {
    if steps == [] then [] else Stream(steps[..|steps| - 1]) + Seen(steps[|steps| - 1])
  }

  lemma StreamNext(steps: seq<Step>, i: nat)
    requires i < |steps|
    ensures Stream(steps[..i + 1]) == Stream(steps[..i]) + Seen(steps[i])
  {
    assert steps[..i + 1][..i] == steps[..i];
  }

  /** The row of one more event, made with the cache of its moment. */
  lemma RowNext(stream: seq<Sighting>, caches: seq<Cache>, x: Sighting, cache: Cache, chain: Cache)
    requires |stream| == |caches| && Discovered(caches, chain) && ColdLives.Consistent(cache, chain)
    ensures LiveRows(stream + [x], caches + [cache])
            == LiveRows(stream, caches) + [PendingWrite(ColdWarm.Event(x), LiveTrade(x.event, cache))]
    ensures Discovered(caches + [cache], chain)
  {
    hide LiveTrade, EventOf;
  }

  lemma Learned(cache: Cache, chain: Cache, pool: Pubkey, info: PoolInfo)
    requires ColdLives.Consistent(cache, chain) && pool in chain && Pools.Mints(info, chain[pool])
    ensures ColdLives.Consistent(cache[pool := info], chain)
  {}

  lemma SameThrottle(s: Pools.State, t: Pools.State)
    requires Pools.Throttled(s) && t.log == s.log && t.requested == s.requested && t.clock == s.clock
    ensures Pools.Throttled(t)
  {}

  /** One update through its processor. */
  method Handle(p: Processors, step: Step, chain: Cache)
    requires p.Valid() && step.See? && FromChain(step, chain) && ColdLives.Consistent(p.resolver.cache, chain)
    modifies p, p.resolver`queue, p.resolver`cache, p.resolver.db`pools, p.watermark
    ensures p.Valid() && ColdLives.Consistent(p.resolver.cache, chain)
    ensures Seen(step) == [] ==> p.sent == old(p.sent)
    ensures Seen(step) != [] ==>
              var x := Seen(step)[0];
              p.sent == old(p.sent) + [PendingWrite(ColdWarm.Event(x), LiveTrade(x.event, old(p.resolver.cache)))]
  {
    hide Pools.Throttled, LiveTrade, EventOf, ColdLives.Consistent;
    ghost var s := p.View();
    var u := step.u;
    p.Process(u, step.waited, step.saveOk);
    if !u.failed {
      match u.instruction
      case Event(e) => if !e.PumpfunTrade? { SwapStep(s, e.pool, step.waited); }
      case CreatePool(pool, info) =>
        CreateRun(s, pool, info, step.saveOk);
        Learned(s.cache, chain, pool, info);
      case Ignored =>
    }
    assert p.View().cache == p.resolver.cache;
  }

  /** One move of the lookup worker, if it has one. */
  method Work(p: Processors, step: Step, chain: Cache)
    requires p.Valid() && !step.See? && ColdLives.Consistent(p.resolver.cache, chain)
    modifies p.resolver, p.resolver.db`pools
    ensures p.Valid() && ColdLives.Consistent(p.resolver.cache, chain) && p.sent == old(p.sent)
  {
    hide Pools.Throttled, ColdLives.Consistent;
    var resolver := p.resolver;
    ghost var s := p.View();
    if step.Take? {
      if resolver.worker.Idle? && resolver.queue != [] {
        resolver.WorkerTake();
      }
    } else if resolver.worker.Fetching? {
      var info := Fetched(chain, resolver.worker.pool, step.answers);
      if info.Some? { Learned(s.cache, chain, resolver.worker.pool, info.value); }
      resolver.WorkerAnswer(info, step.saveOk);
    }
    SameThrottle(s, p.View());
  }

  /** Whatever the interleaving of trading, pool creation and lookups, the rows that were sent are
      the live rows of the stream, each made with the cache of its moment, and every cache knows
      of a pool what the chain says or nothing. */
  method Ingest(p: Processors, steps: seq<Step>, chain: Cache) returns (ghost caches: seq<Cache>)
    requires p.Valid() && ColdLives.Consistent(p.resolver.cache, chain)
    requires forall i :: 0 <= i < |steps| ==> FromChain(steps[i], chain)
    modifies p, p.resolver, p.resolver.db`pools, p.watermark
    ensures p.Valid() && ColdLives.Consistent(p.resolver.cache, chain)
    ensures |caches| == |Stream(steps)| && Discovered(caches, chain)
    ensures p.sent == old(p.sent) + LiveRows(Stream(steps), caches)
  {
    hide Pools.Throttled, LiveTrade, EventOf, ColdLives.Consistent, Seen, Discovered, LiveRows, Stream;
    caches := [];
    NoRows(chain);
    assert p.sent == p.sent + [];
    for i := 0 to |steps|
      invariant p.Valid() && ColdLives.Consistent(p.resolver.cache, chain)
      invariant |caches| == |Stream(steps[..i])| && Discovered(caches, chain)
      invariant p.sent == old(p.sent) + LiveRows(Stream(steps[..i]), caches)
    {
      StreamNext(steps, i);
      if steps[i].See? {
        ghost var cache := p.resolver.cache;
        Handle(p, steps[i], chain);
        if Seen(steps[i]) != [] {
          OneSeen(steps[i]);
          RowNext(Stream(steps[..i]), caches, Seen(steps[i])[0], cache, chain);
          caches := caches + [cache];
        } else {
          assert Stream(steps[..i]) + [] == Stream(steps[..i]);
        }
      } else {
        WorkSeesNothing(steps[i]);
        Work(p, steps[i], chain);
        assert Stream(steps[..i]) + [] == Stream(steps[..i]);
      }
    }
    assert steps[..|steps|] == steps;
  }

  lemma NoRows(chain: Cache)
    ensures Stream([]) == [] && LiveRows([], []) == [] && Discovered([], chain)
  {}

  lemma OneSeen(step: Step)
    requires Seen(step) != []
    ensures Seen(step) == [Seen(step)[0]]
  {}

  lemma WorkSeesNothing(step: Step)
    requires !step.See?
    ensures Seen(step) == []
  {}
}
