/** The pool cache, the pools table and the lookup worker as a transition system: the
    processor inserts and resolves, the worker checks, asks the RPC node, caches and saves. */
module Pools {
  import opened Rows
  import opened Store
  import opened Interpret

  const RETRY_AFTER := 60
  const LOOKUP_QUEUE_SIZE := 1000

  datatype Worker = Idle | Fetching(pool: Pubkey) | Saving(pool: Pubkey, info: PoolInfo)

  datatype Lookup = Lookup(pool: Pubkey, at: nat)

  datatype State = State(
    cache: Cache,
    table: Store.Pools,
    creating: Option<(Pubkey, PoolInfo)>,   // cached by a CreatePoolEvent, not saved yet
    queue: seq<Pubkey>,
    worker: Worker,
    requested: map<Pubkey, nat>,
    clock: nat,
    hits: nat,
    misses: nat,
    log: seq<Lookup>)                       // history: every `request` call

  datatype Action =
    | Create(pool: Pubkey, info: PoolInfo)
    | SaveCreated(ok: bool)
    | Resolve(pool: Pubkey, waited: nat)
    | Take
    | Answer(found: Option<PoolInfo>)       // RPC answer; None when it fails or does not decode
    | SaveFetched(ok: bool)

  function RowOf(info: PoolInfo): PoolRow {
    PoolRow(Base58(info.baseMint), Base58(info.quoteMint), ToInt(info.baseDecimals), ToInt(info.quoteDecimals))
  }

  function ToInt(d: Option<U8>): Option<int> {
    if d.Some? then Some(d.value) else None
  }

  predicate Enabled(s: State, a: Action) {
    match a
    case Create(_, _) => s.creating.None?
    case SaveCreated(_) => s.creating.Some?
    case Resolve(_, _) => s.creating.None?
    case Take => s.worker.Idle? && s.queue != []
    case Answer(_) => s.worker.Fetching?
    case SaveFetched(_) => s.worker.Saving?
  }

  /** `resolve`: a hit, or a miss that asks for the pool unless it was asked for lately. */
  function ResolveStep(s: State, pool: Pubkey): State {
    if pool in s.cache then s.(hits := s.hits + 1)
    else
      var s' := s.(misses := s.misses + 1);
      if pool in s.requested && s.clock - s.requested[pool] < RETRY_AFTER then s'
      else
        s'.(requested := s.requested[pool := s.clock],
            queue := if |s.queue| < LOOKUP_QUEUE_SIZE then s.queue + [pool] else s.queue,
            log := s.log + [Lookup(pool, s.clock)])
  }

  function Next(s: State, a: Action): State
    requires Enabled(s, a)
  {
    match a
    case Create(pool, info) => s.(cache := s.cache[pool := info], creating := Some((pool, info)))
    case SaveCreated(ok) =>
      var (pool, info) := s.creating.value;
      s.(creating := None, table := if ok then UpsertPool(s.table, Base58(pool), RowOf(info)) else s.table)
    case Resolve(pool, waited) => ResolveStep(s.(clock := s.clock + waited), pool)
    case Take =>
      if s.queue[0] in s.cache then s.(queue := s.queue[1..])
      else s.(queue := s.queue[1..], worker := Fetching(s.queue[0]))
    case Answer(None) => s.(worker := Idle)
    case Answer(Some(info)) =>
      s.(cache := s.cache[s.worker.pool := info], worker := Saving(s.worker.pool, info))
    case SaveFetched(ok) =>
      s.(worker := Idle,
         table := if ok then UpsertPool(s.table, Base58(s.worker.pool), RowOf(s.worker.info)) else s.table)
  }

  /** A hit or a miss, never both. A miss asks for the pool, if it was not asked for in the last
      60 seconds and the queue has room; a hit asks for nothing. */
  lemma ResolveMeaning(s: State, pool: Pubkey, waited: nat)
    requires Enabled(s, Resolve(pool, waited))
    ensures var t := Next(s, Resolve(pool, waited));
            var due := pool !in s.cache && (pool !in s.requested || s.requested[pool] + 60 <= s.clock + waited);
            && t.clock == s.clock + waited && t.cache == s.cache && t.table == s.table && t.worker == s.worker
            && t.hits == s.hits + (if pool in s.cache then 1 else 0)
            && t.misses == s.misses + (if pool in s.cache then 0 else 1)
            && t.queue == (if due && |s.queue| < 1000 then s.queue + [pool] else s.queue)
            && t.log == (if due then s.log + [Lookup(pool, t.clock)] else s.log)
            && t.requested == (if due then s.requested[pool := t.clock] else s.requested)
  {}

  /** The row that is saved: texts of the mints, each column from its own side. */
  lemma RowOfMeaning(info: PoolInfo)
    ensures var row := RowOf(info);
            && RowMints(row, info)
            && SmallDecimals(row.baseDecimals) == info.baseDecimals
            && SmallDecimals(row.quoteDecimals) == info.quoteDecimals
            && (row.baseDecimals.Some? <==> info.baseDecimals.Some?)
            && (row.quoteDecimals.Some? <==> info.quoteDecimals.Some?)
  {}

  /** Saving a pool fills the decimals the table lacks and keeps those it has. */
  lemma SavedDecimals(s: State, ok: bool)
    requires Enabled(s, SaveCreated(ok)) && ok
    ensures var key, info := Base58(s.creating.value.0), s.creating.value.1;
            var t := Next(s, SaveCreated(ok)).table;
            && key in t
            && (key !in s.table ==> RowMints(t[key], info))
            && SmallDecimals(t[key].baseDecimals)
               == (if key in s.table && s.table[key].baseDecimals.Some? then SmallDecimals(s.table[key].baseDecimals)
                   else info.baseDecimals)
            && SmallDecimals(t[key].quoteDecimals)
               == (if key in s.table && s.table[key].quoteDecimals.Some? then SmallDecimals(s.table[key].quoteDecimals)
                   else info.quoteDecimals)
  {}

  // ----- What no interleaving breaks -----

  predicate Settled(old': Option<int>, new': Option<int>) {
    old'.Some? ==> new' == old'
  }

  /** Rows of the table keep their mints, and a decimals column once set keeps its value. */
  predicate TableGrows(a: Store.Pools, b: Store.Pools) {
    forall p :: p in a ==>
      p in b && b[p].baseMint == a[p].baseMint && b[p].quoteMint == a[p].quoteMint
      && Settled(a[p].baseDecimals, b[p].baseDecimals) && Settled(a[p].quoteDecimals, b[p].quoteDecimals)
  }

  lemma UpsertGrows(table: Store.Pools, pool: Text, row: PoolRow)
    ensures TableGrows(table, UpsertPool(table, pool, row))
    ensures pool in UpsertPool(table, pool, row)
  {}

  /** Lookups of one pool are at least RETRY_AFTER apart, and `requested` is the last of them. */
  predicate Throttled(s: State) {
    && (forall i :: 0 <= i < |s.log| ==>
          s.log[i].pool in s.requested && s.log[i].at <= s.requested[s.log[i].pool] <= s.clock)
    && (forall i, j :: 0 <= i < j < |s.log| && s.log[i].pool == s.log[j].pool ==>
          s.log[i].at + RETRY_AFTER <= s.log[j].at)
  }

  /** In the log, lookups of one pool are a minute apart. */
  predicate LookupsApart(log: seq<Lookup>) {
    forall i, j :: 0 <= i < j < |log| && log[i].pool == log[j].pool ==> log[i].at + 60 <= log[j].at
  }

  lemma ThrottledStep(s: State, a: Action)
    requires Throttled(s) && Enabled(s, a)
    ensures Throttled(Next(s, a))
  {
    hide UpsertPool;
    if a.Resolve? && |Next(s, a).log| != |s.log| {
      var s', n := Next(s, a), |s.log|;
      forall i | 0 <= i < n && s'.log[i].pool == s'.log[n].pool ensures s'.log[i].at + RETRY_AFTER <= s'.log[n].at {
        assert s.log[i] == s'.log[i];
      }
    }
  }

  /** A step never drops a pool from the cache, never changes a stored mint or a stored
      decimals value, and asks for no pool that is cached. */
  lemma StepGrows(s: State, a: Action)
    requires Enabled(s, a)
    ensures s.cache.Keys <= Next(s, a).cache.Keys
    ensures TableGrows(s.table, Next(s, a).table)
    ensures s.log <= Next(s, a).log
    ensures forall i :: |s.log| <= i < |Next(s, a).log| ==> Next(s, a).log[i].pool !in s.cache
    ensures Next(s, a).hits + Next(s, a).misses == s.hits + s.misses + if a.Resolve? then 1 else 0
  {
    hide UpsertPool;
    match a
    case SaveCreated(ok) => UpsertGrows(s.table, Base58(s.creating.value.0), RowOf(s.creating.value.1));
    case SaveFetched(ok) => UpsertGrows(s.table, Base58(s.worker.pool), RowOf(s.worker.info));
    case _ =>
  }

  function Exec(s: State, run: seq<Action>): Option<State>
    decreases |run|
  {
    if run == [] then Some(s)
    else if Enabled(s, run[0]) then Exec(Next(s, run[0]), run[1..])
    else None
  }

  function Resolves(run: seq<Action>): nat {
    if run == [] then 0 else (if run[0].Resolve? then 1 else 0) + Resolves(run[1..])
  }

  lemma TableGrowsTransitive(a: Store.Pools, b: Store.Pools, c: Store.Pools)
    requires TableGrows(a, b) && TableGrows(b, c)
    ensures TableGrows(a, c)
  {}

  /** Over any run: stored mints and decimals stay, the cache never forgets, lookups of one
      pool stay RETRY_AFTER apart, none is made for a pool that was cached before, and every
      resolve is counted as a hit or a miss. */
  lemma {:induction false} RunGrows(s: State, run: seq<Action>)
    requires Exec(s, run).Some?
    ensures var e := Exec(s, run).value;
            && s.cache.Keys <= e.cache.Keys
            && TableGrows(s.table, e.table)
            && s.log <= e.log
            && (forall i :: |s.log| <= i < |e.log| ==> e.log[i].pool !in s.cache)
            && (Throttled(s) ==> Throttled(e) && LookupsApart(e.log))
            && e.hits + e.misses == s.hits + s.misses + Resolves(run)
    decreases |run|
  {
    if run != [] {
      var s' := Next(s, run[0]);
      hide Next, Throttled;
      StepGrows(s, run[0]);
      RunGrows(s', run[1..]);
      var e := Exec(s', run[1..]).value;
      TableGrowsTransitive(s.table, s'.table, e.table);
      if Throttled(s) { ThrottledStep(s, run[0]); }
      forall i | |s.log| <= i < |e.log| ensures e.log[i].pool !in s.cache {
        if i < |s'.log| { assert e.log[i] == s'.log[i]; }
      }
    }
  }

  // ----- Agreement of cache and table -----

  predicate Mints(info: PoolInfo, of: PoolInfo) {
    info.baseMint == of.baseMint && info.quoteMint == of.quoteMint
  }

  /** Everything the sources report carries the chain's mints. */
  predicate Honest(a: Action, fetching: Worker, chain: Cache) {
    match a
    case Create(pool, info) => pool in chain && Mints(info, chain[pool])
    case Answer(Some(info)) => fetching.Fetching? ==> fetching.pool in chain && Mints(info, chain[fetching.pool])
    case _ => true
  }

  predicate RowMints(row: PoolRow, of: PoolInfo) {
    row.baseMint == Base58(of.baseMint) && row.quoteMint == Base58(of.quoteMint)
  }

  /** Cache, table and everything on its way to the table carry the chain's mints. */
  predicate Agreement(s: State, chain: Cache) {
    && (forall p :: p in s.cache ==> p in chain && Mints(s.cache[p], chain[p]))
    && (forall p :: p in chain && Base58(p) in s.table ==> RowMints(s.table[Base58(p)], chain[p]))
    && (s.creating.Some? ==> s.creating.value.0 in chain && Mints(s.creating.value.1, chain[s.creating.value.0]))
    && (s.worker.Saving? ==> s.worker.pool in chain && Mints(s.worker.info, chain[s.worker.pool]))
  }

  lemma AgreementStep(s: State, a: Action, chain: Cache)
    requires Agreement(s, chain) && Enabled(s, a) && Honest(a, s.worker, chain)
    ensures Agreement(Next(s, a), chain)
  {}

  /** A run whose every answer is honest. */
  predicate HonestRun(s: State, run: seq<Action>, chain: Cache)
    decreases |run|
  {
    run == [] || (Enabled(s, run[0]) && Honest(run[0], s.worker, chain) && HonestRun(Next(s, run[0]), run[1..], chain))
  }

  lemma {:induction false} RunAgrees(s: State, run: seq<Action>, chain: Cache)
    requires Agreement(s, chain) && HonestRun(s, run, chain)
    ensures Exec(s, run).Some? && Agreement(Exec(s, run).value, chain)
    ensures forall p :: p in Exec(s, run).value.cache && Base58(p) in Exec(s, run).value.table ==>
              RowMints(Exec(s, run).value.table[Base58(p)], Exec(s, run).value.cache[p])
    decreases |run|
  {
    if run != [] {
      AgreementStep(s, run[0], chain);
      RunAgrees(Next(s, run[0]), run[1..], chain);
    }
  }

  /** Cached pools are stored or about to be, as long as no save fails. */
  predicate Covered(s: State) {
    forall p :: p in s.cache ==>
      Base58(p) in s.table || (s.creating.Some? && s.creating.value.0 == p) || (s.worker.Saving? && s.worker.pool == p)
  }

  predicate SavesOk(run: seq<Action>) {
    forall i :: 0 <= i < |run| ==> run[i] != SaveCreated(false) && run[i] != SaveFetched(false)
  }

  lemma {:induction false} RunCovers(s: State, run: seq<Action>)
    requires Covered(s) && SavesOk(run) && Exec(s, run).Some?
    ensures Covered(Exec(s, run).value)
    decreases |run|
  {
    if run != [] {
      CoveredStep(s, run[0]);
      assert forall i :: 0 <= i < |run[1..]| ==> run[1..][i] == run[i + 1];
      RunCovers(Next(s, run[0]), run[1..]);
    }
  }

  lemma CoveredStep(s: State, a: Action)
    requires Covered(s) && Enabled(s, a) && a != SaveCreated(false) && a != SaveFetched(false)
    ensures Covered(Next(s, a))
  {}

  // ----- When cached decimals stay -----

  predicate Held(s: State, p: Pubkey) {
    p in s.cache && s.cache[p].baseDecimals.Some? && s.cache[p].quoteDecimals.Some?
  }

  /** A CreatePoolEvent always brings both decimals. */
  predicate CreatesCarryDecimals(run: seq<Action>) {
    forall i :: 0 <= i < |run| && run[i].Create? ==> run[i].info.baseDecimals.Some? && run[i].info.quoteDecimals.Some?
  }

  ghost predicate AlwaysHeld(s: State, p: Pubkey) {
    forall run: seq<Action> :: CreatesCarryDecimals(run) && Exec(s, run).Some? ==> Held(Exec(s, run).value, p)
  }

  lemma {:induction false} HeldThroughRun(s: State, p: Pubkey, run: seq<Action>)
    requires Held(s, p) && s.worker != Fetching(p) && CreatesCarryDecimals(run) && Exec(s, run).Some?
    ensures Held(Exec(s, run).value, p) && Exec(s, run).value.worker != Fetching(p)
    decreases |run|
  {
    if run != [] {
      assert forall i :: 0 <= i < |run[1..]| ==> run[1..][i] == run[i + 1];
      HeldThroughRun(Next(s, run[0]), p, run[1..]);
    }
  }

  /** Decimals that are cached stay cached over every continuation exactly when no lookup of
      that pool is under way: the worker does not look at the cache again before it writes. */
  lemma DecimalsStayExactly(s: State, p: Pubkey)
    requires Held(s, p)
    ensures AlwaysHeld(s, p) <==> s.worker != Fetching(p)
  {
    if s.worker == Fetching(p) {
      var bare := s.cache[p].(baseDecimals := None, quoteDecimals := None);
      var run := [Answer(Some(bare))];
      assert Exec(Next(s, run[0]), []) == Some(Next(s, run[0]));
      assert run[1..] == [];
      assert !Held(Exec(s, run).value, p);
    } else {
      forall run: seq<Action> | CreatesCarryDecimals(run) && Exec(s, run).Some? ensures Held(Exec(s, run).value, p) {
        HeldThroughRun(s, p, run);
      }
    }
  }

  /** So the decimals of a CreatePoolEvent are kept for good exactly when it does not arrive
      while the worker waits for the node's answer on that pool. */
  lemma CreatedDecimalsStayExactly(s: State, pool: Pubkey, info: PoolInfo)
    requires s.creating.None? && info.baseDecimals.Some? && info.quoteDecimals.Some?
    ensures AlwaysHeld(Next(s, Create(pool, info)), pool) <==> s.worker != Fetching(pool)
  {
    DecimalsStayExactly(Next(s, Create(pool, info)), pool);
  }

  /** Cached decimals, unlike mints, can be lost: the worker checks the cache, a
      CreatePoolEvent fills it while the worker waits for the RPC node, and the answer without
      decimals overwrites it. The table keeps them when the event was saved first. */
  lemma CachedDecimalsCanBeLost(s: State, pool: Pubkey, base: Pubkey, quote: Pubkey, baseDecimals: U8,
                                quoteDecimals: U8)
    requires pool !in s.cache && Base58(pool) !in s.table && s.creating.None? && s.worker.Idle? && s.queue == [pool]
    ensures var known := PoolInfo(base, quote, Some(baseDecimals), Some(quoteDecimals));
            var fetched := PoolInfo(base, quote, None, None);
            var r := Exec(s, [Take, Create(pool, known), SaveCreated(true), Answer(Some(fetched)), SaveFetched(true)]);
            && r.Some?
            && pool in r.value.cache && r.value.cache[pool] == fetched
            && Base58(pool) in r.value.table && r.value.table[Base58(pool)] == RowOf(known)
  {
    var known := PoolInfo(base, quote, Some(baseDecimals), Some(quoteDecimals));
    var fetched := PoolInfo(base, quote, None, None);
    var run := [Take, Create(pool, known), SaveCreated(true), Answer(Some(fetched)), SaveFetched(true)];
    var s1 := Next(s, Take);
    var s2 := Next(s1, Create(pool, known));
    var s3 := Next(s2, SaveCreated(true));
    var s4 := Next(s3, Answer(Some(fetched)));
    var s5 := Next(s4, SaveFetched(true));
    assert run[1..] == [Create(pool, known), SaveCreated(true), Answer(Some(fetched)), SaveFetched(true)];
    assert run[1..][1..] == [SaveCreated(true), Answer(Some(fetched)), SaveFetched(true)];
    assert run[1..][1..][1..] == [Answer(Some(fetched)), SaveFetched(true)];
    assert run[1..][1..][1..][1..] == [SaveFetched(true)];
    assert Exec(s5, []) == Some(s5);
    assert Exec(s4, [SaveFetched(true)]) == Some(s5);
    assert Exec(s3, run[1..][1..][1..]) == Some(s5);
    assert Exec(s2, run[1..][1..]) == Some(s5);
    assert Exec(s1, run[1..]) == Some(s5);
  }
}
