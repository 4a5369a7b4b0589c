/** The two interpreters of a decoded event: the live processors, and `repair`'s builders
    that start from the stored JSON. */
module Interpret {
  import opened Rows

  datatype PoolInfo = PoolInfo(baseMint: Pubkey, quoteMint: Pubkey, baseDecimals: Option<U8>, quoteDecimals: Option<U8>)

  /** `u8::try_from` on a decimals column. */
  function SmallDecimals(d: Option<int>): Option<U8> {
    if d.Some? && 0 <= d.value < 0x100 then Some(d.value) else None
  }

  datatype Trade = Trade(solAmount: U64, tokenAmount: U64, tokenMint: Pubkey, isBuy: bool)

  /** Wrapped SOL, So11111111111111111111111111111111111111112: its 32 bytes are these. */
  const WSOL: Pubkey := [
    0x06, 0x9b, 0x88, 0x57, 0xfe, 0xab, 0x81, 0x84, 0xfb, 0x68, 0x7f, 0x63, 0x46, 0x18, 0xc0, 0x35,
    0xda, 0xc4, 0x39, 0xdc, 0x1a, 0xeb, 0x3b, 0x55, 0x98, 0xa0, 0xf0, 0x00, 0x00, 0x00, 0x00, 0x01]

  /** `PoolInfo::orient`. */
  function Orient(info: PoolInfo, base: U64, quote: U64, acquiringBase: bool): Option<Trade> {
    if info.quoteMint == WSOL then Some(Trade(quote, base, info.baseMint, acquiringBase))
    else if info.baseMint == WSOL then Some(Trade(base, quote, info.quoteMint, !acquiringBase))
    else None
  }

  function Signed(gained: bool, n: int): int { if gained then n else -n }

  /** What the trader gains of one mint, as the event reports it. */
  function EventGain(info: PoolInfo, base: U64, quote: U64, acquiringBase: bool, mint: Pubkey): int {
    (if mint == info.baseMint then Signed(acquiringBase, base) else 0)
    + (if mint == info.quoteMint then Signed(!acquiringBase, quote) else 0)
  }

  /** What the trader gains of one mint, as the oriented trade reports it. */
  function TradeGain(t: Trade, mint: Pubkey): int {
    (if mint == t.tokenMint then Signed(t.isBuy, t.tokenAmount) else 0)
    + (if mint == WSOL then Signed(!t.isBuy, t.solAmount) else 0)
  }

  /** Orientation keeps what changed hands: every pool with a SOL side is oriented, and the
      trade moves each mint as the event did, whichever side SOL is on. */
  lemma OrientKeepsFlows(info: PoolInfo, base: U64, quote: U64, acquiringBase: bool, mint: Pubkey)
    ensures var t := Orient(info, base, quote, acquiringBase);
            && (t.Some? <==> info.baseMint == WSOL || info.quoteMint == WSOL)
            && (t.Some? ==> TradeGain(t.value, mint) == EventGain(info, base, quote, acquiringBase, mint))
  {}

  /** Listing the pool the other way round gives the same trade, unless both sides are SOL. */
  lemma OrientIgnoresListing(info: PoolInfo, base: U64, quote: U64, acquiringBase: bool)
    requires info.baseMint != WSOL || info.quoteMint != WSOL
    ensures Orient(info, base, quote, acquiringBase)
            == Orient(PoolInfo(info.quoteMint, info.baseMint, info.quoteDecimals, info.baseDecimals),
                      quote, base, !acquiringBase)
  {}

  // ----- Decoded events and the payload they are stored as -----

  datatype Decoded =
    | PumpfunTrade(mint: Pubkey, user: Pubkey, isBuy: bool, solAmount: U64, tokenAmount: U64, fee: U64,
                   rest: map<string, Json>)
    | Buy(pool: Pubkey, user: Pubkey, baseAmountOut: U64, quoteAmountIn: U64, protocolFee: U64, rest: map<string, Json>)
    | Sell(pool: Pubkey, user: Pubkey, baseAmountIn: U64, quoteAmountOut: U64, protocolFee: U64,
           rest: map<string, Json>)

  function PubkeyJson(k: Pubkey): Json {
    Arr(seq(32, i requires 0 <= i < 32 => Int(k[i])))
  }

  /** The serialised event: the fields the interpreters read, over whatever else it has. */
  function Payload(e: Decoded): Json {
    match e
    case PumpfunTrade(mint, user, isBuy, sol, token, fee, rest) =>
      Obj(rest["mint" := PubkeyJson(mint)]["user" := PubkeyJson(user)]["is_buy" := Bool(isBuy)]
              ["sol_amount" := Int(sol)]["token_amount" := Int(token)]["fee" := Int(fee)])
    case Buy(pool, user, base, quote, fee, rest) =>
      Obj(rest["pool" := PubkeyJson(pool)]["user" := PubkeyJson(user)]
              ["base_amount_out" := Int(base)]["quote_amount_in" := Int(quote)]["protocol_fee" := Int(fee)])
    case Sell(pool, user, base, quote, fee, rest) =>
      Obj(rest["pool" := PubkeyJson(pool)]["user" := PubkeyJson(user)]
              ["base_amount_in" := Int(base)]["quote_amount_out" := Int(quote)]["protocol_fee" := Int(fee)])
  }

  /** Which member of the event stands under which name. */
  lemma PayloadFields(e: Decoded)
    ensures var p := Payload(e);
            && Field(p, "user") == Some(PubkeyJson(e.user))
            && (e.PumpfunTrade? ==>
                  && Field(p, "mint") == Some(PubkeyJson(e.mint)) && Field(p, "is_buy") == Some(Bool(e.isBuy))
                  && Field(p, "sol_amount") == Some(Int(e.solAmount))
                  && Field(p, "token_amount") == Some(Int(e.tokenAmount)) && Field(p, "fee") == Some(Int(e.fee)))
            && (!e.PumpfunTrade? ==>
                  && Field(p, "pool") == Some(PubkeyJson(e.pool))
                  && Field(p, "protocol_fee") == Some(Int(e.protocolFee)))
            && (e.Buy? ==>
                  && Field(p, "base_amount_out") == Some(Int(e.baseAmountOut))
                  && Field(p, "quote_amount_in") == Some(Int(e.quoteAmountIn)))
            && (e.Sell? ==>
                  && Field(p, "base_amount_in") == Some(Int(e.baseAmountIn))
                  && Field(p, "quote_amount_out") == Some(Int(e.quoteAmountOut)))
  {
    match e
    case PumpfunTrade(_, _, _, _, _, _, _) =>
    case Buy(_, _, _, _, _, _) =>
    case Sell(_, _, _, _, _, _) =>
  }

  function Program(e: Decoded): string {
    if e.PumpfunTrade? then "pumpfun" else "pumpswap"
  }

  function EventType(e: Decoded): string {
    match e
    case PumpfunTrade(_, _, _, _, _, _, _) => "TradeEvent"
    case Buy(_, _, _, _, _, _) => "BuyEvent"
    case Sell(_, _, _, _, _, _) => "SellEvent"
  }

  /** The row the live processors put into `events`. */
  function EventOf(key: EventKey, slot: nat, blockTime: Option<int>, e: Decoded): EventRow {
    EventRow(key, slot, blockTime, Program(e), EventType(e), Payload(e))
  }

  // ----- The live interpreter -----

  type Cache = map<Pubkey, PoolInfo>

  function SideText(isBuy: bool): string { if isBuy then "buy" else "sell" }

  /** The oriented trade of a PumpSwap event whose pool is `info`. */
  function OrientEvent(e: Decoded, info: PoolInfo): Option<Trade>
    requires !e.PumpfunTrade?
  {
    match e
    case Buy(_, _, base, quote, _, _) => Orient(info, base, quote, true)
    case Sell(_, _, base, quote, _, _) => Orient(info, base, quote, false)
  }

  /** The trade row the live processors queue next to the event. */
  function LiveTrade(e: Decoded, cache: Cache): Option<TradeRow> {
    match e
    case PumpfunTrade(mint, user, isBuy, sol, token, fee, _) =>
      Some(TradeRow(None, Base58(mint), SideText(isBuy), sol, token, Base58(user), Some(fee)))
    case _ =>
      if e.pool !in cache then None
      else match OrientEvent(e, cache[e.pool])
        case None => None
        case Some(t) =>
          Some(TradeRow(Some(Base58(e.pool)), Base58(t.tokenMint), SideText(t.isBuy), t.solAmount, t.tokenAmount,
                        Base58(e.user), Some(e.protocolFee)))
  }

  lemma LiveSidesOk(e: Decoded, cache: Cache)
    ensures LiveTrade(e, cache).Some? ==> SideOk(LiveTrade(e, cache).value)
  {}

  /** The row of an event as the tables keep it. */
  lemma EventRowMeaning(key: EventKey, slot: nat, blockTime: Option<int>, e: Decoded)
    ensures var row := EventOf(key, slot, blockTime, e);
            && row.key == key && row.slot == slot && row.blockTime == blockTime && row.payload == Payload(e)
            && row.program == (if e.PumpfunTrade? then "pumpfun" else "pumpswap")
            && row.eventType == (if e.PumpfunTrade? then "TradeEvent" else if e.Buy? then "BuyEvent" else "SellEvent")
  {}

  /** A pump.fun trade is stored as it was reported. */
  lemma PumpfunRow(e: Decoded, cache: Cache)
    requires e.PumpfunTrade?
    ensures LiveTrade(e, cache).Some?
    ensures var row := LiveTrade(e, cache).value;
            && (row.side == "buy" <==> e.isBuy) && (row.side == "sell" <==> !e.isBuy)
            && row.solAmount == e.solAmount && row.tokenAmount == e.tokenAmount && row.fee == Some(e.fee)
            && row.tokenMint == Base58(e.mint) && row.trader == Base58(e.user) && row.pool == None
  {}

  /** A swap gets a row exactly when its pool is cached and has a SOL side. With SOL as the quote
      side the row reads like the event: bought base is a buy, the quote is the SOL. With SOL as
      the base side it is turned round: bought SOL is a sell, the quote is the token. */
  lemma SwapRow(e: Decoded, cache: Cache)
    requires !e.PumpfunTrade?
    ensures LiveTrade(e, cache).Some? <==>
              e.pool in cache && (cache[e.pool].baseMint == WSOL || cache[e.pool].quoteMint == WSOL)
    ensures LiveTrade(e, cache).Some? ==>
              var row, info := LiveTrade(e, cache).value, cache[e.pool];
              var base := if e.Buy? then e.baseAmountOut else e.baseAmountIn;
              var quote := if e.Buy? then e.quoteAmountIn else e.quoteAmountOut;
              && row.pool == Some(Base58(e.pool)) && row.trader == Base58(e.user) && row.fee == Some(e.protocolFee)
              && (info.quoteMint == WSOL ==>
                    && (row.side == "buy" <==> e.Buy?) && (row.side == "sell" <==> e.Sell?)
                    && row.solAmount == quote && row.tokenAmount == base && row.tokenMint == Base58(info.baseMint))
              && (info.quoteMint != WSOL ==>
                    && (row.side == "buy" <==> e.Sell?) && (row.side == "sell" <==> e.Buy?)
                    && row.solAmount == base && row.tokenAmount == quote && row.tokenMint == Base58(info.quoteMint))
  {}

  /** What changed hands is what the row says, whichever side SOL is on. */
  lemma SwapRowKeepsFlows(e: Decoded, cache: Cache)
    requires !e.PumpfunTrade? && LiveTrade(e, cache).Some? && cache[e.pool].baseMint != cache[e.pool].quoteMint
    ensures var row, info := LiveTrade(e, cache).value, cache[e.pool];
            var base := if e.Buy? then e.baseAmountOut else e.baseAmountIn;
            var quote := if e.Buy? then e.quoteAmountIn else e.quoteAmountOut;
            && row.tokenMint.Base58?
            && Signed(row.side == "buy", row.tokenAmount) == EventGain(info, base, quote, e.Buy?, row.tokenMint.key)
            && Signed(row.side == "sell", row.solAmount) == EventGain(info, base, quote, e.Buy?, WSOL)
  {
    SwapRow(e, cache);
    hide LiveTrade;
  }

  // ----- repair's interpreter -----

  datatype Skipped = PoolUnknown | NoSolSide | BadPayload

  datatype Built = Ok(row: TradeRow) | Err(why: Skipped)

  function Field(v: Json, name: string): Option<Json> {
    if v.Obj? && name in v.fields then Some(v.fields[name]) else None
  }

  function AsU64(v: Option<Json>): Option<U64> {
    match v
    case Some(Int(n)) => if 0 <= n < 0x1_0000_0000_0000_0000 then Some(n) else None
    case _ => None
  }

  function AsBool(v: Option<Json>): Option<bool> {
    match v
    case Some(Bool(b)) => Some(b)
    case _ => None
  }

  predicate IsByte(v: Json) {
    v.Int? && 0 <= v.n < 0x100
  }

  function PubkeyFrom(v: Option<Json>): Option<Pubkey> {
    if v.Some? && v.value.Arr? && |v.value.items| == 32 && (forall i :: 0 <= i < 32 ==> IsByte(v.value.items[i])) then
      Some(seq(32, i requires 0 <= i < 32 => v.value.items[i].n))
    else None
  }

  /** The byte array round trip, both ways: the reader accepts exactly the arrays the
      serialiser writes, 32 numbers in the order of the bytes, and gives back the key it wrote. */
  lemma PubkeyRoundTrip(v: Json, k: Pubkey)
    ensures PubkeyFrom(Some(v)) == Some(k) <==> v == PubkeyJson(k)
    ensures v == PubkeyJson(k) <==>
              v.Arr? && |v.items| == 32 && forall i :: 0 <= i < 32 ==> v.items[i] == Int(k[i])
  {
    if v.Arr? && |v.items| == 32 && forall i :: 0 <= i < 32 ==> v.items[i] == Int(k[i]) {
      assert v.items == PubkeyJson(k).items;
    }
    if PubkeyFrom(Some(v)) == Some(k) {
      forall i | 0 <= i < 32 ensures v.items[i] == Int(k[i]) {
        assert IsByte(v.items[i]);
        assert PubkeyFrom(Some(v)).value[i] == v.items[i].n;
      }
      assert v.items == PubkeyJson(k).items;
    }
    if v == PubkeyJson(k) {
      assert forall i :: 0 <= i < 32 ==> v.items[i] == Int(k[i]);
      assert forall i :: 0 <= i < 32 ==> IsByte(v.items[i]);
      assert PubkeyFrom(Some(v)).value == k;
    }
  }

  /** `pubkey_from_json`: fill 32 bytes from the array, giving up at the first bad item. */
  method ReadPubkey(v: Option<Json>) returns (r: Option<Pubkey>)
    ensures r == PubkeyFrom(v)
  {
    if v.None? || !v.value.Arr? {
      return None;
    }
    var arr := v.value.items;
    if |arr| != 32 {
      return None;
    }
    var bytes := new U8[32](_ => 0);
    var i := 0;
    while i < |arr|
      invariant 0 <= i <= 32
      invariant forall j :: 0 <= j < i ==> IsByte(arr[j]) && bytes[j] == arr[j].n
    {
      if !(arr[i].Int? && 0 <= arr[i].n < 0x100) {
        assert !IsByte(arr[i]);
        return None;
      }
      bytes[i] := arr[i].n;
      i := i + 1;
    }
    assert forall j :: 0 <= j < 32 ==> IsByte(v.value.items[j]);
    assert bytes[..] == seq(32, j requires 0 <= j < 32 => v.value.items[j].n);
    r := Some(bytes[..]);
  }

  function BuildPumpfun(p: Json): Built {
    var mint, user := PubkeyFrom(Field(p, "mint")), PubkeyFrom(Field(p, "user"));
    var isBuy := AsBool(Field(p, "is_buy"));
    var sol, token := AsU64(Field(p, "sol_amount")), AsU64(Field(p, "token_amount"));
    if mint.None? || user.None? || isBuy.None? || sol.None? || token.None? then Err(BadPayload)
    else Ok(TradeRow(None, Base58(mint.value), SideText(isBuy.value), sol.value, token.value, Base58(user.value),
                     AsU64(Field(p, "fee"))))
  }

  function BuildPumpswap(eventType: string, p: Json, pools: map<Text, PoolInfo>): Built {
    var pool, user := PubkeyFrom(Field(p, "pool")), PubkeyFrom(Field(p, "user"));
    if pool.None? || user.None? then Err(BadPayload)
    else if eventType != "BuyEvent" && eventType != "SellEvent" then Err(BadPayload)
    else
      var buy := eventType == "BuyEvent";
      var base := AsU64(Field(p, if buy then "base_amount_out" else "base_amount_in"));
      var quote := AsU64(Field(p, if buy then "quote_amount_in" else "quote_amount_out"));
      if base.None? || quote.None? then Err(BadPayload)
      else if Base58(pool.value) !in pools then Err(PoolUnknown)
      else match Orient(pools[Base58(pool.value)], base.value, quote.value, buy)
        case None => Err(NoSolSide)
        case Some(t) =>
          Ok(TradeRow(Some(Base58(pool.value)), Base58(t.tokenMint), SideText(t.isBuy), t.solAmount, t.tokenAmount,
                      Base58(user.value), AsU64(Field(p, "protocol_fee"))))
  }

  function Build(e: EventRow, pools: map<Text, PoolInfo>): Built {
    if e.program == "pumpfun" then BuildPumpfun(e.payload)
    else if e.program == "pumpswap" then BuildPumpswap(e.eventType, e.payload, pools)
    else Err(BadPayload)
  }

  /** What `repair` makes of any stored payload, field by field: which fields it cannot do
      without, that a fee it cannot read is left out, and that a bad payload is told from an
      unknown pool and that from a pool without a SOL side, in this order. */
  lemma BuildMeaning(e: EventRow, pools: map<Text, PoolInfo>)
    ensures e.program != "pumpfun" && e.program != "pumpswap" ==> Build(e, pools) == Err(BadPayload)
    ensures e.program == "pumpfun" ==>
              && (Build(e, pools).Ok? <==>
                    && PubkeyFrom(Field(e.payload, "mint")).Some? && PubkeyFrom(Field(e.payload, "user")).Some?
                    && AsBool(Field(e.payload, "is_buy")).Some? && AsU64(Field(e.payload, "sol_amount")).Some?
                    && AsU64(Field(e.payload, "token_amount")).Some?)
              && (Build(e, pools).Ok? || Build(e, pools) == Err(BadPayload))
              && (Build(e, pools).Ok? ==>
                    var p, row := e.payload, Build(e, pools).row;
                    && (row.side == "buy" <==> AsBool(Field(p, "is_buy")) == Some(true))
                    && Some(row.solAmount) == AsU64(Field(p, "sol_amount"))
                    && Some(row.tokenAmount) == AsU64(Field(p, "token_amount"))
                    && PubkeyFrom(Field(p, "mint")).Some? && row.tokenMint == Base58(PubkeyFrom(Field(p, "mint")).value)
                    && PubkeyFrom(Field(p, "user")).Some? && row.trader == Base58(PubkeyFrom(Field(p, "user")).value)
                    && row.pool == None && row.fee == AsU64(Field(p, "fee")))
    ensures e.program == "pumpswap" ==>
              var p, buy := e.payload, e.eventType == "BuyEvent";
              var readable := && PubkeyFrom(Field(p, "pool")).Some? && PubkeyFrom(Field(p, "user")).Some?
                              && (buy || e.eventType == "SellEvent")
                              && AsU64(Field(p, if buy then "base_amount_out" else "base_amount_in")).Some?
                              && AsU64(Field(p, if buy then "quote_amount_in" else "quote_amount_out")).Some?;
              && (Build(e, pools) == Err(BadPayload) <==> !readable)
              && (readable ==>
                    var pool := Base58(PubkeyFrom(Field(p, "pool")).value);
                    && (Build(e, pools) == Err(PoolUnknown) <==> pool !in pools)
                    && (Build(e, pools) == Err(NoSolSide) <==>
                          pool in pools && pools[pool].baseMint != WSOL && pools[pool].quoteMint != WSOL)
                    && (Build(e, pools).Ok? ==>
                          var row, info := Build(e, pools).row, pools[pool];
                          var base := AsU64(Field(p, if buy then "base_amount_out" else "base_amount_in"));
                          var quote := AsU64(Field(p, if buy then "quote_amount_in" else "quote_amount_out"));
                          var solQuoted := info.quoteMint == WSOL;
                          && (row.side == "buy" <==> buy == solQuoted)
                          && Some(row.solAmount) == (if solQuoted then quote else base)
                          && Some(row.tokenAmount) == (if solQuoted then base else quote)
                          && row.tokenMint == Base58(if solQuoted then info.baseMint else info.quoteMint)
                          && row.trader == Base58(PubkeyFrom(Field(p, "user")).value)
                          && row.pool == Some(pool) && row.fee == AsU64(Field(p, "protocol_fee"))))
  {
    hide PubkeyFrom, Field;
  }

  /** The number and boolean readers: the JSON integers that fit 64 bits, and the JSON booleans. */
  lemma ReadersAccept(v: Json)
    ensures AsU64(None) == None && AsBool(None) == None
    ensures AsU64(Some(v)).Some? <==> v.Int? && 0 <= v.n <= 18446744073709551615
    ensures AsU64(Some(v)).Some? ==> AsU64(Some(v)).value == v.n
    ensures AsBool(Some(v)).Some? <==> v.Bool?
    ensures AsBool(Some(v)).Some? ==> AsBool(Some(v)).value == v.flag
  {}

  /** A decimals column counts when it fits a byte. */
  lemma DecimalsThatFit(d: Option<int>)
    ensures SmallDecimals(d).Some? <==> d.Some? && 0 <= d.value <= 255
    ensures SmallDecimals(d).Some? ==> SmallDecimals(d).value == d.value
  {}

  lemma BuildSidesOk(e: EventRow, pools: map<Text, PoolInfo>)
    ensures Build(e, pools).Ok? ==> SideOk(Build(e, pools).row)
  {}

  /** The pools `repair` knows answer like the cache for this pool. */
  predicate SameMints(pools: map<Text, PoolInfo>, cache: Cache, pool: Pubkey) {
    && (Base58(pool) in pools <==> pool in cache)
    && (pool in cache ==> pools[Base58(pool)].baseMint == cache[pool].baseMint
                          && pools[Base58(pool)].quoteMint == cache[pool].quoteMint)
  }

  /** The two interpreters agree: from the stored payload, `repair` builds exactly the row the
      live processor queues, and skips exactly when and why live leaves the event alone. */
  lemma LiveAndRepairAgree(key: EventKey, slot: nat, blockTime: Option<int>, e: Decoded, pools: map<Text, PoolInfo>,
                           cache: Cache)
    requires !e.PumpfunTrade? ==> SameMints(pools, cache, e.pool)
    ensures var built := Build(EventOf(key, slot, blockTime, e), pools);
            && (forall row :: built == Ok(row) <==> LiveTrade(e, cache) == Some(row))
            && (built == Err(PoolUnknown) <==> !e.PumpfunTrade? && e.pool !in cache)
            && (built == Err(NoSolSide) <==>
                  !e.PumpfunTrade? && e.pool in cache && OrientEvent(e, cache[e.pool]) == None)
            && built != Err(BadPayload)
  {
    if e.PumpfunTrade? {
      PumpfunAgrees(key, slot, blockTime, e, pools, cache);
    } else {
      PumpswapAgrees(key, slot, blockTime, e, pools, cache);
    }
  }

  lemma PumpfunAgrees(key: EventKey, slot: nat, blockTime: Option<int>, e: Decoded, pools: map<Text, PoolInfo>,
                      cache: Cache)
    requires e.PumpfunTrade?
    ensures LiveTrade(e, cache).Some? && Build(EventOf(key, slot, blockTime, e), pools) == Ok(LiveTrade(e, cache).value)
  {
    hide PubkeyFrom, PubkeyJson, Field;
    PubkeyRoundTrip(PubkeyJson(e.user), e.user);
    PubkeyRoundTrip(PubkeyJson(e.mint), e.mint);
    PumpfunFields(e);
  }

  lemma PumpswapAgrees(key: EventKey, slot: nat, blockTime: Option<int>, e: Decoded, pools: map<Text, PoolInfo>,
                       cache: Cache)
    requires !e.PumpfunTrade? && SameMints(pools, cache, e.pool)
    ensures Build(EventOf(key, slot, blockTime, e), pools)
            == if e.pool !in cache then Err(PoolUnknown)
               else if OrientEvent(e, cache[e.pool]) == None then Err(NoSolSide)
               else Ok(LiveTrade(e, cache).value)
    ensures LiveTrade(e, cache).Some? <==> e.pool in cache && OrientEvent(e, cache[e.pool]).Some?
  {
    hide PubkeyFrom, PubkeyJson, Orient, Field;
    PubkeyRoundTrip(PubkeyJson(e.user), e.user);
    PubkeyRoundTrip(PubkeyJson(e.pool), e.pool);
    PumpswapFields(e);
    if e.pool in cache { OrientReadsMints(pools[Base58(e.pool)], cache[e.pool], e); }
  }

  /** What the field lookups of `repair` find in a serialised pump.fun event. */
  lemma PumpfunFields(e: Decoded)
    requires e.PumpfunTrade?
    ensures var p := Payload(e);
            && Field(p, "mint") == Some(PubkeyJson(e.mint)) && Field(p, "user") == Some(PubkeyJson(e.user))
            && Field(p, "is_buy") == Some(Bool(e.isBuy)) && Field(p, "sol_amount") == Some(Int(e.solAmount))
            && Field(p, "token_amount") == Some(Int(e.tokenAmount)) && Field(p, "fee") == Some(Int(e.fee))
  {
    hide PubkeyJson;
  }

  lemma PumpswapFields(e: Decoded)
    requires !e.PumpfunTrade?
    ensures var p := Payload(e);
            && Field(p, "pool") == Some(PubkeyJson(e.pool)) && Field(p, "user") == Some(PubkeyJson(e.user))
            && Field(p, "protocol_fee") == Some(Int(e.protocolFee))
            && (e.Buy? ==> Field(p, "base_amount_out") == Some(Int(e.baseAmountOut))
                           && Field(p, "quote_amount_in") == Some(Int(e.quoteAmountIn)))
            && (e.Sell? ==> Field(p, "base_amount_in") == Some(Int(e.baseAmountIn))
                            && Field(p, "quote_amount_out") == Some(Int(e.quoteAmountOut)))
  {
    hide PubkeyJson;
  }

  lemma OrientReadsMints(a: PoolInfo, b: PoolInfo, e: Decoded)
    requires !e.PumpfunTrade? && a.baseMint == b.baseMint && a.quoteMint == b.quoteMint
    ensures OrientEvent(e, a) == OrientEvent(e, b)
  {}
}
