/** The values that flow through the indexer: keys, rows and the stored JSON payload. */
module Rows {
  datatype Option<+T> = None | Some(value: T)

  type U8 = b: int | 0 <= b < 0x100
  type U64 = n: int | 0 <= n < 0x1_0000_0000_0000_0000

  type Pubkey = bytes: seq<U8> | |bytes| == 32 witness seq(32, _ => 0)

  /** A text column. `Base58(k)` is the text of the public key `k`; base58 text is
      injective, and parsing accepts exactly the texts that printing produces. */
  datatype Text = Base58(key: Pubkey) | Other(raw: string)

  function FromStr(t: Text): Option<Pubkey> {
    match t
    case Base58(k) => Some(k)
    case Other(_) => None
  }

  /** A JSON value as serde_json holds it: integers and floats are different numbers. */
  datatype Json =
    | Null
    | Bool(flag: bool)
    | Int(n: int)
    | Float(r: real)
    | Str(s: string)
    | Arr(items: seq<Json>)
    | Obj(fields: map<string, Json>)

  /** Primary key of `events` and `trades`. */
  datatype EventKey = EventKey(signature: string, path: seq<U8>, ordinal: nat)

  datatype EventRow = EventRow(
    key: EventKey,
    slot: nat,
    blockTime: Option<int>,
    program: string,
    eventType: string,
    payload: Json)

  datatype TradeRow = TradeRow(
    pool: Option<Text>,
    tokenMint: Text,
    side: string,
    solAmount: U64,
    tokenAmount: U64,
    trader: Text,
    fee: Option<U64>)

  datatype PendingWrite = PendingWrite(event: EventRow, trade: Option<TradeRow>)

  /** A row of `trades` without its key. */
  datatype StoredTrade = StoredTrade(slot: nat, blockTime: Option<int>, program: string, trade: TradeRow)

  function Stored(e: EventRow, t: TradeRow): StoredTrade {
    StoredTrade(e.slot, e.blockTime, e.program, t)
  }

  /** The CHECK constraint on `trades.side`. */
  predicate SideOk(t: TradeRow) {
    t.side == "buy" || t.side == "sell"
  }

  predicate SidesOk(rows: seq<PendingWrite>) {
    forall i :: 0 <= i < |rows| && rows[i].trade.Some? ==> SideOk(rows[i].trade.value)
  }

  /** The primary keys of some events. */
  function KeysOf(events: seq<EventRow>): set<EventKey> {
    set e | e in events :: e.key
  }

  function Flatten<T>(parts: seq<seq<T>>): seq<T> {
    if parts == [] then [] else parts[0] + Flatten(parts[1..])
  }

  lemma {:induction false} FlattenConcat<T>(a: seq<seq<T>>, b: seq<seq<T>>)
    ensures Flatten(a + b) == Flatten(a) + Flatten(b)
  {
    if a == [] {
      assert a + b == b;
    } else {
      assert (a + b)[1..] == a[1..] + b;
      FlattenConcat(a[1..], b);
    }
  }

  lemma FlattenSnoc<T>(a: seq<seq<T>>, x: seq<T>)
    ensures Flatten(a + [x]) == Flatten(a) + x
  {
    FlattenConcat(a, [x]);
    assert Flatten([x]) == x + Flatten<T>([]);
  }

  /** An element of a concatenation lies in one of its parts. */
  lemma {:induction false} InFlatten<T>(parts: seq<seq<T>>, x: T)
    ensures x in Flatten(parts) <==> exists p :: p in parts && x in p
  {
    if parts != [] {
      InFlatten(parts[1..], x);
      assert parts == [parts[0]] + parts[1..];
    }
  }
}
