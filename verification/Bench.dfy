/** The benchmark's trick to keep repeated transactions apart. */
module Bench {
  import opened Rows

  const WORD := 0x1_0000_0000_0000_0000
  const SIGNATURE_BYTES := 64
  const MASK_BYTES := 8

  /** Exclusive or of the low `bits` bits. */
  function Xor(a: nat, b: nat, bits: nat): (r: nat)
    decreases bits
  {
    if bits == 0 then 0
    else (if a % 2 == b % 2 then 0 else 1) + 2 * Xor(a / 2, b / 2, bits - 1)
  }

  function Pow2(n: nat): nat {
    if n == 0 then 1 else 2 * Pow2(n - 1)
  }

  lemma {:induction false} XorBounded(a: nat, b: nat, bits: nat)
    ensures Xor(a, b, bits) < Pow2(bits)
    decreases bits
  {
    if bits != 0 {
      XorBounded(a / 2, b / 2, bits - 1);
    }
  }

  /** Undoing a mask: x ^ m determines x, given m. */
  lemma {:induction false} XorUndoes(a: nat, m: nat, bits: nat)
    requires a < Pow2(bits)
    ensures Xor(Xor(a, m, bits), m, bits) == a
    decreases bits
  {
    if bits != 0 {
      XorUndoes(a / 2, m / 2, bits - 1);
      assert Xor(a, m, bits) / 2 == Xor(a / 2, m / 2, bits - 1);
    }
  }

  lemma {:induction false} XorCommutes(a: nat, b: nat, bits: nat)
    ensures Xor(a, b, bits) == Xor(b, a, bits)
    decreases bits
  {
    if bits != 0 {
      XorCommutes(a / 2, b / 2, bits - 1);
    }
  }

  function Bit(a: nat, i: nat): nat {
    if i == 0 then a % 2 else Bit(a / 2, i - 1)
  }

  /** Bit by bit: set where the two differ. */
  lemma {:induction false} XorBits(a: nat, b: nat, bits: nat, i: nat)
    requires i < bits
    ensures Bit(Xor(a, b, bits), i) == if Bit(a, i) == Bit(b, i) then 0 else 1
    decreases bits
  {
    assert Xor(a, b, bits) / 2 == Xor(a / 2, b / 2, bits - 1);
    if i != 0 {
      XorBits(a / 2, b / 2, bits - 1, i - 1);
    }
  }

  function XorByte(a: U8, m: U8): U8 {
    XorBounded(a, m, 8);
    assert Pow2(8) == 256;
    Xor(a, m, 8)
  }

  /** `to_le_bytes`. */
  function LittleEndian(n: nat, bytes: nat): (r: seq<U8>)
    ensures |r| == bytes
  {
    if bytes == 0 then [] else [n % 256] + LittleEndian(n / 256, bytes - 1)
  }

  function Pow256(n: nat): nat {
    if n == 0 then 1 else 256 * Pow256(n - 1)
  }

  /** Byte `i` has the weight 256^i. */
  lemma {:induction false} LittleEndianAt(n: nat, bytes: nat, i: nat)
    requires i < bytes
    ensures Pow256(i) > 0 && LittleEndian(n, bytes)[i] == n / Pow256(i) % 256
  {
    if i == 0 {
      assert n / 1 == n;
    } else {
      LittleEndianAt(n / 256, bytes - 1, i - 1);
      DivTwice(n, Pow256(i - 1));
      assert LittleEndian(n, bytes)[i] == LittleEndian(n / 256, bytes - 1)[i - 1];
    }
  }

  lemma DivTwice(n: nat, d: nat)
    requires d > 0
    ensures n / 256 / d == n / (256 * d)
  {
    DivMod(n / 256, d);
    DivMod(n, 256 * d);
    OneQuotient(n, n / 256, n % 256, d, n / 256 / d, n / 256 % d, 256 * d, n / (256 * d), n % (256 * d));
  }

  lemma OneQuotient(n: nat, m: nat, t: nat, d: nat, q: nat, r: nat, wide: nat, p: int, s: nat)
    requires n == 256 * m + t && t < 256 && m == q * d + r && r < d && wide == 256 * d
    requires n == p * wide + s && s < wide
    ensures q == p
  {
    Regroup(m, q, d, r, wide);
    SameQuotient(q, 256 * r + t, p, s, wide);
  }

  lemma DivMod(n: nat, d: nat)
    requires d > 0
    ensures n == n / d * d + n % d
  {}

  lemma Regroup(m: nat, q: nat, d: nat, r: nat, wide: nat)
    requires m == q * d + r && wide == 256 * d
    ensures 256 * m == q * wide + 256 * r
  {
    assert q * (256 * d) == 256 * (q * d);
  }

  lemma SameQuotient(q: int, r: nat, p: int, s: nat, d: nat)
    requires q * d + r == p * d + s && r < d && s < d
    ensures q == p
  {
    if q < p {
      NextMultiple(q, p, d);
    } else if p < q {
      NextMultiple(p, q, d);
    }
  }

  lemma NextMultiple(q: int, p: int, d: nat)
    requires q < p
    ensures q * d + d <= p * d
  {
    var k: nat := p - q - 1;
    assert p * d == q * d + d + k * d;
  }

  lemma {:induction false} LittleEndianInjective(a: nat, b: nat, bytes: nat)
    requires a < Pow256(bytes) && b < Pow256(bytes) && LittleEndian(a, bytes) == LittleEndian(b, bytes)
    ensures a == b
    decreases bytes
  {
    if bytes != 0 {
      assert LittleEndian(a, bytes)[1..] == LittleEndian(a / 256, bytes - 1);
      assert LittleEndian(b, bytes)[1..] == LittleEndian(b / 256, bytes - 1);
      assert LittleEndian(a, bytes)[0] == LittleEndian(b, bytes)[0];
      LittleEndianInjective(a / 256, b / 256, bytes - 1);
    }
  }

  /** The mask of update `index`: the wrapping sum with the salt, little endian. */
  function Mask(salt: U64, index: U64): (m: seq<U8>)
    ensures |m| == MASK_BYTES
  {
    LittleEndian((salt + index) % WORD, MASK_BYTES)
  }

  /** The signature after `make_signature_unique`. */
  function Masked(base: seq<U8>, salt: U64, index: U64): (r: seq<U8>)
    requires |base| == SIGNATURE_BYTES
    ensures |r| == SIGNATURE_BYTES
  {
    seq(SIGNATURE_BYTES, i requires 0 <= i < SIGNATURE_BYTES =>
      if i < MASK_BYTES then XorByte(base[i], Mask(salt, index)[i]) else base[i])
  }

  /** What the trick does to each byte and bit: of the first eight bytes, byte `i` is flipped
      where byte `i` of the sum of salt and position, modulo 2^64 and little endian, is set; the
      other 56 stay. */
  lemma MaskedMeaning(base: seq<U8>, salt: U64, index: U64, i: nat, bit: nat)
    requires |base| == 64 && i < 64 && bit < 8
    ensures Pow256(i) > 0
    ensures i >= 8 ==> Masked(base, salt, index)[i] == base[i]
    ensures i < 8 ==>
              var m := (salt + index) % 18446744073709551616 / Pow256(i) % 256;
              Bit(Masked(base, salt, index)[i], bit) == if Bit(base[i], bit) == Bit(m, bit) then 0 else 1
  {
    LittleEndianAt(0, 64, i);
    if i < 8 {
      LittleEndianAt((salt + index) % WORD, 8, i);
      XorBits(base[i], Mask(salt, index)[i], 8, bit);
    }
  }

  /** `make_signature_unique` over the signature bytes in place. */
  method MakeUnique(bytes: array<U8>, salt: U64, index: U64)
    requires bytes.Length == SIGNATURE_BYTES
    modifies bytes
    ensures bytes[..] == Masked(old(bytes[..]), salt, index)
  {
    var mask := LittleEndian((salt + index) % WORD, MASK_BYTES);
    var i := 0;
    while i < |mask|
      invariant 0 <= i <= MASK_BYTES
      invariant forall j :: 0 <= j < i ==> bytes[j] == XorByte(old(bytes[j]), mask[j])
      invariant forall j :: i <= j < SIGNATURE_BYTES ==> bytes[j] == old(bytes[j])
    {
      bytes[i] := XorByte(bytes[i], mask[i]);
      i := i + 1;
    }
    assert bytes[..] == Masked(old(bytes[..]), salt, index);
  }

  /** Masking again restores the signature. */
  lemma MaskUndoes(base: seq<U8>, salt: U64, index: U64)
    requires |base| == SIGNATURE_BYTES
    ensures Masked(Masked(base, salt, index), salt, index) == base
  {
    forall i | 0 <= i < SIGNATURE_BYTES ensures Masked(Masked(base, salt, index), salt, index)[i] == base[i] {
      if i < MASK_BYTES {
        assert Pow2(8) == 256;
        XorUndoes(base[i], Mask(salt, index)[i], 8);
      }
    }
  }

  /** Different positions have different masks, for any salt. */
  lemma MasksDiffer(salt: U64, i: U64, j: U64)
    requires i != j
    ensures Mask(salt, i) != Mask(salt, j)
  {
    assert Pow256(8) == WORD;
    if Mask(salt, i) == Mask(salt, j) {
      LittleEndianInjective((salt + i) % WORD, (salt + j) % WORD, MASK_BYTES);
      WrapInjective(salt, i, j);
    }
  }

  lemma WrapInjective(salt: U64, i: U64, j: U64)
    requires (salt + i) % WORD == (salt + j) % WORD
    ensures i == j
  {}

  lemma XorSame(a: U8, m: U8, n: U8)
    requires XorByte(a, m) == XorByte(a, n)
    ensures m == n
  {
    assert Pow2(8) == 256;
    XorCommutes(a, m, 8);
    XorCommutes(a, n, 8);
    XorUndoes(m, a, 8);
    XorUndoes(n, a, 8);
  }

  /** Two bases the trick can keep apart: equal, or different after the masked bytes. */
  predicate Separable(a: seq<U8>, b: seq<U8>)
    requires |a| == |b| == SIGNATURE_BYTES
  {
    a == b || a[MASK_BYTES..] != b[MASK_BYTES..]
  }

  /** Masked signatures of separable bases never collide at two positions. */
  lemma NoCollision(a: seq<U8>, b: seq<U8>, salt: U64, i: U64, j: U64)
    requires |a| == |b| == SIGNATURE_BYTES && i != j && Separable(a, b)
    ensures Masked(a, salt, i) != Masked(b, salt, j)
  {
    var x, y := Masked(a, salt, i), Masked(b, salt, j);
    if x == y {
      forall n | MASK_BYTES <= n < SIGNATURE_BYTES ensures a[n] == b[n] { assert x[n] == y[n]; }
      assert a[MASK_BYTES..] == b[MASK_BYTES..];
      forall n | 0 <= n < MASK_BYTES ensures Mask(salt, i)[n] == Mask(salt, j)[n] {
        assert x[n] == y[n];
        XorSame(a[n], Mask(salt, i)[n], Mask(salt, j)[n]);
      }
      MasksDiffer(salt, i, j);
    }
  }

  /** Without that condition a collision is possible for every pair of positions: two bases
      collide exactly when the second is the first masked with both masks. */
  lemma CollisionExactly(a: seq<U8>, b: seq<U8>, salt: U64, i: U64, j: U64)
    requires |a| == |b| == SIGNATURE_BYTES
    ensures Masked(a, salt, i) == Masked(b, salt, j) <==> b == Masked(Masked(a, salt, i), salt, j)
  {
    MaskUndoes(b, salt, j);
    MaskUndoes(Masked(a, salt, i), salt, j);
  }

  /** A stream of fewer than 2^64 updates with pairwise separable bases has pairwise distinct
      signatures. */
  lemma StreamDistinct(bases: seq<seq<U8>>, salt: U64, i: nat, j: nat)
    requires |bases| <= WORD && i < j < |bases|
    requires forall n :: 0 <= n < |bases| ==> |bases[n]| == SIGNATURE_BYTES
    requires forall m, n :: 0 <= m < n < |bases| ==> Separable(bases[m], bases[n])
    ensures Masked(bases[i], salt, i) != Masked(bases[j], salt, j)
  {
    NoCollision(bases[i], bases[j], salt, i, j);
  }

  /** The forwarder: update after update, each masked with its position. */
  method Forward(bases: seq<seq<U8>>, salt: U64) returns (out: seq<seq<U8>>)
    requires |bases| <= WORD && forall n :: 0 <= n < |bases| ==> |bases[n]| == SIGNATURE_BYTES
    ensures |out| == |bases| && forall n :: 0 <= n < |out| ==> out[n] == Masked(bases[n], salt, n)
    ensures (forall m, n :: 0 <= m < n < |bases| ==> Separable(bases[m], bases[n])) ==>
              forall m, n :: 0 <= m < n < |out| ==> out[m] != out[n]
  {
    out := [];
    var sent := 0;
    while sent < |bases|
      invariant sent == |out| <= |bases| && forall n :: 0 <= n < |out| ==> out[n] == Masked(bases[n], salt, n)
    {
      var bytes := new U8[SIGNATURE_BYTES](i requires 0 <= i < SIGNATURE_BYTES => bases[sent][i]);
      assert bytes[..] == bases[sent];
      MakeUnique(bytes, salt, sent);
      out := out + [bytes[..]];
      sent := sent + 1;
    }
    if forall m, n :: 0 <= m < n < |bases| ==> Separable(bases[m], bases[n]) {
      forall m, n | 0 <= m < n < |out| ensures out[m] != out[n] {
        StreamDistinct(bases, salt, m, n);
      }
    }
  }
}
