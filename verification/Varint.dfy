/**
 Base 128 varints (src/proto_wire.cpp): what a run of bytes denotes, the
 encoding loop, and the accumulation step all four decoding loops perform.
 */
module Varint {
  import opened Wrappers
  import opened Ints

  /** The longest varint the decoders accept. */
  const MAX_BYTES := 10

  predicate Continues(b: Byte) {
    b >= 128
  }

  /** The number of leading bytes with the continuation bit. */
  function Stop(b: seq<Byte>): (k: nat)
    ensures k <= |b|
    ensures forall i | 0 <= i < k :: Continues(b[i])
    ensures k < |b| ==> !Continues(b[k])
  {
    if b == [] || !Continues(b[0]) then 0 else 1 + Stop(b[1..])
  }

  /** The number whose little-endian base 128 digits are the low seven bits of the bytes. */
  function Groups(b: seq<Byte>): nat {
    if b == [] then 0 else b[0] % 128 + 128 * Groups(b[1..])
  }

  /**
   The value a varint at the start of `b` denotes and the bytes it takes: the
   digits up to the first byte without the continuation bit, modulo 2^64.
   There is none when ten bytes go by without such a byte.
   */
  function ReadVarint(b: seq<Byte>): (r: Option<(U64, nat)>)
    ensures r.Some? ==> 0 < r.value.1 <= |b| && r.value.1 <= MAX_BYTES
  {
    var k := Stop(b);
    if k < |b| && k < MAX_BYTES then Some((Groups(b[..k + 1]) % TWO64, k + 1)) else None
  }

  function EncodeVarint(v: nat): (b: seq<Byte>)
    ensures |b| > 0
  {
    if v < 128 then [v] else [v % 128 + 128] + EncodeVarint(v / 128)
  }

  /** One step of a decoding loop: `value |= (byte & 0x7f) << shift` on a 64-bit word. */
  function Accumulate(acc: U64, b: Byte, shift: nat): U64 {
    var group: U64 := (b % 128) * Pow2(shift) % TWO64;
    Pow2Values();
    BitOrBound(acc, group, 64);
    BitOr(acc, group)
  }

  // ------------------------------------------------------------ the digits

  lemma StopIs(b: seq<Byte>, k: nat)
    requires k <= |b|
    requires forall i | 0 <= i < k :: Continues(b[i])
    requires k < |b| ==> !Continues(b[k])
    ensures Stop(b) == k
  {
  }

  lemma Pow2Of7(k: nat)
    ensures Pow2(7 * (k + 1)) == 128 * Pow2(7 * k)
  {
    var n := 7 * k;
    assert Pow2(n + 7) == 2 * Pow2(n + 6) == 4 * Pow2(n + 5) == 8 * Pow2(n + 4);
    assert Pow2(n + 4) == 2 * Pow2(n + 3) == 4 * Pow2(n + 2) == 8 * Pow2(n + 1);
  }

  lemma {:induction false} GroupsBound(b: seq<Byte>)
    ensures Groups(b) < Pow2(7 * |b|)
  {
    if b != [] {
      GroupsBound(b[1..]);
      Pow2Of7(|b| - 1);
    }
  }

  lemma {:induction false} GroupsAppend(b: seq<Byte>, x: Byte)
    ensures Groups(b + [x]) == Groups(b) + (x % 128) * Pow2(7 * |b|)
  {
    if b == [] {
      assert b + [x] == [x];
    } else {
      assert (b + [x])[1..] == b[1..] + [x];
      GroupsAppend(b[1..], x);
      Pow2Of7(|b| - 1);
      var d, p := x % 128, Pow2(7 * (|b| - 1));
      assert d * (128 * p) == 128 * (d * p);
    }
  }

  lemma {:induction false} Pow2Monotone(a: nat, b: nat)
    requires a <= b
    ensures Pow2(a) <= Pow2(b)
    decreases b
  {
    if a < b {
      Pow2Monotone(a, b - 1);
    }
  }

  /** The digits of at most nine bytes fit 63 bits. */
  lemma NineBytesFit(b: seq<Byte>)
    requires |b| < MAX_BYTES
    ensures Groups(b) < TWO63
  {
    GroupsBound(b);
    Pow2Monotone(7 * |b|, 63);
    Pow2Values();
  }

  lemma AccumulateFits(acc: U64, b: Byte, shift: nat)
    requires acc < Pow2(shift) && (b % 128) * Pow2(shift) < TWO64
    ensures Accumulate(acc, b, shift) == acc + (b % 128) * Pow2(shift)
  {
    OrOfDisjoint(acc, b % 128, shift);
    SmallMod((b % 128) * Pow2(shift));
  }

  lemma SmallMod(x: nat)
    requires x < TWO64
    ensures x % TWO64 == x
  {
  }

  lemma AccumulateTop(acc: U64, b: Byte)
    requires acc < TWO63
    ensures Accumulate(acc, b, 63) == (acc + (b % 128) * TWO63) % TWO64
  {
    hide Pow2, BitOr;
    Pow2Values();
    LastGroup(acc, b % 128);
    OrOfDisjoint(acc, b % 128 % 2, 63);
  }

  /**
   The accumulation step computes the digits modulo 2^64, the tenth byte
   included: it is shifted by 63, so all its bits but the lowest are lost.
   */
  lemma AccumulateIsGroups(p: seq<Byte>, b: Byte)
    requires |p| < MAX_BYTES
    ensures Groups(p) < TWO63
    ensures Accumulate(Groups(p), b, 7 * |p|) == Groups(p + [b]) % TWO64
    ensures |p| < MAX_BYTES - 1 ==> Groups(p + [b]) < TWO63
  {
    hide Accumulate, Groups, Pow2;
    NineBytesFit(p);
    GroupsAppend(p, b);
    if |p| < MAX_BYTES - 1 {
      NineBytesFit(p + [b]);
      GroupsBound(p);
      AccumulateFits(Groups(p), b, 7 * |p|);
      SmallMod(Groups(p + [b]));
    } else {
      Pow2Values();
      AccumulateTop(Groups(p), b);
    }
  }

  lemma LastGroup(acc: nat, d: nat)
    requires acc < TWO63 && d < 128
    ensures d * TWO63 % TWO64 == (d % 2) * TWO63
    ensures (acc + d * TWO63) % TWO64 == acc + (d % 2) * TWO63
  {
  }

  // ------------------------------------------------ the shape of the loops

  /** `p` is what a decoding loop has consumed and `value` what it holds. */
  ghost predicate Consumed(p: seq<Byte>, value: nat) {
    && |p| <= MAX_BYTES
    && (forall i | 0 <= i < |p| :: Continues(p[i]))
    && value == Groups(p) % TWO64
  }

  lemma NothingConsumed()
    ensures Consumed([], 0)
  {
  }

  /** One more byte: the loop's value is that of one more digit, and so is a varint's that stops here. */
  lemma ConsumeByte(p: seq<Byte>, value: U64, b: Byte, rest: seq<Byte>)
    requires Consumed(p, value) && |p| < MAX_BYTES
    ensures Accumulate(value, b, 7 * |p|) == Groups(p + [b]) % TWO64
    ensures Continues(b) ==> Consumed(p + [b], Accumulate(value, b, 7 * |p|))
    ensures !Continues(b) ==>
      ReadVarint(p + [b] + rest) == Some((Accumulate(value, b, 7 * |p|), |p| + 1))
  {
    AccumulateIsGroups(p, b);
    SmallMod(Groups(p));
    if !Continues(b) {
      StopIs(p + [b] + rest, |p|);
      assert (p + [b] + rest)[..|p| + 1] == p + [b];
    }
  }

  /** The input ended, or ten bytes went by, without a last byte. */
  lemma ConsumedAll(p: seq<Byte>, value: nat, rest: seq<Byte>)
    requires Consumed(p, value) && (rest == [] || |p| == MAX_BYTES)
    ensures ReadVarint(p + rest) == None
    ensures Stop(p + rest) >= |p|
  {
  }

  // --------------------------------------------------- encoding and decoding

  /** Appending bytes does not change a varint that is already complete. */
  lemma ReadVarintOfPrefix(b: seq<Byte>, rest: seq<Byte>)
    requires ReadVarint(b).Some?
    ensures ReadVarint(b + rest) == ReadVarint(b)
  {
    var k := Stop(b);
    StopIs(b + rest, k);
    assert (b + rest)[..k + 1] == b[..k + 1];
  }

  lemma {:induction false} EncodedDigits(v: nat)
    ensures Stop(EncodeVarint(v)) == |EncodeVarint(v)| - 1
    ensures Groups(EncodeVarint(v)) == v
  {
    if v >= 128 {
      EncodedDigits(v / 128);
      assert EncodeVarint(v)[1..] == EncodeVarint(v / 128);
    }
  }

  lemma {:induction false} EncodedLength(v: nat, k: nat)
    requires 0 < k && v < Pow2(7 * k)
    ensures |EncodeVarint(v)| <= k
    decreases k
  {
    if v >= 128 {
      Pow2Of7(k - 1);
      EncodedLength(v / 128, k - 1);
    }
  }

  /** Every 64-bit value survives encoding and decoding, whatever follows it, in at most ten bytes. */
  lemma VarintRoundTrip(v: U64, rest: seq<Byte>)
    ensures ReadVarint(EncodeVarint(v) + rest) == Some((v, |EncodeVarint(v)|))
    ensures |EncodeVarint(v)| <= MAX_BYTES
  {
    hide EncodeVarint, Groups, Pow2;
    var e := EncodeVarint(v);
    EncodedDigits(v);
    Pow2Values();
    EncodedLength(v, MAX_BYTES);
    SmallMod(v);
    assert e[..|e|] == e;
    ReadVarintOfPrefix(e, rest);
  }

  /** The encoding is the shortest of all byte strings the decoder maps to its value. */
  lemma VarintIsShortest(b: seq<Byte>)
    requires ReadVarint(b).Some?
    ensures |EncodeVarint(ReadVarint(b).value.0)| <= ReadVarint(b).value.1
  {
    var n := ReadVarint(b).value.1;
    GroupsBound(b[..n]);
    EncodedLength(ReadVarint(b).value.0, n);
  }
}
