/**
 The wire format in the words of the Protocol Buffers encoding guide (sections
 "Base 128 Varints", "Message Structure", "Length-Delimited Records"): which
 bytes spell a number, a field, a message and a frame. The functions that read
 bytes agree with it in both directions.
 */
module WireFormat {
  import opened Wrappers
  import opened Ints
  import opened Varint
  import opened Wire
  import opened Framing

  // ------------------------------------------------------------ numbers

  /** Up to ten bytes, of which exactly the last one has its top bit clear. */
  predicate IsVarint(b: seq<Byte>) {
    && 1 <= |b| <= 10
    && (forall i | 0 <= i < |b| - 1 :: b[i] >= 128)
    && b[|b| - 1] < 128
  }

  function Power128(k: nat): nat {
    if k == 0 then 1 else 128 * Power128(k - 1)
  }

  /** The sum of the low seven bits of the bytes, least significant group first. */
  function Sum(b: seq<Byte>): nat {
    if b == [] then 0
    else Sum(b[..|b| - 1]) + (b[|b| - 1] % 128) * Power128(|b| - 1)
  }

  /** The number the bytes spell, in 64 bits. */
  function Word(b: seq<Byte>): U64 {
    Sum(b) % 0x1_0000_0000_0000_0000
  }

  predicate SpellsNumber(b: seq<Byte>, v: nat) {
    IsVarint(b) && v == Word(b)
  }

  lemma {:induction false} Power128IsPow2(k: nat)
    ensures Power128(k) == Pow2(7 * k)
  {
    if k != 0 {
      Power128IsPow2(k - 1);
      Pow2Of7(k - 1);
    } else {
      SmallPowers();
    }
  }

  lemma {:induction false} SumIsGroups(b: seq<Byte>)
    ensures Sum(b) == Groups(b)
  {
    if b != [] {
      var n := |b| - 1;
      SumIsGroups(b[..n]);
      Power128IsPow2(n);
      GroupsAppend(b[..n], b[n]);
      assert b[..n] + [b[n]] == b;
    }
  }

  /** The decoder finds a number at the front if and only if the bytes it takes spell it. */
  lemma NumberIsReadIff(b: seq<Byte>, v: U64, n: nat)
    ensures ReadVarint(b) == Some((v, n)) <==> n <= |b| && SpellsNumber(b[..n], v)
  {
    hide Groups, Sum;
    if n <= |b| {
      SumIsGroups(b[..n]);
      if IsVarint(b[..n]) {
        assert forall i | 0 <= i < n :: b[..n][i] == b[i];
        StopIs(b, n - 1);
      }
    }
  }

  /** The encoder spells its number. */
  lemma NumberIsSpelled(v: U64)
    ensures SpellsNumber(EncodeVarint(v), v)
  {
    hide EncodeVarint, ReadVarint, SpellsNumber;
    var e := EncodeVarint(v);
    VarintRoundTrip(v, []);
    assert e + [] == e && e[..|e|] == e;
    NumberIsReadIff(e, v, |e|);
  }

  // ------------------------------------------------------------ fields

  /** A key: a number of 32 bits that is not 0, and a wire type. */
  predicate SpellsKey(b: seq<Byte>, number: nat, wireType: nat) {
    IsVarint(b) && number == Word(b) / 8 % 0x1_0000_0000 != 0 && wireType == Word(b) % 8
  }

  /**
   A field is a key and what its wire type calls for: 0 a number, 1 eight bytes,
   2 a length and as many bytes, 5 four bytes.
   */
  predicate SpellsParts(key: seq<Byte>, length: seq<Byte>, data: seq<Byte>, f: Field) {
    match f
    case VarintField(number, v) => SpellsKey(key, number, 0) && length == [] && SpellsNumber(data, v)
    case Fixed64Field(number, d) => SpellsKey(key, number, 1) && length == [] && |data| == 8 && data == d
    case BytesField(number, d) => SpellsKey(key, number, 2) && SpellsNumber(length, |data|) && data == d
    case Fixed32Field(number, d) => SpellsKey(key, number, 5) && length == [] && |data| == 4 && data == d
  }

  predicate SpellsField(b: seq<Byte>, f: Field) {
    exists k, n | 0 <= k <= n <= |b| :: SpellsParts(b[..k], b[k..n], b[n..], f)
  }

  /** What the decoder finds is spelled, and spells only that. */
  lemma NumberIsWord(b: seq<Byte>)
    requires ReadVarint(b).Some?
    ensures var (v, n) := ReadVarint(b).value; IsVarint(b[..n]) && Word(b[..n]) == v
  {
    NumberIsReadIff(b, ReadVarint(b).value.0, ReadVarint(b).value.1);
    hide ReadVarint, Word, IsVarint;
  }

  lemma WordIsNumber(b: seq<Byte>, n: nat)
    requires n <= |b| && IsVarint(b[..n])
    ensures ReadVarint(b) == Some((Word(b[..n]), n))
  {
    NumberIsReadIff(b, Word(b[..n]), n);
    hide ReadVarint, Word, IsVarint;
  }

  lemma PartsSpell(b: seq<Byte>, k: nat, n: nat, size: nat, f: Field)
    requires k <= n <= size <= |b| && SpellsParts(b[..k], b[k..n], b[n..size], f)
    ensures SpellsField(b[..size], f)
  {
    hide SpellsParts;
    var m := b[..size];
    assert m[..k] == b[..k] && m[k..n] == b[k..n] && m[n..] == b[n..size];
  }

  lemma SliceOfTail(b: seq<Byte>, k: nat, i: nat, j: nat)
    requires k <= |b| && i <= j <= |b| - k
    ensures b[k..][i..j] == b[k + i..k + j]
  {
  }

  /** The number of a key and what follows, by wire type. */
  lemma VarintIsSpelled(b: seq<Byte>, k: nat, number: U32, size: nat, v: U64)
    requires k <= |b| && SpellsKey(b[..k], number, 0)
    requires ReadPayload(number, 0, b[k..], k) == Item(VarintField(number, v), size)
    ensures SpellsField(b[..size], VarintField(number, v))
  {
    hide SpellsKey, Word, IsVarint, ReadVarint;
    NumberIsWord(b[k..]);
    SliceOfTail(b, k, 0, size - k);
    PartsSpell(b, k, k, size, VarintField(number, v));
  }

  lemma BytesAreSpelled(b: seq<Byte>, k: nat, number: U32, size: nat, d: seq<Byte>)
    requires k <= |b| && SpellsKey(b[..k], number, 2)
    requires ReadPayload(number, 2, b[k..], k) == Item(BytesField(number, d), size)
    ensures SpellsField(b[..size], BytesField(number, d))
  {
    hide SpellsKey, Word, IsVarint, ReadVarint;
    NumberIsWord(b[k..]);
    var n := ReadVarint(b[k..]).value.1;
    SliceOfTail(b, k, 0, n);
    SliceOfTail(b, k, n, size - k);
    PartsSpell(b, k, k + n, size, BytesField(number, d));
  }

  lemma FixedIsSpelled(b: seq<Byte>, k: nat, number: U32, wireType: nat, f: Field, size: nat)
    requires k <= |b| && (wireType == 1 || wireType == 5) && SpellsKey(b[..k], number, wireType)
    requires ReadPayload(number, wireType, b[k..], k) == Item(f, size)
    ensures SpellsField(b[..size], f)
  {
    hide SpellsKey, ReadVarint;
    SliceOfTail(b, k, 0, size - k);
    PartsSpell(b, k, k, size, f);
  }

  lemma ReadIsSpelled(b: seq<Byte>)
    requires NextField(b).Item?
    ensures SpellsField(b[..NextField(b).size], NextField(b).field)
  {
    NumberIsWord(b);
    var (key, k) := ReadVarint(b).value;
    var number := key / 8 % TWO32;
    assert SpellsKey(b[..k], number, key % 8) by { hide IsVarint, Word; }
    var r := ReadPayload(number, key % 8, b[k..], k);
    assert r == NextField(b);
    PayloadKinds(number, key % 8, b[k..], k);
    hide Word, IsVarint, ReadVarint, SpellsKey, SpellsField, NextField, ReadPayload;
    if key % 8 == 0 {
      VarintIsSpelled(b, k, number, r.size, r.field.value);
    } else if key % 8 == 2 {
      BytesAreSpelled(b, k, number, r.size, r.field.bytes);
    } else {
      FixedIsSpelled(b, k, number, key % 8, r.field, r.size);
    }
  }

  lemma PayloadKinds(number: U32, wireType: nat, b: seq<Byte>, k: nat)
    requires ReadPayload(number, wireType, b, k).Item?
    ensures var f := ReadPayload(number, wireType, b, k).field;
      && f.number == number
      && (wireType == 0 ==> f.VarintField?) && (wireType == 2 ==> f.BytesField?)
      && wireType in {0, 1, 2, 5}
  {
    hide ReadVarint;
  }

  lemma SpelledIsRead(b: seq<Byte>, f: Field, k: nat, n: nat, size: nat)
    requires k <= n <= size <= |b| && SpellsParts(b[..k], b[k..n], b[n..size], f)
    ensures NextField(b) == Item(f, size)
  {
    WordIsNumber(b, k);
    SpelledPayloadIsRead(b, f, k, n, size);
    hide ReadPayload, ReadVarint, IsVarint, Word;
  }

  lemma SpelledPayloadIsRead(b: seq<Byte>, f: Field, k: nat, n: nat, size: nat)
    requires k <= n <= size <= |b| && SpellsParts(b[..k], b[k..n], b[n..size], f)
    ensures ReadPayload(f.number, Word(b[..k]) % 8, b[k..], k) == Item(f, size)
  {
    hide Word, IsVarint, ReadVarint;
    SliceOfTail(b, k, 0, n - k);
    SliceOfTail(b, k, n - k, size - k);
    match f
    case VarintField(_, v) => WordIsNumber(b[k..], size - k);
    case BytesField(_, d) => WordIsNumber(b[k..], n - k);
    case Fixed64Field(_, d) =>
    case Fixed32Field(_, d) =>
  }

  /** A field is read off the front if and only if the bytes it takes spell it. */
  lemma FieldIsReadIff(b: seq<Byte>, f: Field, size: nat)
    ensures NextField(b) == Item(f, size) <==> size <= |b| && SpellsField(b[..size], f)
  {
    hide NextField, SpellsParts;
    if NextField(b) == Item(f, size) {
      ReadIsSpelled(b);
    }
    if size <= |b| && SpellsField(b[..size], f) {
      var m := b[..size];
      var k, n :| 0 <= k <= n <= |m| && SpellsParts(m[..k], m[k..n], m[n..], f);
      assert m[..k] == b[..k] && m[k..n] == b[k..n] && m[n..] == b[n..size];
      SpelledIsRead(b, f, k, n, size);
    }
  }

  /** The encoder spells its field. */
  lemma FieldIsSpelled(f: Field)
    requires WellFormed(f)
    ensures SpellsField(EncodeField(f), f)
  {
    hide EncodeField, NextField, SpellsField;
    var e := EncodeField(f);
    NextOfEncoded(f, []);
    assert e + [] == e && e[..|e|] == e;
    FieldIsReadIff(e, f, |e|);
  }

  // ------------------------------------------------------------ messages

  /** A message is its fields, one after the other. */
  predicate SpellsMessage(b: seq<Byte>, fs: seq<Field>)
    decreases |fs|
  {
    if fs == [] then b == []
    else exists n | 0 <= n <= |b| :: SpellsField(b[..n], fs[0]) && SpellsMessage(b[n..], fs[1..])
  }

  /** The reader gets through a message with these fields if and only if the bytes spell it. */
  lemma {:induction false} MessageIsReadIff(b: seq<Byte>, fs: seq<Field>)
    ensures Complete(b) && Fields(b) == fs <==> SpellsMessage(b, fs)
    decreases |fs|
  {
    hide NextField, SpellsField;
    if fs != [] {
      if Complete(b) && Fields(b) == fs {
        var n := NextField(b).size;
        FieldIsReadIff(b, fs[0], n);
        MessageIsReadIff(b[n..], fs[1..]);
      }
      if SpellsMessage(b, fs) {
        var n :| 0 <= n <= |b| && SpellsField(b[..n], fs[0]) && SpellsMessage(b[n..], fs[1..]);
        FieldIsReadIff(b, fs[0], n);
        MessageIsReadIff(b[n..], fs[1..]);
        assert [fs[0]] + fs[1..] == fs;
      }
    }
  }

  // ------------------------------------------------------------ frames

  /** A frame is a length within the limit, and as many bytes. */
  predicate SpellsFrame(b: seq<Byte>, payload: seq<Byte>, limit: nat) {
    |payload| <= limit && exists n | 0 <= n <= |b| :: SpellsNumber(b[..n], |payload|) && b[n..] == payload
  }

  /** A whole frame is taken off the front of a stream if and only if the bytes it takes spell it. */
  lemma FrameIsTakenIff(b: seq<Byte>, payload: seq<Byte>, more: seq<Byte>, limit: nat)
    ensures HasFrame(b, limit) && FirstFrame(b, limit) == payload && AfterFrame(b, limit) == more <==>
      |more| <= |b| && b[|b| - |more|..] == more && SpellsFrame(b[..|b| - |more|], payload, limit)
  {
    hide ReadVarint, Word, IsVarint;
    if HasFrame(b, limit) && FirstFrame(b, limit) == payload && AfterFrame(b, limit) == more {
      NumberIsWord(b);
      var n := ReadVarint(b).value.1;
      var m := b[..|b| - |more|];
      assert m[..n] == b[..n] && m[n..] == payload;
    }
    if |more| <= |b| && b[|b| - |more|..] == more && SpellsFrame(b[..|b| - |more|], payload, limit) {
      var m := b[..|b| - |more|];
      var n :| 0 <= n <= |m| && SpellsNumber(m[..n], |payload|) && m[n..] == payload;
      assert m[..n] == b[..n] && b[n..n + |payload|] == payload;
      WordIsNumber(b, n);
    }
  }

  /** A stream is refused exactly for ten bytes with the top bit, or a spelled length above the limit. */
  lemma RefusedIff(b: seq<Byte>, limit: nat)
    ensures LengthRefused(b, limit) <==>
      || (|b| >= 10 && forall i | 0 <= i < 10 :: b[i] >= 128)
      || (exists n | 0 <= n <= |b| :: IsVarint(b[..n]) && Word(b[..n]) > limit)
  {
    hide Word;
    if ReadVarint(b).Some? {
      NumberIsWord(b);
    }
    forall n | 0 <= n <= |b| && IsVarint(b[..n]) ensures ReadVarint(b) == Some((Word(b[..n]), n)) {
      WordIsNumber(b, n);
    }
    if |b| >= 10 && forall i | 0 <= i < 10 :: b[i] >= 128 {
      assert Stop(b) >= 10;
    }
    hide ReadVarint, IsVarint;
  }
}
