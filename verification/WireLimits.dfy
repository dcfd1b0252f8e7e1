/**
 Where the codec reads less than the bytes say, or reads them otherwise than the
 Protocol Buffers wire format does, and exactly when it does not.
 */
module WireLimits {
  import opened Wrappers
  import opened Ints
  import opened Varint
  import opened Wire

  // ------------------------------------------------------------ the tenth byte

  /**
   A varint is read with the value its digits denote if and only if it has at
   most nine bytes, or the tenth adds no digit but the bit that is left of 64.
   */
  lemma VarintIsWholeIff(b: seq<Byte>)
    requires ReadVarint(b).Some?
    ensures var (v, n) := ReadVarint(b).value;
      v == Groups(b[..n]) <==> n < MAX_BYTES || b[MAX_BYTES - 1] % 128 < 2
  {
    var n := ReadVarint(b).value.1;
    if n < MAX_BYTES {
      NineBytesFit(b[..n]);
      SmallMod(Groups(b[..n]));
    } else {
      TenDigits(b[..MAX_BYTES - 1], b[MAX_BYTES - 1]);
      assert b[..n] == b[..MAX_BYTES - 1] + [b[MAX_BYTES - 1]];
    }
    hide Groups, Stop;
  }

  lemma TenDigits(p: seq<Byte>, b: Byte)
    requires |p| == MAX_BYTES - 1
    ensures Groups(p + [b]) < TWO64 <==> b % 128 < 2
  {
    hide Groups, Pow2;
    NineBytesFit(p);
    GroupsAppend(p, b);
    Pow2Values();
  }

  const NINE: seq<Byte> := [128, 128, 128, 128, 128, 128, 128, 128, 128]

  /** It does happen: ten bytes that denote 2^64 are read as 0. */
  lemma TenthByteIsLost()
    ensures Groups(NINE + [2]) == TWO64 && ReadVarint(NINE + [2]) == Some((0, 10))
  {
    var b := NINE + [2];
    StopIs(b, 9);
    assert b[..10] == b;
    ZeroDigits(9);
    assert NINE == seq(9, i => 128);
    GroupsAppend(NINE, 2);
    Pow2Values();
    hide Groups, Pow2;
  }

  lemma {:induction false} ZeroDigits(n: nat)
    ensures Groups(seq(n, i => 128)) == 0
  {
    if n != 0 {
      assert seq(n, i => 128)[1..] == seq(n - 1, i => 128);
      ZeroDigits(n - 1);
    }
  }

  // ------------------------------------------------------------ field numbers

  /** A field is read under the number its key holds if and only if the key is below 2^35. */
  lemma NumberIsWholeIff(b: seq<Byte>)
    requires NextField(b).Item?
    ensures var key := ReadVarint(b).value.0;
      NextField(b).field.number == key / 8 <==> key < 8 * TWO32
  {
    var key := ReadVarint(b).value.0;
    PayloadNumber(key / 8 % TWO32, key % 8, b[ReadVarint(b).value.1..], ReadVarint(b).value.1);
    CutToWord(key / 8);
    hide ReadVarint, ReadPayload;
  }

  lemma PayloadNumber(number: U32, wireType: nat, b: seq<Byte>, k: nat)
    requires ReadPayload(number, wireType, b, k).Item?
    ensures ReadPayload(number, wireType, b, k).field.number == number
  {
    hide ReadVarint;
  }

  lemma CutToWord(n: nat)
    ensures n % TWO32 == n <==> n < TWO32
  {
  }

  /** It does happen, for every value: a key with number 2^32 + 1 is read as one with number 1. */
  lemma LargeNumberIsCut(v: U64)
    ensures var b := EncodeVarint(Key(1, 0) + 8 * TWO32) + EncodeVarint(v);
      && NextField(b) == Item(VarintField(1, v), |b|)
      && ReadVarint(b).Some? && ReadVarint(b).value.0 / 8 == TWO32 + 1
  {
    hide EncodeVarint, ReadVarint;
    var key := Key(1, 0) + 8 * TWO32;
    var e, p := EncodeVarint(key), EncodeVarint(v);
    VarintRoundTrip(key, p);
    VarintRoundTrip(v, []);
    assert (e + p)[|e|..] == p && p + [] == p;
    assert key / 8 == TWO32 + 1 && key % 8 == 0;
  }

  // ------------------------------------------------------------ the last one wins

  /** All values a message has under a number, in order. */
  function Varints(fs: seq<Field>, number: U32): seq<U64> {
    if fs == [] then []
    else (if fs[0].VarintField? && fs[0].number == number then [fs[0].value] else []) + Varints(fs[1..], number)
  }

  function Strings(fs: seq<Field>, number: U32): seq<seq<Byte>> {
    if fs == [] then []
    else (if fs[0].BytesField? && fs[0].number == number then [fs[0].bytes] else []) + Strings(fs[1..], number)
  }

  /** The scan that lets the last value win. */
  function Last<T>(values: seq<T>): Option<T> {
    if values == [] then None else Some(values[|values| - 1])
  }

  function First<T>(values: seq<T>): Option<T> {
    if values == [] then None else Some(values[0])
  }

  lemma {:induction false} ScansTakeTheFirst(fs: seq<Field>, number: U32)
    ensures FirstVarint(fs, number) == First(Varints(fs, number))
    ensures FirstBytes(fs, number) == First(Strings(fs, number))
  {
    if fs != [] {
      ScansTakeTheFirst(fs[1..], number);
    }
  }

  /**
   A scan yields what the last value would if and only if the number has no value,
   or its last value is its first; so always when it occurs at most once.
   */
  lemma FirstIsLastIff(fs: seq<Field>, number: U32)
    ensures var vs := Varints(fs, number);
      && (FirstVarint(fs, number) == Last(vs) <==> |vs| <= 1 || vs[0] == vs[|vs| - 1])
    ensures var bs := Strings(fs, number);
      && (FirstBytes(fs, number) == Last(bs) <==> |bs| <= 1 || bs[0] == bs[|bs| - 1])
  {
    hide FirstVarint, FirstBytes, Varints, Strings;
    ScansTakeTheFirst(fs, number);
  }

  lemma {:induction false} VarintsOfConcat(fs: seq<Field>, gs: seq<Field>, number: U32)
    ensures Varints(fs + gs, number) == Varints(fs, number) + Varints(gs, number)
  {
    if fs == [] {
      assert fs + gs == gs;
    } else {
      var head := if fs[0].VarintField? && fs[0].number == number then [fs[0].value] else [];
      assert (fs + gs)[1..] == fs[1..] + gs;
      VarintsOfConcat(fs[1..], gs, number);
      Regroup(head, Varints(fs[1..], number), Varints(gs, number));
    }
  }

  lemma {:induction false} StringsOfConcat(fs: seq<Field>, gs: seq<Field>, number: U32)
    ensures Strings(fs + gs, number) == Strings(fs, number) + Strings(gs, number)
  {
    if fs == [] {
      assert fs + gs == gs;
    } else {
      var head := if fs[0].BytesField? && fs[0].number == number then [fs[0].bytes] else [];
      assert (fs + gs)[1..] == fs[1..] + gs;
      StringsOfConcat(fs[1..], gs, number);
      Regroup(head, Strings(fs[1..], number), Strings(gs, number));
    }
  }

  lemma Regroup<T>(a: seq<T>, b: seq<T>, c: seq<T>)
    ensures a + (b + c) == a + b + c
  {
  }

  /**
   It does happen, to every complete message with a value: append another value
   under the same number, and the scan still yields the first.
   */
  lemma AppendedValueIsIgnored(m: seq<Byte>, number: U32, w: U64)
    requires Complete(m) && number > 0 && FirstVarint(Fields(m), number).Some?
    ensures var fs := Fields(m + EncodeField(VarintField(number, w)));
      && FirstVarint(fs, number) == FirstVarint(Fields(m), number)
      && Last(Varints(fs, number)) == Some(w)
  {
    hide Complete, Fields, EncodeField;
    var f := VarintField(number, w);
    OneFieldIsRead(f);
    FieldsOfConcat(m, EncodeField(f));
    FirstOfConcat(Fields(m), [f], number);
    VarintsOfConcat(Fields(m), [f], number);
    assert [f][1..] == [] && Varints([f], number) == [w];
  }

  lemma AppendedBytesAreIgnored(m: seq<Byte>, number: U32, w: seq<Byte>)
    requires Complete(m) && number > 0 && |w| < TWO64 && FirstBytes(Fields(m), number).Some?
    ensures var fs := Fields(m + EncodeField(BytesField(number, w)));
      && FirstBytes(fs, number) == FirstBytes(Fields(m), number)
      && Last(Strings(fs, number)) == Some(w)
  {
    hide Complete, Fields, EncodeField;
    var f := BytesField(number, w);
    OneFieldIsRead(f);
    FieldsOfConcat(m, EncodeField(f));
    FirstOfConcat(Fields(m), [f], number);
    StringsOfConcat(Fields(m), [f], number);
    assert [f][1..] == [] && Strings([f], number) == [w];
  }

  lemma OneFieldIsRead(f: Field)
    requires WellFormed(f)
    ensures Fields(EncodeField(f)) == [f]
  {
    hide EncodeField, NextField;
    assert [f][1..] == [] && EncodeField(f) + [] == EncodeField(f);
    assert EncodeFields([f]) == EncodeField(f);
    ReaderInvertsWriter([f]);
  }
}
