/**
 The Protocol Buffers wire format as src/proto_wire.cpp reads and writes it:
 fields, the valid prefix of a message, the `Writer` and `Reader` objects and
 the `find*` scans.
 */
module Wire {
  import opened Wrappers
  import opened Ints
  import opened Varint

  /** A field as the reader yields it; the constructor is the wire type. */
  datatype Field =
    | VarintField(number: U32, value: U64)
    | Fixed64Field(number: U32, bytes: seq<Byte>)
    | BytesField(number: U32, bytes: seq<Byte>)
    | Fixed32Field(number: U32, bytes: seq<Byte>)

  /** What reading one field off the front of `b` comes to. */
  datatype Next = End | Malformed | Item(field: Field, size: nat)

  /** The field number is cut to 32 bits before it is looked at. */
  function NextField(b: seq<Byte>): (r: Next)
    ensures r.Item? ==> 0 < r.size <= |b|
    ensures r.End? <==> b == []
  {
    if b == [] then End else
    match ReadVarint(b)
    case None => Malformed
    case Some((key, k)) =>
      var number := key / 8 % TWO32;
      if number == 0 then Malformed else ReadPayload(number, key % 8, b[k..], k)
  }

  function ReadPayload(number: U32, wireType: nat, b: seq<Byte>, k: nat): (r: Next)
    ensures r.Item? ==> k <= r.size <= k + |b|
  {
    if wireType == 0 then
      match ReadVarint(b)
      case None => Malformed
      case Some((v, n)) => Item(VarintField(number, v), k + n)
    else if wireType == 1 then
      if |b| < 8 then Malformed else Item(Fixed64Field(number, b[..8]), k + 8)
    else if wireType == 2 then
      match ReadVarint(b)
      case None => Malformed
      case Some((size, n)) =>
        if size > |b| - n then Malformed
        else Item(BytesField(number, b[n..n + size]), k + n + size)
    else if wireType == 5 then
      if |b| < 4 then Malformed else Item(Fixed32Field(number, b[..4]), k + 4)
    else
      Malformed
  }

  /** The fields of the longest valid prefix of a message. */
  function Fields(b: seq<Byte>): seq<Field> {
    match NextField(b)
    case Item(f, n) => [f] + Fields(b[n..])
    case _ => []
  }

  /** The message is nothing but valid fields. */
  predicate Complete(b: seq<Byte>) {
    match NextField(b)
    case Item(f, n) => Complete(b[n..])
    case End => true
    case Malformed => false
  }

  function Key(number: U32, wireType: nat): nat {
    number * 8 + wireType
  }

  function WireType(f: Field): (t: nat)
    ensures t < 8
  {
    match f
    case VarintField(_, _) => 0
    case Fixed64Field(_, _) => 1
    case BytesField(_, _) => 2
    case Fixed32Field(_, _) => 5
  }

  function Payload(f: Field): seq<Byte> {
    match f
    case VarintField(_, v) => EncodeVarint(v)
    case Fixed64Field(_, d) => d
    case BytesField(_, d) => EncodeVarint(|d|) + d
    case Fixed32Field(_, d) => d
  }

  /** The encoding of one field, its varints as short as they can be. */
  function EncodeField(f: Field): (b: seq<Byte>)
    ensures |b| > 0
  {
    EncodeVarint(Key(f.number, WireType(f))) + Payload(f)
  }

  function EncodeFields(fs: seq<Field>): seq<Byte> {
    if fs == [] then [] else EncodeField(fs[0]) + EncodeFields(fs[1..])
  }

  lemma {:induction false} EncodeOneMore(fs: seq<Field>, f: Field)
    ensures EncodeFields(fs + [f]) == EncodeFields(fs) + EncodeField(f)
  {
    hide EncodeField;
    if fs == [] {
      assert fs + [f] == [f];
    } else {
      assert (fs + [f])[1..] == fs[1..] + [f];
      EncodeOneMore(fs[1..], f);
    }
  }

  /** Number 1..2^32-1, and a size that fits the wire type (and the machine). */
  predicate WellFormed(f: Field) {
    && f.number > 0
    && (f.Fixed64Field? ==> |f.bytes| == 8)
    && (f.BytesField? ==> |f.bytes| < TWO64)
    && (f.Fixed32Field? ==> |f.bytes| == 4)
  }

  // -------------------------------------------------- prefixes and concatenation

  lemma NextOfPrefix(b: seq<Byte>, rest: seq<Byte>)
    requires NextField(b).Item?
    ensures NextField(b + rest) == NextField(b)
  {
    ReadVarintOfPrefix(b, rest);
    var (key, k) := ReadVarint(b).value;
    assert (b + rest)[k..] == b[k..] + rest;
    PayloadOfPrefix(key / 8 % TWO32, key % 8, b[k..], k, rest);
  }

  lemma PayloadOfPrefix(number: U32, wireType: nat, b: seq<Byte>, k: nat, rest: seq<Byte>)
    requires ReadPayload(number, wireType, b, k).Item?
    ensures ReadPayload(number, wireType, b + rest, k) == ReadPayload(number, wireType, b, k)
  {
    if wireType == 0 || wireType == 2 {
      ReadVarintOfPrefix(b, rest);
      var (v, n) := ReadVarint(b).value;
      assert wireType == 2 ==> (b + rest)[n..n + v] == b[n..n + v];
    } else {
      var n := if wireType == 1 then 8 else 4;
      assert (b + rest)[..n] == b[..n];
    }
  }

  /** Whatever follows, the fields already read stay read: even after a truncated message. */
  lemma {:induction false} FieldsOfPrefix(b: seq<Byte>, rest: seq<Byte>)
    ensures Fields(b) <= Fields(b + rest)
    decreases |b|
  {
    if NextField(b).Item? {
      var n := NextField(b).size;
      NextOfPrefix(b, rest);
      assert (b + rest)[n..] == b[n..] + rest;
      FieldsOfPrefix(b[n..], rest);
    }
  }

  lemma FieldsOfItem(b: seq<Byte>)
    requires NextField(b).Item?
    ensures Fields(b) == [NextField(b).field] + Fields(b[NextField(b).size..])
    ensures Complete(b) <==> Complete(b[NextField(b).size..])
  {
    hide NextField;
  }

  /** Concatenating onto a complete message concatenates the fields. */
  lemma {:induction false} FieldsOfConcat(b: seq<Byte>, rest: seq<Byte>)
    requires Complete(b)
    ensures Fields(b + rest) == Fields(b) + Fields(rest)
    ensures Complete(b + rest) <==> Complete(rest)
    decreases |b|
  {
    hide NextField;
    if NextField(b).Item? {
      var f, n := NextField(b).field, NextField(b).size;
      NextOfPrefix(b, rest);
      assert (b + rest)[n..] == b[n..] + rest;
      FieldsOfConcat(b[n..], rest);
      FieldsOfItem(b);
      FieldsOfItem(b + rest);
      hide Fields, Complete;
      assert [f] + (Fields(b[n..]) + Fields(rest)) == [f] + Fields(b[n..]) + Fields(rest);
    } else {
      assert b + rest == rest;
    }
  }

  // ------------------------------------------------------- encoding and decoding

  lemma KeyRoundTrip(number: U32, wireType: nat, rest: seq<Byte>)
    requires number > 0 && wireType < 8
    ensures var e := EncodeVarint(Key(number, wireType));
      && (e + rest)[|e|..] == rest
      && NextField(e + rest) == ReadPayload(number, wireType, rest, |e|)
  {
    hide EncodeVarint, ReadVarint, ReadPayload;
    var e := EncodeVarint(Key(number, wireType));
    VarintRoundTrip(Key(number, wireType), rest);
    assert (e + rest)[|e|..] == rest;
    KeyParts(number, wireType);
    hide Key;
  }

  lemma KeyParts(number: U32, wireType: nat)
    requires wireType < 8
    ensures Key(number, wireType) / 8 == number && Key(number, wireType) % 8 == wireType
  {
  }

  lemma PayloadRoundTrip(f: Field, rest: seq<Byte>, k: nat)
    requires WellFormed(f)
    ensures ReadPayload(f.number, WireType(f), Payload(f) + rest, k) == Item(f, k + |Payload(f)|)
  {
    hide ReadVarint, EncodeVarint;
    match f
    case VarintField(_, v) => VarintRoundTrip(v, rest);
    case Fixed64Field(_, d) => assert (d + rest)[..8] == d;
    case Fixed32Field(_, d) => assert (d + rest)[..4] == d;
    case BytesField(number, d) => BytesRoundTrip(number, d, rest, k);
  }

  lemma BytesRoundTrip(number: U32, d: seq<Byte>, rest: seq<Byte>, k: nat)
    requires |d| < TWO64
    ensures ReadPayload(number, 2, EncodeVarint(|d|) + d + rest, k) ==
      Item(BytesField(number, d), k + |EncodeVarint(|d|)| + |d|)
  {
    hide ReadVarint, EncodeVarint;
    var e := EncodeVarint(|d|);
    assert e + d + rest == e + (d + rest);
    VarintRoundTrip(|d|, d + rest);
    assert (e + (d + rest))[|e|..|e| + |d|] == d;
  }

  /** The reader takes exactly one encoded field off the front and yields it back. */
  lemma NextOfEncoded(f: Field, rest: seq<Byte>)
    requires WellFormed(f)
    ensures NextField(EncodeField(f) + rest) == Item(f, |EncodeField(f)|)
  {
    var e := EncodeVarint(Key(f.number, WireType(f)));
    assert EncodeField(f) + rest == e + (Payload(f) + rest);
    KeyRoundTrip(f.number, WireType(f), Payload(f) + rest);
    PayloadRoundTrip(f, rest, |e|);
  }

  /** For any sequence of writes the reader yields exactly what was written, to the last byte. */
  lemma {:induction false} ReaderInvertsWriter(fs: seq<Field>)
    requires forall f | f in fs :: WellFormed(f)
    ensures Fields(EncodeFields(fs)) == fs && Complete(EncodeFields(fs))
  {
    if fs != [] {
      var e := EncodeField(fs[0]);
      NextOfEncoded(fs[0], EncodeFields(fs[1..]));
      assert (e + EncodeFields(fs[1..]))[|e|..] == EncodeFields(fs[1..]);
      ReaderInvertsWriter(fs[1..]);
    }
  }

  /** An encoded field is at most two varints longer than its bytes. */
  lemma EncodedFieldSize(f: Field)
    requires WellFormed(f)
    ensures |EncodeField(f)| <= 20 + if f.VarintField? then 0 else |f.bytes|
  {
    VarintRoundTrip(Key(f.number, WireType(f)), []);
    match f
    case VarintField(_, v) => VarintRoundTrip(v, []);
    case BytesField(_, d) => VarintRoundTrip(|d|, []);
    case _ =>
  }

  /** A field that was read can be written, in no more bytes than it was read from. */
  lemma NextIsWritable(b: seq<Byte>)
    requires NextField(b).Item?
    ensures WellFormed(NextField(b).field)
    ensures |EncodeField(NextField(b).field)| <= NextField(b).size
  {
    var (key, k) := ReadVarint(b).value;
    VarintIsShortest(b);
    var number, wireType := key / 8 % TWO32, key % 8;
    assert Key(number, wireType) <= key;
    EncodedLengthMonotone(Key(number, wireType), key);
    if wireType == 0 || wireType == 2 {
      VarintIsShortest(b[k..]);
    }
  }

  lemma {:induction false} EncodedLengthMonotone(v: nat, w: nat)
    requires v <= w
    ensures |EncodeVarint(v)| <= |EncodeVarint(w)|
  {
    if v >= 128 {
      EncodedLengthMonotone(v / 128, w / 128);
    }
  }

  /**
   Re-encoding the fields of any completely read message, whatever non-minimal
   varints and wire types it used, gives a complete message with the same
   fields, and none with these fields is shorter.
   */
  lemma Canonicalisation(m: seq<Byte>)
    requires Complete(m)
    ensures var c := EncodeFields(Fields(m));
      Complete(c) && Fields(c) == Fields(m) && |c| <= |m|
  {
    ReadFieldsAreWritable(m);
    ReaderInvertsWriter(Fields(m));
  }

  lemma {:induction false} ReadFieldsAreWritable(m: seq<Byte>)
    ensures forall f | f in Fields(m) :: WellFormed(f)
    ensures |EncodeFields(Fields(m))| <= |m|
    decreases |m|
  {
    if NextField(m).Item? {
      var n := NextField(m).size;
      NextIsWritable(m);
      ReadFieldsAreWritable(m[n..]);
      assert Fields(m)[1..] == Fields(m[n..]);
    }
  }

  // -------------------------------------------------------------- the scans

  function FirstVarint(fs: seq<Field>, number: U32): Option<U64> {
    if fs == [] then None
    else if fs[0].VarintField? && fs[0].number == number then Some(fs[0].value)
    else FirstVarint(fs[1..], number)
  }

  function FirstBytes(fs: seq<Field>, number: U32): Option<seq<Byte>> {
    if fs == [] then None
    else if fs[0].BytesField? && fs[0].number == number then Some(fs[0].bytes)
    else FirstBytes(fs[1..], number)
  }

  predicate HasNumber(fs: seq<Field>, number: U32) {
    fs != [] && (fs[0].number == number || HasNumber(fs[1..], number))
  }

  /** The first match wins, on the fields of one message after those of another. */
  lemma {:induction false} FirstOfConcat(fs: seq<Field>, gs: seq<Field>, number: U32)
    ensures FirstVarint(fs + gs, number) ==
      if FirstVarint(fs, number).Some? then FirstVarint(fs, number) else FirstVarint(gs, number)
    ensures FirstBytes(fs + gs, number) ==
      if FirstBytes(fs, number).Some? then FirstBytes(fs, number) else FirstBytes(gs, number)
    ensures HasNumber(fs + gs, number) <==> HasNumber(fs, number) || HasNumber(gs, number)
  {
    if fs == [] {
      assert fs + gs == gs;
    } else {
      assert (fs + gs)[1..] == fs[1..] + gs;
      FirstOfConcat(fs[1..], gs, number);
    }
  }

  /** A scan of a complete message followed by another finds the first one's answer, or else the second's. */
  lemma FindInConcat(m: seq<Byte>, rest: seq<Byte>, number: U32)
    requires Complete(m)
    ensures FirstVarint(Fields(m + rest), number) ==
      if FirstVarint(Fields(m), number).Some? then FirstVarint(Fields(m), number)
      else FirstVarint(Fields(rest), number)
    ensures FirstBytes(Fields(m + rest), number) ==
      if FirstBytes(Fields(m), number).Some? then FirstBytes(Fields(m), number)
      else FirstBytes(Fields(rest), number)
    ensures HasNumber(Fields(m + rest), number) <==>
      HasNumber(Fields(m), number) || HasNumber(Fields(rest), number)
  {
    FieldsOfConcat(m, rest);
    FirstOfConcat(Fields(m), Fields(rest), number);
  }

  /** The bytes already taken by the key only shift the size. */
  lemma PayloadOffset(number: U32, wireType: nat, b: seq<Byte>, k: nat)
    ensures var r, r0 := ReadPayload(number, wireType, b, k), ReadPayload(number, wireType, b, 0);
      r == if r0.Item? then Item(r0.field, k + r0.size) else Malformed
  {
  }

  /** A slice of what is left from an offset on. */
  lemma SliceOfRest(b: seq<Byte>, offset: nat, n: nat, size: nat)
    requires offset + n + size <= |b|
    ensures b[offset..][n..n + size] == b[offset + n..offset + n + size]
    ensures b[offset..][n..] == b[offset + n..]
  {
  }

  lemma Regrouped(a: seq<Byte>, b: seq<Byte>, c: seq<Byte>, d: seq<Byte>)
    ensures a + b + c + d == a + (b + (c + d))
    ensures d == [] ==> a + b + c == a + (b + c)
  {
  }

  lemma OneByteOn(p: seq<Byte>, b: seq<Byte>, offset: nat)
    requires offset < |b|
    ensures p + b[offset..] == p + [b[offset]] + b[offset + 1..]
  {
  }

  lemma DropPrefix(p: seq<Byte>, rest: seq<Byte>)
    ensures (p + rest)[|p|..] == rest
  {
  }

  // ------------------------------------------------------------- the objects

  /** A message under construction; `fields` are the fields written to it. */
  class Writer {
    var data: seq<Byte>
    ghost var fields: seq<Field>

    ghost predicate Valid()
      reads this
    {
      data == EncodeFields(fields)
    }

    constructor ()
      ensures Valid() && fields == []
    {
      data, fields := [], [];
    }

    method PutVarint(value: U64)
      modifies this`data
      ensures data == old(data) + EncodeVarint(value)
    {
      var v := value;
      while v >= 128
        invariant 0 <= v < TWO64
        invariant data + EncodeVarint(v) == old(data) + EncodeVarint(value)
      {
        data := data + [v % 128 + 128];
        v := v / 128;
      }
      data := data + [v];
    }

    method PutKey(number: U32, wireType: nat)
      requires wireType < 8
      modifies this`data
      ensures data == old(data) + EncodeVarint(Key(number, wireType))
    {
      PutVarint(number * 8 + wireType);
    }

    method PutVarintField(number: U32, value: U64)
      requires Valid()
      modifies this
      ensures Valid() && fields == old(fields) + [VarintField(number, value)]
    {
      hide EncodeVarint, EncodeFields;
      ghost var before := data;
      PutKey(number, 0);
      PutVarint(value);
      Regrouped(before, EncodeVarint(Key(number, 0)), EncodeVarint(value), []);
      EncodeOneMore(fields, VarintField(number, value));
      fields := fields + [VarintField(number, value)];
    }

    method PutBytesField(number: U32, value: seq<Byte>)
      requires Valid() && |value| < TWO64
      modifies this
      ensures Valid() && fields == old(fields) + [BytesField(number, value)]
    {
      hide EncodeVarint, EncodeFields;
      ghost var before := data;
      PutKey(number, 2);
      PutVarint(|value|);
      data := data + value;
      Regrouped(before, EncodeVarint(Key(number, 2)), EncodeVarint(|value|), value);
      EncodeOneMore(fields, BytesField(number, value));
      fields := fields + [BytesField(number, value)];
    }

    method PutMessageField(number: U32, nested: Writer)
      requires Valid() && nested != this && |nested.data| < TWO64
      modifies this
      ensures Valid() && fields == old(fields) + [BytesField(number, nested.data)]
    {
      PutBytesField(number, nested.data);
    }
  }

  /** What follows the next field. */
  ghost function Tail(b: seq<Byte>): (r: seq<Byte>)
    requires NextField(b).Item?
    ensures |r| < |b|
  {
    b[NextField(b).size..]
  }

  class Reader {
    const bytes: seq<Byte>
    var offset: nat
    var ok: bool

    ghost predicate Valid()
      reads this
    {
      offset <= |bytes|
    }

    ghost function Remaining(): seq<Byte>
      reads this
      requires Valid()
    {
      bytes[offset..]
    }

    constructor (bytes: seq<Byte>)
      ensures Valid() && ok && offset == 0 && this.bytes == bytes && Remaining() == bytes
    {
      this.bytes := bytes;
      offset, ok := 0, true;
    }

    method TakeVarint() returns (good: bool, value: U64)
      requires Valid()
      modifies this
      ensures Valid() && ok == (old(ok) && good)
      ensures good <==> ReadVarint(old(Remaining())).Some?
      ensures good ==>
        && ReadVarint(old(Remaining())) == Some((value, offset - old(offset)))
        && Remaining() == old(Remaining())[offset - old(offset)..]
      ensures offset >= old(offset)
    {
      hide Accumulate, ReadVarint, Consumed;
      value := 0;
      var shift: nat := 0;
      ghost var input, rest, p: seq<Byte> := Remaining(), Remaining(), [];
      NothingConsumed();
      while offset < |bytes| && shift <= 63
        invariant old(offset) <= offset <= |bytes| && ok == old(ok)
        invariant rest == Remaining() && input == p + rest
        invariant |p| == offset - old(offset) <= MAX_BYTES && shift == 7 * |p| && Consumed(p, value)
      {
        var byte := bytes[offset];
        OneByteOn(p, bytes, offset);
        offset := offset + 1;
        rest := Remaining();
        ConsumeByte(p, value, byte, rest);
        value := Accumulate(value, byte, shift);
        p := p + [byte];
        if byte < 128 {
          DropPrefix(p, rest);
          return true, value;
        }
        shift := shift + 7;
      }
      ConsumedAll(p, value, rest);
      ok := false;
      return false, value;
    }

    /** The part of `Next` after the key: the switch over the wire type. */
    method TakePayload(number: U32, wireType: nat) returns (more: bool, field: Field)
      requires Valid() && ok
      modifies this
      ensures Valid() && ok == more && offset >= old(offset)
      ensures var r := ReadPayload(number, wireType, old(Remaining()), 0);
        && (more <==> r.Item?)
        && (more ==> r == Item(field, offset - old(offset)))
    {
      hide ReadVarint;
      field := VarintField(0, 0);
      more := true;
      if wireType == 0 {
        var value;
        more, value := TakeVarint();
        field := VarintField(number, value);
      } else if wireType == 1 {
        if |bytes| - offset < 8 {
          ok := false;
          return false, field;
        }
        field := Fixed64Field(number, bytes[offset..offset + 8]);
        SliceOfRest(bytes, offset, 0, 8);
        offset := offset + 8;
      } else if wireType == 2 {
        var good, size := TakeVarint();
        if !good || size > |bytes| - offset {
          ok := false;
          return false, field;
        }
        field := BytesField(number, bytes[offset..offset + size]);
        SliceOfRest(bytes, old(offset), offset - old(offset), size);
        offset := offset + size;
      } else if wireType == 5 {
        if |bytes| - offset < 4 {
          ok := false;
          return false, field;
        }
        field := Fixed32Field(number, bytes[offset..offset + 4]);
        SliceOfRest(bytes, offset, 0, 4);
        offset := offset + 4;
      } else {
        ok := false;
        return false, field;
      }
    }

    /** Yields the next field; `ok` tells the end of the message from a malformed field. */
    method Next() returns (more: bool, field: Field)
      requires Valid()
      modifies this
      ensures Valid() && offset >= old(offset)
      ensures more <==> old(ok) && NextField(old(Remaining())).Item?
      ensures ok <==> old(ok) && !NextField(old(Remaining())).Malformed?
      ensures more ==> NextField(old(Remaining())) == Item(field, offset - old(offset))
      ensures Remaining() == old(Remaining())[offset - old(offset)..]
      ensures more ==> Remaining() == Tail(old(Remaining()))
    {
      field := VarintField(0, 0);
      if !ok || offset >= |bytes| {
        return false, field;
      }
      ghost var input := Remaining();
      var good, key := TakeVarint();
      if !good {
        return false, field;
      }
      var number := key / 8 % TWO32;
      if number == 0 {
        ok := false;
        return false, field;
      }
      ghost var k := offset - old(offset);
      PayloadOffset(number, key % 8, Remaining(), k);
      more, field := TakePayload(number, key % 8);
    }
  }

  /** A scan looks at the next field, and then at the rest. */
  lemma ScanOfNext(b: seq<Byte>, number: U32)
    requires NextField(b).Item?
    ensures var f, rest := NextField(b).field, Fields(Tail(b));
      && FirstVarint(Fields(b), number) ==
          (if f.VarintField? && f.number == number then Some(f.value) else FirstVarint(rest, number))
      && FirstBytes(Fields(b), number) ==
          (if f.BytesField? && f.number == number then Some(f.bytes) else FirstBytes(rest, number))
      && (HasNumber(Fields(b), number) <==> f.number == number || HasNumber(rest, number))
  {
    hide NextField;
    var f, rest := NextField(b).field, Fields(Tail(b));
    FieldsOfItem(b);
    assert ([f] + rest)[1..] == rest;
    hide Fields;
  }

  lemma ScanOfNothing(b: seq<Byte>, number: U32)
    requires !NextField(b).Item?
    ensures FirstVarint(Fields(b), number) == None && FirstBytes(Fields(b), number) == None
    ensures !HasNumber(Fields(b), number)
  {
    hide NextField;
  }

  method FindVarint(message: seq<Byte>, number: U32) returns (r: Option<U64>)
    ensures r == FirstVarint(Fields(message), number)
  {
    hide NextField, Fields, FirstVarint, FirstBytes, HasNumber, Tail, Reader.Remaining;
    var reader := new Reader(message);
    ghost var at := message;
    var more, field := reader.Next();
    while more
      invariant reader.Valid() && (more ==> reader.ok)
      invariant more <==> NextField(at).Item?
      invariant more ==> NextField(at).field == field && reader.Remaining() == Tail(at)
      invariant FirstVarint(Fields(message), number) == FirstVarint(Fields(at), number)
      decreases |at|
    {
      ScanOfNext(at, number);
      if field.VarintField? && field.number == number {
        return Some(field.value);
      }
      at := reader.Remaining();
      more, field := reader.Next();
    }
    ScanOfNothing(at, number);
    return None;
  }

  method FindBytes(message: seq<Byte>, number: U32) returns (r: Option<seq<Byte>>)
    ensures r == FirstBytes(Fields(message), number)
  {
    hide NextField, Fields, FirstVarint, FirstBytes, HasNumber, Tail, Reader.Remaining;
    var reader := new Reader(message);
    ghost var at := message;
    var more, field := reader.Next();
    while more
      invariant reader.Valid() && (more ==> reader.ok)
      invariant more <==> NextField(at).Item?
      invariant more ==> NextField(at).field == field && reader.Remaining() == Tail(at)
      invariant FirstBytes(Fields(message), number) == FirstBytes(Fields(at), number)
      decreases |at|
    {
      ScanOfNext(at, number);
      if field.BytesField? && field.number == number {
        return Some(field.bytes);
      }
      at := reader.Remaining();
      more, field := reader.Next();
    }
    ScanOfNothing(at, number);
    return None;
  }

  method HasField(message: seq<Byte>, number: U32) returns (r: bool)
    ensures r == HasNumber(Fields(message), number)
  {
    hide NextField, Fields, FirstVarint, FirstBytes, HasNumber, Tail, Reader.Remaining;
    var reader := new Reader(message);
    ghost var at := message;
    var more, field := reader.Next();
    while more
      invariant reader.Valid() && (more ==> reader.ok)
      invariant more <==> NextField(at).Item?
      invariant more ==> NextField(at).field == field && reader.Remaining() == Tail(at)
      invariant HasNumber(Fields(message), number) == HasNumber(Fields(at), number)
      decreases |at|
    {
      ScanOfNext(at, number);
      if field.number == number {
        return true;
      }
      at := reader.Remaining();
      more, field := reader.Next();
    }
    ScanOfNothing(at, number);
    return false;
  }
}
