/**
 The remote messages of a television: which messages say what, in whatever way
 they are encoded, and that the client's parser (`parseRemote`,
 src/protocol_messages.cpp) reads exactly that.
 */
module PeerMessages {
  import opened Wrappers
  import opened Ints
  import opened Wire
  import opened Messages

  // ------------------------------------------------------------- what is said

  /** The `int32` v, widened in any way; a zero may be left out. */
  predicate SaysInt(fs: seq<Field>, number: U32, v: I32) {
    match FirstVarint(fs, number)
    case None => v == 0
    case Some(w) => w % TWO32 == AsU32(v)
  }

  predicate SaysWord(fs: seq<Field>, number: U32, v: U32) {
    match FirstVarint(fs, number)
    case None => v == 0
    case Some(w) => w % TWO32 == v
  }

  predicate SaysFlag(fs: seq<Field>, number: U32, flag: bool) {
    match FirstVarint(fs, number)
    case None => !flag
    case Some(w) => flag <==> w != 0
  }

  predicate SaysText(fs: seq<Field>, number: U32, text: seq<Byte>) {
    match FirstBytes(fs, number)
    case None => text == []
    case Some(b) => text == b
  }

  predicate SaysDevice(fs: seq<Field>, d: DeviceInfo) {
    SaysText(fs, 1, d.model) && SaysText(fs, 2, d.manufacturer) && SaysText(fs, 6, d.softwareVersion)
  }

  /** The fields of the bytes under a number; none if there are no such bytes. */
  function Under(fs: seq<Field>, number: U32): seq<Field> {
    match FirstBytes(fs, number)
    case None => []
    case Some(b) => Fields(b)
  }

  function Number(i: Incoming): U32
    requires !i.Unknown?
  {
    match i
    case Configure(_, _) => 1
    case SetActive => 2
    case RemoteError => 3
    case Ping(_) => 8
    case ImeKeyInject(_) => 20
    case ImeBatchEdit(_, _) => 21
    case VoiceStarted(_) => 30
    case Start(_) => 40
    case Volume(_) => 50
  }

  /** The fields of the nested message say what is in the message. */
  predicate Says(fs: seq<Field>, i: Incoming)
    requires !i.Unknown?
  {
    match i
    case Configure(supported, d) => SaysInt(fs, 1, supported) && SaysDevice(Under(fs, 2), d)
    case SetActive => true
    case RemoteError => true
    case Ping(v) => SaysInt(fs, 1, v)
    case ImeKeyInject(app) => SaysText(Under(fs, 1), 12, app)
    case ImeBatchEdit(ime, field) => SaysInt(fs, 1, ime) && SaysInt(fs, 2, field)
    case VoiceStarted(session) => SaysInt(fs, 1, session)
    case Start(started) => SaysFlag(fs, 1, started)
    case Volume(v) => SaysWord(fs, 6, v.maximum) && SaysWord(fs, 7, v.level) && SaysFlag(fs, 8, v.muted)
  }

  /** A message carries i: its first known field does, or it has none and says nothing. */
  predicate Carries(m: seq<Byte>, i: Incoming) {
    match FirstKnown(Fields(m))
    case None => i.Unknown?
    case Some(f) => !i.Unknown? && f.number == Number(i) && Says(Fields(f.bytes), i)
  }

  // ------------------------------------------------------------- what is read

  lemma IntIsRead(fs: seq<Field>, number: U32, v: I32)
    ensures SaysInt(fs, number, v) <==> AsI32(FirstVarint(fs, number)) == v
  {
    hide FirstVarint;
  }

  lemma DeviceIsRead(nested: seq<Byte>, d: DeviceInfo)
    ensures SaysDevice(Under(Fields(nested), 2), d) <==> ReadDevice(nested) == d
  {
    assert FirstBytes([], 1) == None && FirstBytes([], 2) == None && FirstBytes([], 6) == None;
    hide Fields, FirstBytes;
  }

  lemma AppIsRead(nested: seq<Byte>, app: seq<Byte>)
    ensures SaysText(Under(Fields(nested), 1), 12, app) <==> ReadApp(nested) == app
  {
    assert FirstBytes([], 12) == None;
    hide Fields, FirstBytes;
  }

  lemma NestedIsRead(number: U32, nested: seq<Byte>, i: Incoming)
    requires Known(number) && !i.Unknown? && number == Number(i)
    ensures Says(Fields(nested), i) <==> Meaning(number, nested) == i
  {
    hide Fields, FirstVarint, FirstBytes, SaysInt, SaysDevice, Under, ReadDevice, ReadApp, AsI32;
    var fs := Fields(nested);
    if i.Configure? {
      IntIsRead(fs, 1, i.supported);
      DeviceIsRead(nested, i.device);
    } else if i.ImeKeyInject? {
      AppIsRead(nested, i.app);
    } else if i.Ping? {
      IntIsRead(fs, 1, i.value);
    } else if i.ImeBatchEdit? {
      IntIsRead(fs, 1, i.imeCounter);
      IntIsRead(fs, 2, i.fieldCounter);
    } else if i.VoiceStarted? {
      IntIsRead(fs, 1, i.session);
    }
  }

  lemma KindIsNumber(number: U32, nested: seq<Byte>)
    requires Known(number)
    ensures !Meaning(number, nested).Unknown? && Number(Meaning(number, nested)) == number
  {
    hide Fields, FirstVarint, FirstBytes, ReadDevice, ReadApp, AsI32;
  }

  /**
   Whatever bytes a television sends, in whatever order, with whatever fields
   besides, and however widened or left out: the client reads i if and only if
   they carry i.
   */
  lemma PeerMessageIsRead(m: seq<Byte>, i: Incoming)
    ensures Parsed(m) == i <==> Carries(m, i)
  {
    hide Fields, Says, Meaning, FirstKnown;
    var first := FirstKnown(Fields(m));
    if first.Some? {
      KindIsNumber(first.value.number, first.value.bytes);
      if !i.Unknown? && first.value.number == Number(i) {
        NestedIsRead(first.value.number, first.value.bytes, i);
      }
    }
  }

  // ------------------------------------------------------------- ways to say it

  /** The numbers under which a message is looked for varints. */
  predicate ReadsVarint(i: Incoming, number: U32)
    requires !i.Unknown?
  {
    if i.Volume? then number in {6, 7, 8}
    else if i.ImeBatchEdit? then number in {1, 2}
    else (i.Configure? || i.Ping? || i.VoiceStarted? || i.Start?) && number == 1
  }

  /** The numbers under which a message is looked for bytes. */
  predicate ReadsBytes(i: Incoming, number: U32)
    requires !i.Unknown?
  {
    (i.Configure? && number == 2) || (i.ImeKeyInject? && number == 1)
  }

  predicate IsRead(f: Field, i: Incoming)
    requires !i.Unknown?
  {
    (f.VarintField? && ReadsVarint(i, f.number)) || (f.BytesField? && ReadsBytes(i, f.number))
  }

  /** The fields that are read, in order; all others are left out, wherever they stand. */
  function Relevant(fs: seq<Field>, i: Incoming): seq<Field>
    requires !i.Unknown?
  {
    if fs == [] then [] else (if IsRead(fs[0], i) then [fs[0]] else []) + Relevant(fs[1..], i)
  }

  lemma {:induction false} ScanOfRelevant(fs: seq<Field>, i: Incoming, number: U32)
    requires !i.Unknown?
    ensures ReadsVarint(i, number) ==> FirstVarint(Relevant(fs, i), number) == FirstVarint(fs, number)
    ensures ReadsBytes(i, number) ==> FirstBytes(Relevant(fs, i), number) == FirstBytes(fs, number)
  {
    hide ReadsVarint, ReadsBytes;
    if fs != [] {
      ScanOfRelevant(fs[1..], i, number);
      if IsRead(fs[0], i) {
        assert Relevant(fs, i)[1..] == Relevant(fs[1..], i);
      } else {
        assert Relevant(fs, i) == Relevant(fs[1..], i);
      }
    }
  }

  /** Fields a message is not read from change nothing, whatever their numbers, anywhere among the others. */
  lemma OtherFieldsAreIgnored(fs: seq<Field>, i: Incoming)
    requires !i.Unknown?
    ensures Says(fs, i) <==> Says(Relevant(fs, i), i)
  {
    hide FirstVarint, FirstBytes, Fields, Relevant;
    ScanOfRelevant(fs, i, 1);
    ScanOfRelevant(fs, i, 2);
    ScanOfRelevant(fs, i, 6);
    ScanOfRelevant(fs, i, 7);
    ScanOfRelevant(fs, i, 8);
  }

  /** Either way of widening an `int32` says it. */
  lemma BothWideningsSayIt(fs: seq<Field>, number: U32, v: I32)
    requires FirstVarint(fs, number) == Some(ZeroExtended(v)) || FirstVarint(fs, number) == Some(SignExtended(v))
    ensures SaysInt(fs, number, v)
  {
    hide FirstVarint;
  }

  predicate Sendable(i: Incoming) {
    && !i.Unknown?
    && (i.Configure? ==>
        && |i.device.manufacturer| < TWO31 && |i.device.model| < TWO31 && |i.device.softwareVersion| < TWO31)
    && (i.ImeKeyInject? ==> |i.app| < TWO31)
  }

  function Flag(b: bool): U64 {
    if b then 1 else 0
  }

  function DeviceFields(d: DeviceInfo): seq<Field> {
    [BytesField(1, d.model), BytesField(2, d.manufacturer), BytesField(6, d.softwareVersion)]
  }

  function Nested(i: Incoming): seq<Field>
    requires Sendable(i)
  {
    match i
    case Configure(supported, d) =>
      [VarintField(1, ZeroExtended(supported)), BytesField(2, EncodeFields(DeviceFields(d)))]
    case SetActive => []
    case RemoteError => []
    case Ping(v) => [VarintField(1, ZeroExtended(v))]
    case ImeKeyInject(app) => [BytesField(1, EncodeFields([BytesField(12, app)]))]
    case ImeBatchEdit(ime, field) => [VarintField(1, ZeroExtended(ime)), VarintField(2, ZeroExtended(field))]
    case VoiceStarted(session) => [VarintField(1, ZeroExtended(session))]
    case Start(started) => [VarintField(1, Flag(started))]
    case Volume(v) => [VarintField(6, v.maximum), VarintField(7, v.level), VarintField(8, Flag(v.muted))]
  }

  function PeerEncode(i: Incoming): seq<Byte>
    requires Sendable(i)
  {
    EncodeFields([BytesField(Number(i), EncodeFields(Nested(i)))])
  }

  lemma NestedFits(i: Incoming)
    requires Sendable(i)
    ensures (forall f | f in Nested(i) :: WellFormed(f)) && |EncodeFields(Nested(i))| < TWO64
  {
    hide EncodeFields;
    if i.Configure? {
      FewFieldsFit(DeviceFields(i.device), TWO31);
      FewFieldsFit(Nested(i), 80 + 4 * TWO31);
    } else if i.ImeKeyInject? {
      FewFieldsFit([BytesField(12, i.app)], TWO31);
      FewFieldsFit(Nested(i), 80 + 4 * TWO31);
    } else {
      FewFieldsFit(Nested(i), 0);
    }
  }

  lemma ThreeBytesFields(a: Field, b: Field, c: Field)
    requires a.BytesField? && b.BytesField? && c.BytesField?
    requires a.number != b.number && a.number != c.number && b.number != c.number
    ensures FirstBytes([a, b, c], a.number) == Some(a.bytes)
    ensures FirstBytes([a, b, c], b.number) == Some(b.bytes)
    ensures FirstBytes([a, b, c], c.number) == Some(c.bytes)
  {
    assert [a, b, c][1..] == [b, c] && [b, c][1..] == [c];
    assert FirstBytes([b, c], b.number) == Some(b.bytes);
    assert FirstBytes([b, c], c.number) == FirstBytes([c], c.number);
  }

  lemma ThreeVarints(a: Field, b: Field, c: Field)
    requires a.VarintField? && b.VarintField? && c.VarintField?
    requires a.number != b.number && a.number != c.number && b.number != c.number
    ensures FirstVarint([a, b, c], a.number) == Some(a.value)
    ensures FirstVarint([a, b, c], b.number) == Some(b.value)
    ensures FirstVarint([a, b, c], c.number) == Some(c.value)
  {
    assert [a, b, c][1..] == [b, c] && [b, c][1..] == [c];
    assert FirstVarint([b, c], b.number) == Some(b.value);
    assert FirstVarint([b, c], c.number) == FirstVarint([c], c.number);
  }

  lemma ReferenceSaysDevice(supported: I32, d: DeviceInfo)
    requires Sendable(Configure(supported, d))
    ensures Says(Nested(Configure(supported, d)), Configure(supported, d))
  {
    hide EncodeFields, Fields;
    var fs := DeviceFields(d);
    ReaderInvertsWriter(fs);
    ThreeBytesFields(fs[0], fs[1], fs[2]);
    var nested := Nested(Configure(supported, d));
    assert nested[1..] == [BytesField(2, EncodeFields(fs))];
    assert FirstBytes(nested, 2) == FirstBytes(nested[1..], 2) == Some(EncodeFields(fs));
    BothWideningsSayIt(nested, 1, supported);
    hide FirstBytes, SaysInt;
  }

  lemma ReferenceSaysApp(app: seq<Byte>)
    requires |app| < TWO31
    ensures Says(Nested(ImeKeyInject(app)), ImeKeyInject(app))
  {
    hide EncodeFields, Fields;
    var fs := [BytesField(12, app)];
    ReaderInvertsWriter(fs);
    assert FirstBytes(fs, 12) == Some(app);
    assert FirstBytes(Nested(ImeKeyInject(app)), 1) == Some(EncodeFields(fs));
  }

  lemma ReferenceSays(i: Incoming)
    requires Sendable(i)
    ensures Says(Nested(i), i)
  {
    hide EncodeFields, Fields;
    if i.Configure? {
      ReferenceSaysDevice(i.supported, i.device);
      hide Says;
    } else if i.ImeKeyInject? {
      ReferenceSaysApp(i.app);
      hide Says;
    } else if i.Volume? {
      ThreeVarints(Nested(i)[0], Nested(i)[1], Nested(i)[2]);
      hide FirstVarint;
    } else if i.ImeBatchEdit? {
      var fs := Nested(i);
      assert fs[1..] == [VarintField(2, ZeroExtended(i.fieldCounter))];
      assert FirstVarint(fs, 2) == FirstVarint(fs[1..], 2);
    }
  }

  /** Every message the client knows, with any values, can be said: by its reference encoding. */
  lemma ReferenceIsRead(i: Incoming)
    requires Sendable(i)
    ensures Carries(PeerEncode(i), i) && Parsed(PeerEncode(i)) == i
  {
    hide EncodeFields, Fields, Says, Nested, Parsed;
    NestedFits(i);
    ReferenceSays(i);
    var outer := [BytesField(Number(i), EncodeFields(Nested(i)))];
    ReaderInvertsWriter(Nested(i));
    ReaderInvertsWriter(outer);
    assert FirstKnown(outer) == Some(outer[0]);
    PeerMessageIsRead(PeerEncode(i), i);
  }
}
