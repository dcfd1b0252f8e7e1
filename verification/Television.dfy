/**
 The television's side of the remote protocol: what it reads, field by field,
 in every message the client sends.
 */
module Television {
  import opened Wrappers
  import opened Ints
  import opened Wire
  import opened Messages

  /** A varint of the message nested under `outer`. */
  function NumberAt(m: seq<Byte>, outer: U32, number: U32): Option<U64> {
    match FirstBytes(Fields(m), outer)
    case None => None
    case Some(nested) => FirstVarint(Fields(nested), number)
  }

  /** Bytes of the message nested under `outer`. */
  function BytesAt(m: seq<Byte>, outer: U32, number: U32): Option<seq<Byte>> {
    match FirstBytes(Fields(m), outer)
    case None => None
    case Some(nested) => FirstBytes(Fields(nested), number)
  }

  /** An `int32` in 64 bits, its upper half clear. */
  function LowHalf(v: I32): U64 {
    if v < 0 then v + 0x1_0000_0000 else v
  }

  /** An `int32` in 64 bits, its upper half full of the sign. */
  function Signed(v: I32): U64 {
    if v < 0 then v + 0x1_0000_0000_0000_0000 else v
  }

  // ------------------------------------------------------------ scans of a few fields

  lemma OuterIsRead(o: Outgoing, number: U32)
    requires Fits(o)
    ensures NumberAt(Encode(o), OuterNumber(o), number) == FirstVarint(Inner(o), number)
    ensures BytesAt(Encode(o), OuterNumber(o), number) == FirstBytes(Inner(o), number)
  {
    SentIsReadBack(o);
    ScanOfOne(OuterNumber(o), EncodeFields(Inner(o)), OuterNumber(o));
    hide EncodeFields, Encode, Fields, FirstVarint, FirstBytes, Inner, OuterNumber;
  }

  lemma ScanOfOne(number: U32, bytes: seq<Byte>, n: U32)
    ensures FirstBytes([BytesField(number, bytes)], n) == if n == number then Some(bytes) else None
  {
    assert [BytesField(number, bytes)][1..] == [];
  }

  /** What a scan finds in up to four fields. */
  lemma ScanOfHead(f: Field, fs: seq<Field>, number: U32)
    ensures FirstVarint([f] + fs, number) ==
      if f.VarintField? && f.number == number then Some(f.value) else FirstVarint(fs, number)
    ensures FirstBytes([f] + fs, number) ==
      if f.BytesField? && f.number == number then Some(f.bytes) else FirstBytes(fs, number)
  {
    assert ([f] + fs)[1..] == fs;
  }

  lemma ScanOfTwo(f: Field, g: Field, number: U32)
    ensures FirstVarint([f, g], number) ==
      if f.VarintField? && f.number == number then Some(f.value)
      else if g.VarintField? && g.number == number then Some(g.value) else None
    ensures FirstBytes([f, g], number) ==
      if f.BytesField? && f.number == number then Some(f.bytes)
      else if g.BytesField? && g.number == number then Some(g.bytes) else None
  {
    ScanOfHead(f, [g], number);
    ScanOfHead(g, [], number);
    assert [f] + [g] == [f, g] && [g] + [] == [g];
    hide FirstVarint, FirstBytes;
    assert FirstVarint([], number) == None && FirstBytes([], number) == None by { ScanOfNone(number); }
  }

  lemma ScanOfNone(number: U32)
    ensures FirstVarint([], number) == None && FirstBytes([], number) == None
  {
  }

  lemma ScanOfThree(f: Field, g: Field, h: Field, number: U32)
    ensures FirstVarint([f, g, h], number) ==
      if f.VarintField? && f.number == number then Some(f.value) else FirstVarint([g, h], number)
    ensures FirstBytes([f, g, h], number) ==
      if f.BytesField? && f.number == number then Some(f.bytes) else FirstBytes([g, h], number)
  {
    ScanOfHead(f, [g, h], number);
    assert [f] + [g, h] == [f, g, h];
    hide FirstVarint, FirstBytes;
  }

  // ------------------------------------------------------------ message by message

  /** A key: its code in 10/1, its direction in 10/2. */
  lemma KeyIsRead(code: I32, direction: Direction)
    ensures var m := Encode(Key(code, direction));
      NumberAt(m, 10, 1) == Some(LowHalf(code)) && NumberAt(m, 10, 2) == Some(direction)
  {
    hide Encode, NumberAt, BytesAt, FirstVarint, FirstBytes;
    var o := Key(code, direction);
    OuterIsRead(o, 1);
    OuterIsRead(o, 2);
    ScanOfTwo(Inner(o)[0], Inner(o)[1], 1);
    ScanOfTwo(Inner(o)[0], Inner(o)[1], 2);
  }

  /** A link: in 90/1. */
  lemma LinkIsRead(link: seq<Byte>)
    requires |link| < TWO63
    ensures BytesAt(Encode(AppLink(link)), 90, 1) == Some(link)
  {
    hide Encode, NumberAt, BytesAt, FirstVarint, FirstBytes;
    OuterIsRead(AppLink(link), 1);
    ScanOfOne(1, link, 1);
  }

  lemma OneVarint(number: U32, v: U64)
    ensures FirstVarint([VarintField(number, v)], number) == Some(v)
  {
  }

  /** A ping reply: the value of the ping, in 9/1. */
  lemma PongIsRead(value: I32)
    ensures NumberAt(Encode(PingReply(value)), 9, 1) == Some(LowHalf(value))
  {
    hide Encode, NumberAt, BytesAt, FirstVarint, FirstBytes;
    OuterIsRead(PingReply(value), 1);
    OneVarint(1, LowHalf(value));
  }

  /** A set-active reply: the features, sign and all, in 2/1. */
  lemma SetActiveIsRead(features: I32)
    ensures NumberAt(Encode(SetActiveReply(features)), 2, 1) == Some(Signed(features))
  {
    hide Encode, NumberAt, BytesAt, FirstVarint, FirstBytes;
    OuterIsRead(SetActiveReply(features), 1);
    OneVarint(1, Signed(features));
  }

  /** The begin and the end of a voice session: the session in 30/1 and 32/1. */
  lemma SessionsAreRead(session: I32)
    ensures NumberAt(Encode(VoiceBegin(session)), 30, 1) == Some(LowHalf(session))
    ensures NumberAt(Encode(VoiceEnd(session)), 32, 1) == Some(LowHalf(session))
  {
    hide Encode, NumberAt, BytesAt, FirstVarint, FirstBytes;
    OuterIsRead(VoiceBegin(session), 1);
    OuterIsRead(VoiceEnd(session), 1);
    OneVarint(1, LowHalf(session));
  }

  /** A voice payload: the session in 31/1, the samples in 31/2. */
  lemma SamplesAreRead(session: I32, samples: seq<Byte>)
    requires |samples| < TWO63
    ensures var m := Encode(VoicePayload(session, samples));
      NumberAt(m, 31, 1) == Some(LowHalf(session)) && BytesAt(m, 31, 2) == Some(samples)
  {
    hide Encode, NumberAt, BytesAt, FirstVarint, FirstBytes;
    var o := VoicePayload(session, samples);
    OuterIsRead(o, 1);
    OuterIsRead(o, 2);
    ScanOfTwo(Inner(o)[0], Inner(o)[1], 1);
    ScanOfTwo(Inner(o)[0], Inner(o)[1], 2);
  }

  /**
   A text: the counters in 21/1 and 21/2, and in 21/3 one edit: an insertion (1) of
   the text (2/3) with the cursor at its last byte (2/1 and 2/2).
   */
  lemma TextIsRead(text: seq<Byte>, ime: I32, field: I32)
    requires CursorFits(text)
    ensures var m := Encode(Text(text, ime, field));
      && NumberAt(m, 21, 1) == Some(LowHalf(ime)) && NumberAt(m, 21, 2) == Some(LowHalf(field))
      && BytesAt(m, 21, 3).Some?
      && var edit := BytesAt(m, 21, 3).value;
        && FirstVarint(Fields(edit), 1) == Some(1)
        && NumberAt(edit, 2, 1) == NumberAt(edit, 2, 2) == Some((|text| - 1) % 0x1_0000_0000)
        && BytesAt(edit, 2, 3) == Some(text)
  {
    hide Encode, EncodeFields, Fields, NumberAt, BytesAt, FirstVarint, FirstBytes;
    var o := Text(text, ime, field);
    OuterIsRead(o, 1);
    OuterIsRead(o, 2);
    OuterIsRead(o, 3);
    BatchIsScanned(o);
    EditIsRead(text);
  }

  lemma BatchIsScanned(o: Outgoing)
    requires o.Text? && Fits(o)
    ensures FirstVarint(Inner(o), 1) == Some(LowHalf(o.imeCounter))
    ensures FirstVarint(Inner(o), 2) == Some(LowHalf(o.fieldCounter))
    ensures FirstBytes(Inner(o), 3) == Some(EncodeFields(TextEdit(o.text)))
  {
    hide EncodeFields, FirstVarint, FirstBytes, TextEdit;
    var fs := Inner(o);
    ScanOfThree(fs[0], fs[1], fs[2], 1);
    ScanOfThree(fs[0], fs[1], fs[2], 2);
    ScanOfThree(fs[0], fs[1], fs[2], 3);
    ScanOfTwo(fs[1], fs[2], 2);
    ScanOfTwo(fs[1], fs[2], 3);
  }

  lemma EditIsRead(text: seq<Byte>)
    requires |text| < TWO63
    ensures var edit := EncodeFields(TextEdit(text));
      && FirstVarint(Fields(edit), 1) == Some(1)
      && NumberAt(edit, 2, 1) == NumberAt(edit, 2, 2) == Some((|text| - 1) % 0x1_0000_0000)
      && BytesAt(edit, 2, 3) == Some(text)
  {
    TextIsReadBack(text);
    hide EncodeFields, Fields, FirstVarint, FirstBytes;
    var fs, gs := TextEdit(text), TextObject(text);
    ScanOfTwo(fs[0], fs[1], 1);
    ScanOfTwo(fs[0], fs[1], 2);
    ScanOfThree(gs[0], gs[1], gs[2], 1);
    ScanOfThree(gs[0], gs[1], gs[2], 2);
    ScanOfThree(gs[0], gs[1], gs[2], 3);
    ScanOfTwo(gs[1], gs[2], 2);
    ScanOfTwo(gs[1], gs[2], 3);
  }

  /**
   A configure reply: the features, sign and all, in 1/1, and in 1/2 the device:
   1 in 3, "1" in 4, "atvremote" in 5 and "1.0.0" in 6.
   */
  lemma ConfigureIsRead(features: I32)
    ensures var m := Encode(ConfigureReply(features));
      && NumberAt(m, 1, 1) == Some(Signed(features))
      && BytesAt(m, 1, 2).Some?
      && var device := Fields(BytesAt(m, 1, 2).value);
        && FirstVarint(device, 3) == Some(1)
        && FirstBytes(device, 4) == Some([0x31])
        && FirstBytes(device, 5) == Some([0x61, 0x74, 0x76, 0x72, 0x65, 0x6d, 0x6f, 0x74, 0x65])
        && FirstBytes(device, 6) == Some([0x31, 0x2e, 0x30, 0x2e, 0x30])
  {
    hide Encode, EncodeFields, Fields, NumberAt, BytesAt, FirstVarint, FirstBytes;
    var o := ConfigureReply(features);
    OuterIsRead(o, 1);
    OuterIsRead(o, 2);
    ScanOfTwo(Inner(o)[0], Inner(o)[1], 1);
    ScanOfTwo(Inner(o)[0], Inner(o)[1], 2);
    DeviceIsReadBack();
    DeviceIsScanned();
  }

  lemma DeviceIsScanned()
    ensures FirstVarint(DEVICE, 3) == Some(1)
    ensures FirstBytes(DEVICE, 4) == Some([0x31])
    ensures FirstBytes(DEVICE, 5) == Some([0x61, 0x74, 0x76, 0x72, 0x65, 0x6d, 0x6f, 0x74, 0x65])
    ensures FirstBytes(DEVICE, 6) == Some([0x31, 0x2e, 0x30, 0x2e, 0x30])
  {
    assert ONE == [0x31] && VERSION == [0x31, 0x2e, 0x30, 0x2e, 0x30];
    assert CLIENT == [0x61, 0x74, 0x76, 0x72, 0x65, 0x6d, 0x6f, 0x74, 0x65];
    ScanOfFour(DEVICE[0], DEVICE[1], DEVICE[2], DEVICE[3], 4);
    ScanOfFour(DEVICE[0], DEVICE[1], DEVICE[2], DEVICE[3], 5);
    ScanOfFour(DEVICE[0], DEVICE[1], DEVICE[2], DEVICE[3], 6);
    hide FirstBytes;
  }

  // ------------------------------------------------------------ every message

  function Value(v: Option<U64>): I32 {
    match v
    case None => 0
    case Some(x) =>
      var low := x % 0x1_0000_0000;
      if low < 0x8000_0000 then low else low - 0x1_0000_0000
  }

  function Contents(b: Option<seq<Byte>>): seq<Byte> {
    match b case None => [] case Some(bytes) => bytes
  }

  function Way(v: Option<U64>): Direction {
    if v.Some? && v.value <= 3 then v.value else 0
  }

  predicate Under(m: seq<Byte>, number: U32) {
    FirstBytes(Fields(m), number).Some?
  }

  /** What the television makes of a message: its number tells the kind, its fields the rest. */
  function Understood(m: seq<Byte>): Option<Outgoing> {
    if Under(m, 1) then Some(ConfigureReply(Value(NumberAt(m, 1, 1))))
    else if Under(m, 2) then Some(SetActiveReply(Value(NumberAt(m, 2, 1))))
    else if Under(m, 9) then Some(PingReply(Value(NumberAt(m, 9, 1))))
    else if Under(m, 10) then Some(Key(Value(NumberAt(m, 10, 1)), Way(NumberAt(m, 10, 2))))
    else if Under(m, 21) then
      Some(Text(Contents(BytesAt(Contents(BytesAt(m, 21, 3)), 2, 3)),
                Value(NumberAt(m, 21, 1)), Value(NumberAt(m, 21, 2))))
    else if Under(m, 30) then Some(VoiceBegin(Value(NumberAt(m, 30, 1))))
    else if Under(m, 31) then Some(VoicePayload(Value(NumberAt(m, 31, 1)), Contents(BytesAt(m, 31, 2))))
    else if Under(m, 32) then Some(VoiceEnd(Value(NumberAt(m, 32, 1))))
    else if Under(m, 90) then Some(AppLink(Contents(BytesAt(m, 90, 1))))
    else None
  }

  lemma ValueOfWidened(v: I32)
    ensures Value(Some(LowHalf(v))) == v && Value(Some(Signed(v))) == v
  {
  }

  lemma UnderItsNumber(o: Outgoing, number: U32)
    requires Fits(o)
    ensures Under(Encode(o), number) <==> number == OuterNumber(o)
  {
    SentIsReadBack(o);
    ScanOfOne(OuterNumber(o), EncodeFields(Inner(o)), number);
    hide EncodeFields, Encode, Fields, FirstBytes, Inner, OuterNumber;
  }

  /** Every message the client sends is understood as what it is, whole. */
  lemma SentIsUnderstood(o: Message)
    ensures Understood(Encode(o)) == Some(o)
  {
    hide Encode, NumberAt, BytesAt, Under, Value, LowHalf, Signed;
    forall n | n in {1, 2, 9, 10, 21, 30, 31, 32, 90} ensures Under(Encode(o), n) <==> n == OuterNumber(o) {
      UnderItsNumber(o, n);
    }
    match o
    case ConfigureReply(f) => ConfigureIsRead(f); ValueOfWidened(f);
    case SetActiveReply(f) => SetActiveIsRead(f); ValueOfWidened(f);
    case PingReply(v) => PongIsRead(v); ValueOfWidened(v);
    case Key(code, direction) => KeyIsRead(code, direction); ValueOfWidened(code);
    case Text(text, ime, field) => TextIsRead(text, ime, field); ValueOfWidened(ime); ValueOfWidened(field);
    case AppLink(link) => LinkIsRead(link);
    case VoiceBegin(s) => SessionsAreRead(s); ValueOfWidened(s);
    case VoicePayload(s, samples) => SamplesAreRead(s, samples); ValueOfWidened(s);
    case VoiceEnd(s) => SessionsAreRead(s); ValueOfWidened(s);
  }
}
