/**
 The remote and pairing messages (src/protocol_messages.cpp): what the client
 sends, how it reads what it receives, and how the two fit together.
 */
module Messages {
  import opened Wrappers
  import opened Ints
  import opened Wire

  type Direction = d: int | 0 <= d <= 3

  datatype DeviceInfo = DeviceInfo(manufacturer: seq<Byte>, model: seq<Byte>, softwareVersion: seq<Byte>)

  datatype VolumeInfo = VolumeInfo(level: U32, maximum: U32, muted: bool)

  datatype Incoming =
    | Unknown
    | Configure(supported: I32, device: DeviceInfo)
    | SetActive
    | ImeKeyInject(app: seq<Byte>)
    | ImeBatchEdit(imeCounter: I32, fieldCounter: I32)
    | Volume(volume: VolumeInfo)
    | Start(started: bool)
    | Ping(value: I32)
    | RemoteError
    | VoiceStarted(session: I32)

  datatype Outgoing =
    | ConfigureReply(features: I32)
    | SetActiveReply(features: I32)
    | PingReply(value: I32)
    | Key(code: I32, direction: Direction)
    | Text(text: seq<Byte>, imeCounter: I32, fieldCounter: I32)
    | AppLink(link: seq<Byte>)
    | VoiceBegin(session: I32)
    | VoicePayload(session: I32, samples: seq<Byte>)
    | VoiceEnd(session: I32)

  function Ascii(s: string): (b: seq<Byte>)
    requires forall i | 0 <= i < |s| :: s[i] < 128 as char
    ensures |b| == |s|
  {
    seq(|s|, i requires 0 <= i < |s| => s[i] as int)
  }

  const CLIENT: seq<Byte> := Ascii("atvremote")
  const VERSION: seq<Byte> := Ascii("1.0.0")
  const ONE: seq<Byte> := Ascii("1")

  // --------------------------------------------------------- what is sent

  /** The number of the one field of the remote message. */
  function OuterNumber(o: Outgoing): U32 {
    match o
    case ConfigureReply(_) => 1
    case SetActiveReply(_) => 2
    case PingReply(_) => 9
    case Key(_, _) => 10
    case Text(_, _, _) => 21
    case VoiceBegin(_) => 30
    case VoicePayload(_, _) => 31
    case VoiceEnd(_) => 32
    case AppLink(_) => 90
  }

  const DEVICE: seq<Field> := [VarintField(3, 1), BytesField(4, ONE), BytesField(5, CLIENT), BytesField(6, VERSION)]

  /** The cursor at the last byte, modulo 2^32. */
  function TextObject(text: seq<Byte>): seq<Field> {
    var pos := (|text| - 1) % TWO32;
    [VarintField(1, pos), VarintField(2, pos), BytesField(3, text)]
  }

  function TextEdit(text: seq<Byte>): seq<Field> {
    [VarintField(1, 1), BytesField(2, EncodeFields(TextObject(text)))]
  }

  /** Sizes the machine can hold; the arithmetic on a text's cursor must not overflow an `int32`. */
  predicate Fits(o: Outgoing) {
    && (o.Text? ==> CursorFits(o.text))
    && (o.AppLink? ==> |o.link| < TWO63)
    && (o.VoicePayload? ==> |o.samples| < TWO63)
  }

  /** The size, cut to an `int32`, is not its least value, from which 1 cannot be taken. */
  predicate CursorFits(text: seq<Byte>) {
    |text| < TWO63 && |text| % TWO32 != TWO31
  }

  /** A message the client can send. */
  type Message = o: Outgoing | Fits(o) witness PingReply(0)

  /** The fields of the message nested in the remote message. */
  function Inner(o: Outgoing): seq<Field>
    requires Fits(o)
  {
    match o
    case ConfigureReply(f) => [VarintField(1, SignExtended(f)), BytesField(2, EncodeFields(DEVICE))]
    case SetActiveReply(f) => [VarintField(1, SignExtended(f))]
    case PingReply(v) => [VarintField(1, ZeroExtended(v))]
    case Key(code, direction) => [VarintField(1, ZeroExtended(code)), VarintField(2, direction)]
    case Text(t, ime, field) =>
      [VarintField(1, ZeroExtended(ime)), VarintField(2, ZeroExtended(field)),
       BytesField(3, EncodeFields(TextEdit(t)))]
    case AppLink(l) => [BytesField(1, l)]
    case VoiceBegin(s) => [VarintField(1, ZeroExtended(s))]
    case VoicePayload(s, samples) => [VarintField(1, ZeroExtended(s)), BytesField(2, samples)]
    case VoiceEnd(s) => [VarintField(1, ZeroExtended(s))]
  }

  function Encode(o: Outgoing): seq<Byte>
    requires Fits(o)
  {
    EncodeFields([BytesField(OuterNumber(o), EncodeFields(Inner(o)))])
  }

  // ----------------------------------------------------- what is received

  function AsI32(v: Option<U64>): I32 {
    match v case None => 0 case Some(x) => TruncateI32(x)
  }

  function LowWord(v: Option<U64>): U32 {
    match v case None => 0 case Some(x) => x % TWO32
  }

  function IsSet(v: Option<U64>): bool {
    v.Some? && v.value != 0
  }

  function BytesOr(fs: seq<Field>, number: U32, default: seq<Byte>): seq<Byte> {
    match FirstBytes(fs, number) case None => default case Some(b) => b
  }

  predicate Known(number: U32) {
    number in {1, 2, 3, 8, 20, 21, 30, 40, 50}
  }

  /** The first length-delimited field whose number means something. */
  function FirstKnown(fs: seq<Field>): (r: Option<Field>)
    ensures r.Some? ==> r.value.BytesField? && Known(r.value.number)
  {
    if fs == [] then None
    else if fs[0].BytesField? && Known(fs[0].number) then Some(fs[0])
    else FirstKnown(fs[1..])
  }

  function ReadDevice(nested: seq<Byte>): DeviceInfo {
    match FirstBytes(Fields(nested), 2)
    case None => DeviceInfo([], [], [])
    case Some(info) =>
      var fs := Fields(info);
      DeviceInfo(BytesOr(fs, 2, []), BytesOr(fs, 1, []), BytesOr(fs, 6, []))
  }

  function ReadApp(nested: seq<Byte>): seq<Byte> {
    match FirstBytes(Fields(nested), 1)
    case None => []
    case Some(info) => BytesOr(Fields(info), 12, [])
  }

  /** What a remote message says whose first known field is this one. */
  function Meaning(number: U32, nested: seq<Byte>): Incoming
    requires Known(number)
  {
    var fs := Fields(nested);
    if number == 1 then Configure(AsI32(FirstVarint(fs, 1)), ReadDevice(nested))
    else if number == 2 then SetActive
    else if number == 3 then RemoteError
    else if number == 8 then Ping(AsI32(FirstVarint(fs, 1)))
    else if number == 20 then ImeKeyInject(ReadApp(nested))
    else if number == 21 then ImeBatchEdit(AsI32(FirstVarint(fs, 1)), AsI32(FirstVarint(fs, 2)))
    else if number == 30 then VoiceStarted(AsI32(FirstVarint(fs, 1)))
    else if number == 40 then Start(IsSet(FirstVarint(fs, 1)))
    else Volume(VolumeInfo(LowWord(FirstVarint(fs, 7)), LowWord(FirstVarint(fs, 6)), IsSet(FirstVarint(fs, 8))))
  }

  /** The meaning of a remote message: that of the first known field of its valid prefix. */
  function Parsed(message: seq<Byte>): Incoming {
    match FirstKnown(Fields(message))
    case None => Unknown
    case Some(f) => Meaning(f.number, f.bytes)
  }

  lemma KnownOfNext(b: seq<Byte>)
    ensures !NextField(b).Item? ==> FirstKnown(Fields(b)) == None
    ensures NextField(b).Item? ==>
      var f := NextField(b).field;
      FirstKnown(Fields(b)) ==
        if f.BytesField? && Known(f.number) then Some(f) else FirstKnown(Fields(Tail(b)))
  {
    hide NextField;
    if NextField(b).Item? {
      var f, rest := NextField(b).field, Fields(Tail(b));
      FieldsOfItem(b);
      assert ([f] + rest)[1..] == rest;
      hide Fields;
    }
  }

  method ParseRemote(message: seq<Byte>) returns (r: Incoming)
    ensures r == Parsed(message)
  {
    hide NextField, Fields, FirstKnown, Tail, Reader.Remaining;
    var reader := new Reader(message);
    ghost var at := message;
    var more, field := reader.Next();
    while more
      invariant reader.Valid() && (more ==> reader.ok)
      invariant more <==> NextField(at).Item?
      invariant more ==> NextField(at).field == field && reader.Remaining() == Tail(at)
      invariant FirstKnown(Fields(message)) == FirstKnown(Fields(at))
      decreases |at|
    {
      KnownOfNext(at);
      if field.BytesField? && Known(field.number) {
        r := ReadMeaning(field.number, field.bytes);
        return r;
      }
      at := reader.Remaining();
      more, field := reader.Next();
    }
    KnownOfNext(at);
    return Unknown;
  }

  /** The cases of the switch in `parseRemote`. */
  method ReadMeaning(number: U32, nested: seq<Byte>) returns (r: Incoming)
    requires Known(number)
    ensures r == Meaning(number, nested)
  {
    hide Fields, FirstVarint, FirstBytes;
    if number == 1 {
      var features := FindVarint(nested, 1);
      var device := DeviceInfo([], [], []);
      var info := FindBytes(nested, 2);
      if info.Some? {
        var model := FindBytes(info.value, 1);
        if model.Some? {
          device := device.(model := model.value);
        }
        var vendor := FindBytes(info.value, 2);
        if vendor.Some? {
          device := device.(manufacturer := vendor.value);
        }
        var version := FindBytes(info.value, 6);
        if version.Some? {
          device := device.(softwareVersion := version.value);
        }
      }
      return Configure(AsI32(features), device);
    } else if number == 2 {
      return SetActive;
    } else if number == 3 {
      return RemoteError;
    } else if number == 8 {
      var value := FindVarint(nested, 1);
      return Ping(AsI32(value));
    } else if number == 20 {
      var app: seq<Byte> := [];
      var info := FindBytes(nested, 1);
      if info.Some? {
        var package := FindBytes(info.value, 12);
        if package.Some? {
          app := package.value;
        }
      }
      return ImeKeyInject(app);
    } else if number == 21 {
      var ime := FindVarint(nested, 1);
      var counter := FindVarint(nested, 2);
      return ImeBatchEdit(AsI32(ime), AsI32(counter));
    } else if number == 30 {
      var session := FindVarint(nested, 1);
      return VoiceStarted(AsI32(session));
    } else if number == 40 {
      var started := FindVarint(nested, 1);
      return Start(IsSet(started));
    } else {
      var maximum := FindVarint(nested, 6);
      var level := FindVarint(nested, 7);
      var muted := FindVarint(nested, 8);
      return Volume(VolumeInfo(LowWord(level), LowWord(maximum), IsSet(muted)));
    }
  }

  // --------------------------------------------------- reading what follows

  lemma {:induction false} FirstKnownOfConcat(fs: seq<Field>, gs: seq<Field>)
    ensures FirstKnown(fs + gs) == if FirstKnown(fs).Some? then FirstKnown(fs) else FirstKnown(gs)
  {
    if fs == [] {
      assert fs + gs == gs;
    } else {
      assert (fs + gs)[1..] == fs[1..] + gs;
      FirstKnownOfConcat(fs[1..], gs);
    }
  }

  /** Once a known field has been read, nothing after it matters, well formed or not. */
  lemma LaterBytesAreIgnored(m: seq<Byte>, rest: seq<Byte>)
    requires FirstKnown(Fields(m)).Some?
    ensures Parsed(m + rest) == Parsed(m)
  {
    FieldsOfPrefix(m, rest);
    var fs := Fields(m);
    FirstKnownOfConcat(fs, Fields(m + rest)[|fs|..]);
    assert Fields(m + rest) == fs + Fields(m + rest)[|fs|..];
  }

  /** Complete messages of unknown fields in front do not change the meaning. */
  lemma UnknownFieldsAreSkipped(m: seq<Byte>, rest: seq<Byte>)
    requires Complete(m) && FirstKnown(Fields(m)).None?
    ensures Parsed(m + rest) == Parsed(rest)
  {
    FieldsOfConcat(m, rest);
    FirstKnownOfConcat(Fields(m), Fields(rest));
  }

  /** The empty message says nothing. */
  lemma EmptyMessageIsUnknown()
    ensures Parsed([]) == Unknown
  {
  }

  // ------------------------------------------------ sending and receiving

  /** A remote message of one nested message reads back as just that. */
  lemma NestedRoundTrip(number: U32, inner: seq<Field>)
    requires 0 < number && |EncodeFields(inner)| < TWO64
    requires forall f | f in inner :: WellFormed(f)
    ensures Fields(EncodeFields(inner)) == inner
    ensures Fields(EncodeFields([BytesField(number, EncodeFields(inner))])) == [BytesField(number, EncodeFields(inner))]
    ensures Parsed(EncodeFields([BytesField(number, EncodeFields(inner))])) ==
      if Known(number) then Meaning(number, EncodeFields(inner)) else Unknown
  {
    ReaderInvertsWriter(inner);
    var outer := [BytesField(number, EncodeFields(inner))];
    ReaderInvertsWriter(outer);
    assert FirstKnown(outer[1..]) == None;
  }

  lemma {:induction false} EncodedSize(fs: seq<Field>, total: nat)
    requires forall f | f in fs :: WellFormed(f) && |EncodeField(f)| <= total
    ensures |EncodeFields(fs)| <= |fs| * total
  {
    hide EncodeField;
    if fs != [] {
      EncodedSize(fs[1..], total);
      assert |fs| * total == total + |fs[1..]| * total;
    }
  }

  lemma FewFieldsFit(fs: seq<Field>, size: nat)
    requires |fs| <= 4
    requires forall f | f in fs :: WellFormed(f) && (f.VarintField? || |f.bytes| <= size)
    ensures |EncodeFields(fs)| <= 4 * (20 + size)
  {
    forall f | f in fs ensures |EncodeField(f)| <= 20 + size {
      EncodedFieldSize(f);
    }
    EncodedSize(fs, 20 + size);
  }

  lemma ConfigureFits(f: I32)
    ensures |EncodeFields(DEVICE)| < TWO64 && |EncodeFields(Inner(ConfigureReply(f)))| <= 4 * 140
  {
    hide EncodeFields;
    FewFieldsFit(DEVICE, 10);
    FewFieldsFit(Inner(ConfigureReply(f)), 120);
  }

  lemma TextFits(t: seq<Byte>, ime: I32, field: I32)
    requires CursorFits(t)
    ensures |EncodeFields(Inner(Text(t, ime, field)))| < TWO64 - 20
    ensures forall f | f in Inner(Text(t, ime, field)) :: WellFormed(f)
  {
    hide EncodeFields;
    TextPartsFit(t);
    var fs := Inner(Text(t, ime, field));
    EncodedFieldSize(fs[0]);
    EncodedFieldSize(fs[1]);
    EncodedFieldSize(fs[2]);
    ThreeFields(fs[0], fs[1], fs[2]);
  }

  lemma TextPartsFit(t: seq<Byte>)
    requires |t| < TWO63
    ensures |EncodeFields(TextObject(t))| <= 60 + |t| && |EncodeFields(TextEdit(t))| <= 100 + |t|
  {
    hide EncodeFields;
    var fs := TextObject(t);
    EncodedFieldSize(fs[0]);
    EncodedFieldSize(fs[1]);
    EncodedFieldSize(fs[2]);
    ThreeFields(fs[0], fs[1], fs[2]);
    var gs := TextEdit(t);
    EncodedFieldSize(gs[0]);
    EncodedFieldSize(gs[1]);
    TwoFields(gs[0], gs[1]);
  }

  lemma LinkFits(l: seq<Byte>)
    requires |l| < TWO63
    ensures |EncodeFields([BytesField(1, l)])| < TWO64 - 20
  {
    hide EncodeFields;
    EncodedFieldSize(BytesField(1, l));
    OneField(BytesField(1, l));
  }

  lemma PayloadFits(session: U64, samples: seq<Byte>)
    requires |samples| < TWO63
    ensures |EncodeFields([VarintField(1, session), BytesField(2, samples)])| < TWO64 - 20
  {
    hide EncodeFields;
    EncodedFieldSize(VarintField(1, session));
    EncodedFieldSize(BytesField(2, samples));
    TwoFields(VarintField(1, session), BytesField(2, samples));
  }

  lemma InnerFits(o: Outgoing)
    requires Fits(o)
    ensures forall f | f in Inner(o) :: WellFormed(f)
    ensures |EncodeFields(Inner(o))| < TWO64 - 20
  {
    hide EncodeFields;
    if o.ConfigureReply? {
      ConfigureFits(o.features);
    } else if o.Text? {
      TextFits(o.text, o.imeCounter, o.fieldCounter);
    } else if o.AppLink? {
      LinkFits(o.link);
    } else if o.VoicePayload? {
      PayloadFits(ZeroExtended(o.session), o.samples);
    } else {
      FewFieldsFit(Inner(o), 0);
    }
  }

  lemma OneField(f: Field)
    ensures EncodeFields([f]) == EncodeField(f)
  {
    hide EncodeField;
    assert [f][1..] == [];
    assert EncodeField(f) + [] == EncodeField(f);
  }

  lemma TwoFields(f: Field, g: Field)
    ensures EncodeFields([f, g]) == EncodeField(f) + EncodeField(g)
  {
    hide EncodeField;
    assert [f, g][1..] == [g];
    OneField(g);
  }

  lemma ThreeFields(f: Field, g: Field, h: Field)
    ensures EncodeFields([f, g, h]) == EncodeField(f) + EncodeField(g) + EncodeField(h)
  {
    hide EncodeField;
    assert [f, g, h][1..] == [g, h];
    TwoFields(g, h);
  }

  lemma EncodeFits(o: Outgoing)
    requires Fits(o)
    ensures |Encode(o)| < TWO64
  {
    InnerFits(o);
    var f := BytesField(OuterNumber(o), EncodeFields(Inner(o)));
    EncodedFieldSize(f);
    OneField(f);
    hide EncodeFields;
  }

  /** Both levels of a sent message are read back field for field. */
  lemma SentIsReadBack(o: Outgoing)
    requires Fits(o)
    ensures Fields(EncodeFields(Inner(o))) == Inner(o)
    ensures Fields(Encode(o)) == [BytesField(OuterNumber(o), EncodeFields(Inner(o)))]
    ensures Parsed(Encode(o)) ==
      if Known(OuterNumber(o)) then Meaning(OuterNumber(o), EncodeFields(Inner(o))) else Unknown
  {
    InnerFits(o);
    NestedRoundTrip(OuterNumber(o), Inner(o));
  }

  /** No two messages have the same bytes. */
  lemma EncodeIsInjective(a: Outgoing, b: Outgoing)
    requires Fits(a) && Fits(b) && Encode(a) == Encode(b)
    ensures a == b
  {
    SentIsReadBack(a);
    SentIsReadBack(b);
    assert Fields(Encode(a))[0] == Fields(Encode(b))[0];
    assert Inner(a) == Inner(b);
    SameInner(a, b);
  }

  lemma SameInner(a: Outgoing, b: Outgoing)
    requires Fits(a) && Fits(b)
    requires OuterNumber(a) == OuterNumber(b) && Inner(a) == Inner(b)
    ensures a == b
  {
    hide EncodeFields;
    assert Inner(a)[0] == Inner(b)[0];
    if !a.AppLink? && |Inner(a)| > 1 {
      assert Inner(a)[1] == Inner(b)[1];
    }
    if a.Text? {
      assert Inner(a)[2] == Inner(b)[2];
      SameText(a.text, b.text);
    }
  }

  lemma SameText(t: seq<Byte>, u: seq<Byte>)
    requires |t| < TWO63 && |u| < TWO63
    requires EncodeFields(TextEdit(t)) == EncodeFields(TextEdit(u))
    ensures t == u
  {
    TextIsReadBack(t);
    TextIsReadBack(u);
    hide EncodeFields;
    assert TextEdit(t)[1] == TextEdit(u)[1];
    assert TextObject(t)[2] == TextObject(u)[2];
  }

  lemma TextIsReadBack(t: seq<Byte>)
    requires |t| < TWO63
    ensures Fields(EncodeFields(TextEdit(t))) == TextEdit(t)
    ensures Fields(EncodeFields(TextObject(t))) == TextObject(t)
  {
    TextPartsFit(t);
    ReaderInvertsWriter(TextObject(t));
    ReaderInvertsWriter(TextEdit(t));
  }

  /**
   Read by the client's own parser, the configure, set-active, text and
   voice-begin messages keep their kind and every `int32` it reads from them;
   all others, ping replies among them, are unknown and cause no reply.
   */
  lemma MeaningOfSent(o: Outgoing)
    requires Fits(o)
    ensures Parsed(Encode(o)) ==
      match o
      case ConfigureReply(f) => Configure(f, DeviceInfo([], [], VERSION))
      case SetActiveReply(_) => SetActive
      case Text(_, ime, field) => ImeBatchEdit(ime, field)
      case VoiceBegin(s) => VoiceStarted(s)
      case _ => Unknown
  {
    hide Encode, Fields, EncodeFields, Meaning, FirstVarint, FirstBytes;
    SentIsReadBack(o);
    if o.ConfigureReply? {
      MeaningOfConfigure(o.features);
    } else if o.SetActiveReply? {
      MeaningOfSetActive(EncodeFields(Inner(o)));
    } else if o.Text? {
      MeaningOfText(o.text, o.imeCounter, o.fieldCounter);
    } else if o.VoiceBegin? {
      MeaningOfVoiceBegin(o.session);
    }
  }

  lemma MeaningOfConfigure(f: I32)
    ensures Meaning(1, EncodeFields(Inner(ConfigureReply(f)))) == Configure(f, DeviceInfo([], [], VERSION))
  {
    hide EncodeFields, Fields;
    var o := ConfigureReply(f);
    SentIsReadBack(o);
    WideningIsUndone(f);
    DeviceIsReadBack();
    assert Inner(o)[1..] == [Inner(o)[1]];
    assert FirstBytes(Inner(o), 2) == Some(EncodeFields(DEVICE));
  }

  lemma MeaningOfSetActive(nested: seq<Byte>)
    ensures Meaning(2, nested) == SetActive
  {
  }

  lemma MeaningOfText(text: seq<Byte>, ime: I32, field: I32)
    requires CursorFits(text)
    ensures Meaning(21, EncodeFields(Inner(Text(text, ime, field)))) == ImeBatchEdit(ime, field)
  {
    hide EncodeFields, Fields;
    var o := Text(text, ime, field);
    SentIsReadBack(o);
    WideningIsUndone(ime);
    WideningIsUndone(field);
    assert FirstVarint(Inner(o)[1..], 2) == Some(ZeroExtended(field));
  }

  lemma MeaningOfVoiceBegin(session: I32)
    ensures Meaning(30, EncodeFields(Inner(VoiceBegin(session)))) == VoiceStarted(session)
  {
    hide EncodeFields, Fields;
    SentIsReadBack(VoiceBegin(session));
    WideningIsUndone(session);
  }

  lemma DeviceIsReadBack()
    ensures Fields(EncodeFields(DEVICE)) == DEVICE
    ensures FirstBytes(DEVICE, 1) == None && FirstBytes(DEVICE, 2) == None
    ensures FirstBytes(DEVICE, 6) == Some(VERSION)
  {
    hide EncodeFields, Fields, Complete, NextField;
    ReaderInvertsWriter(DEVICE);
    ScanOfFour(DEVICE[0], DEVICE[1], DEVICE[2], DEVICE[3], 1);
    ScanOfFour(DEVICE[0], DEVICE[1], DEVICE[2], DEVICE[3], 2);
    ScanOfFour(DEVICE[0], DEVICE[1], DEVICE[2], DEVICE[3], 6);
  }

  lemma ScanOfFour(a: Field, b: Field, c: Field, d: Field, number: U32)
    requires a.VarintField? && b.BytesField? && c.BytesField? && d.BytesField?
    ensures FirstBytes([a, b, c, d], number) ==
      if b.number == number then Some(b.bytes)
      else if c.number == number then Some(c.bytes)
      else if d.number == number then Some(d.bytes) else None
  {
    assert [a, b, c, d][1..] == [b, c, d];
    assert [b, c, d][1..] == [c, d];
    assert [c, d][1..] == [d];
    assert FirstBytes([d], number) == if d.number == number then Some(d.bytes) else None;
    assert FirstBytes([c, d], number) ==
      if c.number == number then Some(c.bytes) else FirstBytes([d], number);
    assert FirstBytes([b, c, d], number) ==
      if b.number == number then Some(b.bytes) else FirstBytes([c, d], number);
    assert FirstBytes([a, b, c, d], number) == FirstBytes([b, c, d], number);
  }

  /** One varint of a message, among any other fields. */
  function WithVarint(before: seq<Field>, number: U32, value: U64, after: seq<Field>): seq<Field> {
    before + [VarintField(number, value)] + after
  }

  lemma {:induction false} FirstOfWithVarint(before: seq<Field>, number: U32, value: U64, after: seq<Field>, n: U32)
    ensures FirstVarint(WithVarint(before, number, value, after), n) ==
      if FirstVarint(before, n).Some? then FirstVarint(before, n)
      else if n == number then Some(value) else FirstVarint(after, n)
    ensures FirstBytes(WithVarint(before, number, value, after), n) ==
      if FirstBytes(before, n).Some? then FirstBytes(before, n) else FirstBytes(after, n)
  {
    if before == [] {
      assert WithVarint(before, number, value, after)[1..] == after;
    } else {
      assert WithVarint(before, number, value, after)[1..] == WithVarint(before[1..], number, value, after);
      FirstOfWithVarint(before[1..], number, value, after, n);
    }
  }

  /**
   Whichever way a peer widens an `int32` to the wire, the same message is read:
   for every known number and every varint field of the nested message, whatever
   other fields there are.
   */
  lemma BothWideningsMeanTheSame(number: U32, a: seq<Byte>, b: seq<Byte>,
                                 before: seq<Field>, field: U32, v: I32, after: seq<Field>)
    requires Known(number)
    requires Fields(a) == WithVarint(before, field, ZeroExtended(v), after)
    requires Fields(b) == WithVarint(before, field, SignExtended(v), after)
    ensures Meaning(number, a) == Meaning(number, b)
  {
    WideningIsUndone(v);
    forall n: U32
      ensures FirstBytes(Fields(a), n) == FirstBytes(Fields(b), n)
      ensures SameReading(FirstVarint(Fields(a), n), FirstVarint(Fields(b), n))
    {
      FirstOfWithVarint(before, field, ZeroExtended(v), after, n);
      FirstOfWithVarint(before, field, SignExtended(v), after, n);
    }
    SameFirstsMeanTheSame(number, a, b);
  }

  /** Two varints that no reader of a message can tell apart. */
  predicate SameReading(v: Option<U64>, w: Option<U64>) {
    AsI32(v) == AsI32(w) && LowWord(v) == LowWord(w) && IsSet(v) == IsSet(w)
  }

  lemma SameFirstsMeanTheSame(number: U32, a: seq<Byte>, b: seq<Byte>)
    requires Known(number)
    requires forall n: U32 :: FirstBytes(Fields(a), n) == FirstBytes(Fields(b), n)
    requires forall n: U32 :: SameReading(FirstVarint(Fields(a), n), FirstVarint(Fields(b), n))
    ensures Meaning(number, a) == Meaning(number, b)
  {
    hide Fields, FirstBytes, FirstVarint, AsI32, LowWord, IsSet;
    var fs, gs := Fields(a), Fields(b);
    assert SameReading(FirstVarint(fs, 1), FirstVarint(gs, 1)) && SameReading(FirstVarint(fs, 2), FirstVarint(gs, 2));
    assert SameReading(FirstVarint(fs, 6), FirstVarint(gs, 6)) && SameReading(FirstVarint(fs, 7), FirstVarint(gs, 7));
    assert SameReading(FirstVarint(fs, 8), FirstVarint(gs, 8));
  }

  // ------------------------------------------------------- pairing messages

  function PairingOuter(number: U32, inner: seq<Field>): seq<Byte> {
    EncodeFields([VarintField(1, 2), VarintField(2, 200), BytesField(number, EncodeFields(inner))])
  }

  const ENCODING: seq<Field> := [VarintField(1, 3), VarintField(2, 6)]

  function PairingRequest(clientName: seq<Byte>): seq<Byte> {
    PairingOuter(10, [BytesField(1, CLIENT), BytesField(2, clientName)])
  }

  lemma NameFits(clientName: seq<Byte>)
    requires |clientName| < TWO63
    ensures |EncodeFields([BytesField(1, CLIENT), BytesField(2, clientName)])| <= 60 + |clientName|
    ensures |PairingRequest(clientName)| < TWO64
  {
    hide EncodeFields;
    var fs := [BytesField(1, CLIENT), BytesField(2, clientName)];
    EncodedFieldSize(fs[0]);
    EncodedFieldSize(fs[1]);
    TwoFields(fs[0], fs[1]);
    var outer := BytesField(10, EncodeFields(fs));
    EncodedFieldSize(VarintField(1, 2));
    EncodedFieldSize(VarintField(2, 200));
    EncodedFieldSize(outer);
    ThreeFields(VarintField(1, 2), VarintField(2, 200), outer);
  }

  function PairingOptions(): seq<Byte> {
    PairingOuter(20, [BytesField(1, EncodeFields(ENCODING)), VarintField(3, 1)])
  }

  function PairingConfiguration(): seq<Byte> {
    PairingOuter(30, [BytesField(1, EncodeFields(ENCODING)), VarintField(2, 1)])
  }

  function PairingSecretMessage(secret: seq<Byte>): seq<Byte> {
    PairingOuter(40, [BytesField(1, secret)])
  }

  predicate StatusOk(message: seq<Byte>) {
    FirstVarint(Fields(message), 2) == Some(200)
  }

  predicate Has(message: seq<Byte>, number: U32) {
    HasNumber(Fields(message), number)
  }

  /**
   Every pairing message built is complete, carries status 200 and exactly the
   fields 1, 2 and its own: the tests the session makes on what it receives
   tell the messages apart.
   */
  lemma PairingMessageIsReadBack(number: U32, inner: seq<Field>)
    requires number > 2 && |EncodeFields(inner)| < TWO64
    ensures var m := PairingOuter(number, inner);
      && Complete(m) && StatusOk(m)
      && FirstBytes(Fields(m), number) == Some(EncodeFields(inner))
      && forall n: U32 | n > 2 :: Has(m, n) <==> n == number
  {
    hide EncodeFields, Fields, Complete, NextField;
    var f := BytesField(number, EncodeFields(inner));
    ReaderInvertsWriter([VarintField(1, 2), VarintField(2, 200), f]);
    ScanOfOuter(f);
  }

  lemma ScanOfOuter(f: Field)
    requires f.BytesField? && f.number > 2
    ensures var fs := [VarintField(1, 2), VarintField(2, 200), f];
      && FirstVarint(fs, 2) == Some(200)
      && FirstBytes(fs, f.number) == Some(f.bytes)
      && forall n: U32 | n > 2 :: HasNumber(fs, n) <==> n == f.number
  {
    var fs := [VarintField(1, 2), VarintField(2, 200), f];
    assert fs[1..] == [VarintField(2, 200), f];
    assert fs[1..][1..] == [f];
    assert FirstBytes([f], f.number) == Some(f.bytes);
    assert FirstBytes(fs, f.number) == FirstBytes(fs[1..], f.number);
    forall n: U32 | n > 2 ensures HasNumber(fs, n) <==> n == f.number {
      assert HasNumber([f], n) <==> n == f.number;
      assert HasNumber(fs, n) <==> HasNumber(fs[1..], n);
    }
  }
}
