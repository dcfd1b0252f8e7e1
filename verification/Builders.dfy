/** The message builders of src/protocol_messages.cpp, field by field. */
module Builders {
  import opened Ints
  import opened Wire
  import opened Messages

  /** The last step of every builder: the nested message becomes the one field of the remote message. */
  method Enclose(number: U32, nested: Writer, ghost o: Outgoing) returns (message: seq<Byte>)
    requires Fits(o) && number == OuterNumber(o)
    requires nested.Valid() && nested.fields == Inner(o)
    ensures message == Encode(o)
  {
    hide EncodeFields;
    InnerFits(o);
    var remote := new Writer();
    remote.PutMessageField(number, nested);
    assert remote.fields == [BytesField(number, nested.data)];
    return remote.data;
  }

  method RemoteConfigureResponse(activeFeatures: I32) returns (message: seq<Byte>)
    ensures message == Encode(ConfigureReply(activeFeatures))
  {
    hide EncodeFields;
    FewFieldsFit(DEVICE, 10);
    var device := new Writer();
    device.PutVarintField(3, 1);
    device.PutBytesField(4, ONE);
    device.PutBytesField(5, CLIENT);
    device.PutBytesField(6, VERSION);
    assert device.fields == DEVICE;
    var configure := new Writer();
    configure.PutVarintField(1, SignExtended(activeFeatures));
    configure.PutMessageField(2, device);
    message := Enclose(1, configure, ConfigureReply(activeFeatures));
  }

  method RemoteSetActiveResponse(activeFeatures: I32) returns (message: seq<Byte>)
    ensures message == Encode(SetActiveReply(activeFeatures))
  {
    hide EncodeFields;
    var nested := new Writer();
    nested.PutVarintField(1, SignExtended(activeFeatures));
    message := Enclose(2, nested, SetActiveReply(activeFeatures));
  }

  method RemotePingResponse(value: I32) returns (message: seq<Byte>)
    ensures message == Encode(PingReply(value))
  {
    hide EncodeFields;
    var nested := new Writer();
    nested.PutVarintField(1, ZeroExtended(value));
    message := Enclose(9, nested, PingReply(value));
  }

  method RemoteKey(keyCode: I32, direction: Direction) returns (message: seq<Byte>)
    ensures message == Encode(Key(keyCode, direction))
  {
    hide EncodeFields;
    var key := new Writer();
    key.PutVarintField(1, ZeroExtended(keyCode));
    key.PutVarintField(2, direction);
    message := Enclose(10, key, Key(keyCode, direction));
  }

  method BuildTextObject(text: seq<Byte>) returns (imeObject: Writer)
    requires CursorFits(text)
    ensures fresh(imeObject) && imeObject.Valid() && imeObject.fields == TextObject(text)
    ensures |imeObject.data| < TWO64
  {
    hide EncodeFields;
    TextPartsFit(text);
    LastIndexWraps(|text|);
    hide TruncateI32, ZeroExtended;
    var pos: I32 := TruncateI32(|text|) - 1;
    imeObject := new Writer();
    imeObject.PutVarintField(1, ZeroExtended(pos));
    imeObject.PutVarintField(2, ZeroExtended(pos));
    imeObject.PutBytesField(3, text);
    assert imeObject.fields == TextObject(text);
  }

  method BuildTextEdit(text: seq<Byte>) returns (editInfo: Writer)
    requires CursorFits(text)
    ensures fresh(editInfo) && editInfo.Valid() && editInfo.fields == TextEdit(text)
    ensures |editInfo.data| < TWO64
  {
    hide EncodeFields, TextObject;
    var imeObject := BuildTextObject(text);
    editInfo := new Writer();
    editInfo.PutVarintField(1, 1);
    editInfo.PutMessageField(2, imeObject);
    assert editInfo.fields == TextEdit(text);
    TextPartsFit(text);
  }

  method RemoteText(text: seq<Byte>, imeCounter: I32, fieldCounter: I32) returns (message: seq<Byte>)
    requires CursorFits(text)
    ensures message == Encode(Text(text, imeCounter, fieldCounter))
  {
    hide EncodeFields, TextEdit;
    var editInfo := BuildTextEdit(text);
    var batch := new Writer();
    batch.PutVarintField(1, ZeroExtended(imeCounter));
    batch.PutVarintField(2, ZeroExtended(fieldCounter));
    batch.PutMessageField(3, editInfo);
    message := Enclose(21, batch, Text(text, imeCounter, fieldCounter));
  }

  method RemoteAppLink(appLink: seq<Byte>) returns (message: seq<Byte>)
    requires |appLink| < TWO63
    ensures message == Encode(AppLink(appLink))
  {
    hide EncodeFields;
    var launch := new Writer();
    launch.PutBytesField(1, appLink);
    message := Enclose(90, launch, AppLink(appLink));
  }

  method RemoteVoiceBegin(sessionId: I32) returns (message: seq<Byte>)
    ensures message == Encode(VoiceBegin(sessionId))
  {
    hide EncodeFields;
    var nested := new Writer();
    nested.PutVarintField(1, ZeroExtended(sessionId));
    message := Enclose(30, nested, VoiceBegin(sessionId));
  }

  method RemoteVoicePayload(sessionId: I32, samples: seq<Byte>) returns (message: seq<Byte>)
    requires |samples| < TWO63
    ensures message == Encode(VoicePayload(sessionId, samples))
  {
    hide EncodeFields;
    var payload := new Writer();
    payload.PutVarintField(1, ZeroExtended(sessionId));
    payload.PutBytesField(2, samples);
    message := Enclose(31, payload, VoicePayload(sessionId, samples));
  }

  method RemoteVoiceEnd(sessionId: I32) returns (message: seq<Byte>)
    ensures message == Encode(VoiceEnd(sessionId))
  {
    hide EncodeFields;
    var nested := new Writer();
    nested.PutVarintField(1, ZeroExtended(sessionId));
    message := Enclose(32, nested, VoiceEnd(sessionId));
  }

  // ------------------------------------------------------- pairing messages

  method BuildPairingOuter(number: U32, inner: Writer) returns (message: seq<Byte>)
    requires inner.Valid() && |inner.data| < TWO64
    ensures message == PairingOuter(number, inner.fields)
  {
    hide EncodeFields;
    var outer := new Writer();
    outer.PutVarintField(1, 2);
    outer.PutVarintField(2, 200);
    outer.PutMessageField(number, inner);
    assert outer.fields == [VarintField(1, 2), VarintField(2, 200), BytesField(number, inner.data)];
    return outer.data;
  }

  method BuildPairingRequest(clientName: seq<Byte>) returns (message: seq<Byte>)
    requires |clientName| < TWO63
    ensures message == PairingRequest(clientName)
  {
    hide EncodeFields;
    var request := new Writer();
    request.PutBytesField(1, CLIENT);
    request.PutBytesField(2, clientName);
    assert request.fields == [BytesField(1, CLIENT), BytesField(2, clientName)];
    NameFits(clientName);
    message := BuildPairingOuter(10, request);
  }

  method BuildEncoding() returns (encoding: Writer)
    ensures fresh(encoding) && encoding.Valid() && encoding.fields == ENCODING
    ensures |encoding.data| <= 80
  {
    hide EncodeFields;
    encoding := new Writer();
    encoding.PutVarintField(1, 3);
    encoding.PutVarintField(2, 6);
    FewFieldsFit(encoding.fields, 0);
  }

  method BuildPairingOptions() returns (message: seq<Byte>)
    ensures message == PairingOptions()
  {
    hide EncodeFields;
    var encoding := BuildEncoding();
    var options := new Writer();
    options.PutMessageField(1, encoding);
    options.PutVarintField(3, 1);
    assert options.fields == [BytesField(1, EncodeFields(ENCODING)), VarintField(3, 1)];
    FewFieldsFit(options.fields, 80);
    message := BuildPairingOuter(20, options);
  }

  method BuildPairingConfiguration() returns (message: seq<Byte>)
    ensures message == PairingConfiguration()
  {
    hide EncodeFields;
    var encoding := BuildEncoding();
    var configuration := new Writer();
    configuration.PutMessageField(1, encoding);
    configuration.PutVarintField(2, 1);
    assert configuration.fields == [BytesField(1, EncodeFields(ENCODING)), VarintField(2, 1)];
    FewFieldsFit(configuration.fields, 80);
    message := BuildPairingOuter(30, configuration);
  }

  method BuildPairingSecret(secretBytes: seq<Byte>) returns (message: seq<Byte>)
    requires |secretBytes| < TWO32
    ensures message == PairingSecretMessage(secretBytes)
  {
    hide EncodeFields;
    var secret := new Writer();
    secret.PutBytesField(1, secretBytes);
    assert secret.fields == [BytesField(1, secretBytes)];
    FewFieldsFit(secret.fields, |secretBytes|);
    message := BuildPairingOuter(40, secret);
  }
}
