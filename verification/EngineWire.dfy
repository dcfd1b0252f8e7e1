/**
 The connection engine from end to end, bytes in to bytes out: what a peer that
 reads frames gets to see of the messages queued.
 */
module EngineWire {
  import opened Wrappers
  import opened Ints
  import opened Varint
  import opened Wire
  import opened Framing
  import opened Messages
  import opened PeerMessages
  import opened Voice
  import opened Engine
  import opened EngineSafety
  import opened EngineLedger
  import opened EngineRuns

  function Joined(frames: seq<seq<Byte>>): seq<Byte> {
    if frames == [] then [] else frames[0] + Joined(frames[1..])
  }

  function Encodings(q: seq<Message>): seq<seq<Byte>> {
    seq(|q|, i requires 0 <= i < |q| => Encode(q[i]))
  }

  /** The bytes on the wire give back the messages queued first, and every message its encoding. */
  lemma WireIsDecodable(q: seq<Message>, written: seq<seq<Byte>>, limit: nat)
    requires written <= Frames(q) && limit < TWO64
    requires forall o | o in q :: |Encode(o)| <= limit
    ensures Deframe(Joined(written), limit) == Deframed(Encodings(q)[..|written|], Partial([]))
  {
    hide Encode, Deframe;
    var es := Encodings(q)[..|written|];
    forall i | 0 <= i < |written| ensures written[i] == Frame(es[i]) {
      assert written[i] == Frames(q)[i];
    }
    JoinedIsFrameAll(written, es);
    DeframeInvertsFrameAll(es, limit);
  }

  lemma {:induction false} JoinedIsFrameAll(frames: seq<seq<Byte>>, payloads: seq<seq<Byte>>)
    requires |frames| == |payloads|
    requires forall i | 0 <= i < |frames| :: frames[i] == Frame(payloads[i])
    ensures Joined(frames) == FrameAll(payloads)
  {
    hide Frame;
    if frames != [] {
      JoinedIsFrameAll(frames[1..], payloads[1..]);
    }
  }

  /**
   What may be on the wire of a generation: the frames whose writes were
   acknowledged, and any part of those that follow. That covers a frame whose
   write completes too late to be noticed and one that is cut off by an error.
   */
  predicate OnTheWire(l: Log, wire: seq<Byte>) {
    Joined(l.written) <= wire <= Joined(Frames(l.queued))
  }

  /** The messages a reader that takes frames of any size gets out of a byte stream. */
  function ReadBack(wire: seq<Byte>): seq<seq<Byte>> {
    Deframe(wire, TWO64 - 1).frames
  }

  lemma QueuedFrames(q: seq<Message>)
    ensures Joined(Frames(q)) == FrameAll(Encodings(q))
    ensures forall p | p in Encodings(q) :: |p| <= TWO64 - 1
  {
    hide Encode, Frame, FrameAll, Joined;
    JoinedIsFrameAll(Frames(q), Encodings(q));
    forall i | 0 <= i < |q| ensures |Encodings(q)[i]| <= TWO64 - 1 {
      EncodeFits(q[i]);
    }
  }

  /**
   In every generation a peer reads the first messages queued in it, each one
   whole and nothing else: at least those whose writes were acknowledged, and all
   of them once every byte is on the wire.
   */
  lemma PeerReadsWhatWasQueued(options: Options, events: seq<Event>, l: Log, wire: seq<Byte>)
    requires Possible(Initial(options), events) && l in Logs(After(options, events)) && OnTheWire(l, wire)
    ensures ReadBack(wire) <= Encodings(l.queued) && Deframe(wire, TWO64 - 1).rest.Partial?
    ensures |l.written| <= |l.queued| && Encodings(l.queued)[..|l.written|] <= ReadBack(wire)
    ensures wire == Joined(Frames(l.queued)) ==> ReadBack(wire) == Encodings(l.queued)
  {
    hide After, Possible, Deframe, Encode, Joined, Frames, FrameAll, Encodings;
    QueuedIsWritten(options, events);
    QueuedFrames(l.queued);
    FramesAreAsMany(l.queued);
    var written, all := Joined(l.written), Joined(Frames(l.queued));
    assert wire + all[|wire|..] == all && written + wire[|written|..] == wire;
    PartOfFramedStream(wire, all[|wire|..], Encodings(l.queued), TWO64 - 1);
    FramesOfPrefix(written, wire[|written|..], TWO64 - 1);
    WireIsDecodable(l.queued, l.written, TWO64 - 1);
    if wire == all {
      DeframeInvertsFrameAll(Encodings(l.queued), TWO64 - 1);
    }
  }

  lemma FramesAreAsMany(q: seq<Message>)
    ensures |Frames(q)| == |q| == |Encodings(q)|
    ensures forall o: Message | o in q :: |Encode(o)| <= TWO64 - 1
  {
    hide Encode, Frame;
    forall o: Message | o in q ensures |Encode(o)| <= TWO64 - 1 {
      EncodeFits(o);
    }
  }

  /**
   From a television that frames its messages, however it encodes what it says,
   the messages handled are the first it sent, and all of them once every byte
   has arrived.
   */
  lemma TelevisionIsUnderstood(options: Options, events: seq<Event>, l: Log,
                               said: seq<Incoming>, payloads: seq<seq<Byte>>, more: seq<Byte>)
    requires Possible(Initial(options), events) && l in Logs(After(options, events))
    requires |payloads| == |said|
    requires forall i | 0 <= i < |said| :: Carries(payloads[i], said[i]) && |payloads[i]| <= MAX_FRAME_SIZE
    requires l.received + more == FrameAll(payloads)
    ensures |l.handled| <= |said| && forall i | 0 <= i < |l.handled| :: Parsed(l.handled[i]) == said[i]
    ensures more == [] ==> |l.handled| == |said|
  {
    hide After, Possible, Logs, FrameAll, Carries, Parsed;
    FramedPeerIsUnderstood(options, events, l, payloads, more);
    forall i | 0 <= i < |l.handled| ensures Parsed(l.handled[i]) == said[i] {
      PeerMessageIsRead(l.handled[i], said[i]);
    }
  }

  // ------------------------------------------------------------ pings

  /** On the wire a ping reply carries the value whole, and never asks for a reply itself. */
  lemma PongCarriesItsValue(value: I32)
    ensures var nested := FirstBytes(Fields(Encode(PingReply(value))), 9);
      nested.Some? && AsI32(FirstVarint(Fields(nested.value), 1)) == value
    ensures Parsed(Encode(PingReply(value))) == Unknown
  {
    SentIsReadBack(PingReply(value));
    MeaningOfSent(PingReply(value));
    WideningIsUndone(value);
  }

  /** What a peer takes for the value of a ping reply. */
  function PongOf(message: seq<Byte>): seq<I32> {
    match FirstBytes(Fields(message), 9)
    case None => []
    case Some(nested) => [AsI32(FirstVarint(Fields(nested), 1))]
  }

  function PongsIn(messages: seq<seq<Byte>>): seq<I32> {
    if messages == [] then [] else PongsIn(messages[..|messages| - 1]) + PongOf(messages[|messages| - 1])
  }

  lemma PongOfSent(o: Message)
    ensures PongOf(Encode(o)) == if o.PingReply? then [o.value] else []
  {
    SentIsReadBack(o);
    if o.PingReply? {
      PongCarriesItsValue(o.value);
    }
    var outer := Fields(Encode(o));
    assert FirstBytes(outer[1..], 9) == None;
    hide Encode, EncodeFields, Fields;
  }

  lemma {:induction false} PongsInEncodings(q: seq<Message>)
    ensures PongsIn(Encodings(q)) == Pongs(q)
  {
    hide Encode, PongOf;
    if q != [] {
      var before := q[..|q| - 1];
      PongsInEncodings(before);
      PongOfSent(q[|q| - 1]);
      assert Encodings(q)[..|q| - 1] == Encodings(before);
    }
  }

  lemma {:induction false} PongsOfPrefix(q: seq<Message>, k: nat)
    requires k <= |q|
    ensures Pongs(q[..k]) <= Pongs(q)
    decreases |q|
  {
    if k == |q| {
      assert q[..k] == q;
    } else {
      PongsOfPrefix(q[..|q| - 1], k);
      assert q[..|q| - 1][..k] == q[..k];
    }
  }

  /**
   From bytes to bytes: in every generation the ping replies a peer can read
   off the wire carry, one for one and in order, the values of the pings among
   the frames received. Those still missing are not on the wire yet.
   */
  lemma PingsComeBack(options: Options, events: seq<Event>, l: Log, wire: seq<Byte>)
    requires Possible(Initial(options), events) && l in Logs(After(options, events)) && OnTheWire(l, wire)
    ensures var pings := Pings(Deframe(l.received, MAX_FRAME_SIZE).frames);
      && PongsIn(ReadBack(wire)) <= pings
      && (wire == Joined(Frames(l.queued)) ==> PongsIn(ReadBack(wire)) == pings)
  {
    hide After, Possible, Pongs, PongsIn, Pings, ReadBack, Deframe, Encode, OnTheWire;
    PeerReadsWhatWasQueued(options, events, l, wire);
    ReceivedIsHandled(options, events);
    PingsAreAnswered(options, events);
    FramesAreAsMany(l.queued);
    var k := |ReadBack(wire)|;
    assert ReadBack(wire) == Encodings(l.queued)[..k];
    assert Encodings(l.queued)[..k] == Encodings(l.queued[..k]);
    PongsInEncodings(l.queued[..k]);
    PongsOfPrefix(l.queued, k);
    assert k == |l.queued| ==> l.queued[..k] == l.queued;
  }

  // ------------------------------------------------------------ voice data

  /** What a peer takes for the session and the samples of a voice payload. */
  function SessionOf(message: seq<Byte>): Option<I32> {
    match FirstBytes(Fields(message), 31)
    case None => None
    case Some(nested) => Some(AsI32(FirstVarint(Fields(nested), 1)))
  }

  function SamplesOf(message: seq<Byte>): seq<Byte> {
    match FirstBytes(Fields(message), 31)
    case None => []
    case Some(nested) => BytesOr(Fields(nested), 2, [])
  }

  lemma PayloadIsReadBack(session: I32, samples: seq<Byte>)
    requires |samples| < TWO63
    ensures var m := Encode(VoicePayload(session, samples));
      SessionOf(m) == Some(session) && SamplesOf(m) == samples
  {
    hide Encode, EncodeFields, Fields;
    var o := VoicePayload(session, samples);
    SentIsReadBack(o);
    WideningIsUndone(session);
    PayloadFields(ZeroExtended(session), samples);
    assert FirstBytes([BytesField(31, EncodeFields(Inner(o)))], 31) == Some(EncodeFields(Inner(o)));
  }

  lemma PayloadFields(session: U64, samples: seq<Byte>)
    ensures var fs := [VarintField(1, session), BytesField(2, samples)];
      FirstVarint(fs, 1) == Some(session) && BytesOr(fs, 2, []) == samples
  {
    var fs := [VarintField(1, session), BytesField(2, samples)];
    assert fs[1..] == [BytesField(2, samples)];
    assert FirstBytes(fs, 2) == FirstBytes([BytesField(2, samples)], 2) == Some(samples);
  }

  lemma {:induction false} PayloadsAreQueued(s: State, session: I32, chunks: seq<seq<Byte>>)
    requires (forall c | c in chunks :: |c| <= CHUNK_SIZE) && s.link.stream
    ensures var t := QueuePayloads(s, session, chunks);
      t.log.queued == s.log.queued + seq(|chunks|, i requires 0 <= i < |chunks| => VoicePayload(session, chunks[i]))
    decreases |chunks|
  {
    hide Encode, Frame;
    if chunks != [] {
      PayloadsAreQueued(QueueMessage(s, VoicePayload(session, chunks[0])), session, chunks[1..]);
      hide QueueMessage;
    }
  }

  function Heard(messages: seq<seq<Byte>>): seq<Byte> {
    if messages == [] then [] else SamplesOf(messages[0]) + Heard(messages[1..])
  }

  lemma {:induction false} HeardIsConcat(session: I32, chunks: seq<seq<Byte>>, messages: seq<seq<Byte>>)
    requires |messages| == |chunks|
    requires forall i | 0 <= i < |chunks| :: |chunks[i]| <= CHUNK_SIZE
    requires forall i | 0 <= i < |chunks| :: messages[i] == Encode(VoicePayload(session, chunks[i]))
    ensures Heard(messages) == Concat(chunks)
  {
    hide Encode, SamplesOf;
    if chunks != [] {
      PayloadIsReadBack(session, chunks[0]);
      HeardIsConcat(session, chunks[1..], messages[1..]);
    }
  }

  /**
   Of PCM data of any length sent while a voice session is open, the peer hears
   all, in order, followed by nothing but the padding of the last chunk; every
   message names the session.
   */
  lemma PeerHearsTheData(s: State, pcm: seq<Byte>)
    requires s.link.stream && s.session.voiceSession.Some?
    ensures var queued := SendVoiceData(s, pcm).log.queued;
      && s.log.queued <= queued
      && var messages := Encodings(queued[|s.log.queued|..]);
        && (forall m | m in messages :: SessionOf(m) == s.session.voiceSession)
        && Heard(messages) == pcm + Zeros(PaddingOf(|pcm|))
  {
    hide Encode, Chunks, SendVoiceData, SamplesOf, SessionOf, Heard, Concat, Zeros, PaddingOf;
    var session, chunks := s.session.voiceSession.value, Chunks(pcm);
    DataIsQueued(s, pcm);
    ChunksCarryTheData(pcm);
    var messages := Encodings(SendVoiceData(s, pcm).log.queued[|s.log.queued|..]);
    forall m | m in messages ensures SessionOf(m) == Some(session) {
      var i :| 0 <= i < |messages| && m == messages[i];
      PayloadIsReadBack(session, chunks[i]);
    }
    HeardIsConcat(session, chunks, messages);
  }

  lemma DataIsQueued(s: State, pcm: seq<Byte>)
    requires s.link.stream && s.session.voiceSession.Some?
    ensures var queued := SendVoiceData(s, pcm).log.queued;
      && |queued| == |s.log.queued| + |Chunks(pcm)| && s.log.queued <= queued
      && forall i | 0 <= i < |Chunks(pcm)| ::
          && |Chunks(pcm)[i]| <= CHUNK_SIZE
          && queued[|s.log.queued|..][i] == VoicePayload(s.session.voiceSession.value, Chunks(pcm)[i])
  {
    hide Chunks, QueuePayloads;
    ChunkSizes(pcm);
    PayloadsAreQueued(s, s.session.voiceSession.value, Chunks(pcm));
    forall i | 0 <= i < |Chunks(pcm)| ensures |Chunks(pcm)[i]| <= CHUNK_SIZE {
      assert Chunks(pcm)[i] in Chunks(pcm);
    }
  }
}
