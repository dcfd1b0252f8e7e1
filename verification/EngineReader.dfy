/**
 The engine as a reader of frames: in every state the messages handled in a
 generation are exactly the frames of the bytes received in it.
 */
module EngineReader {
  import opened Wrappers
  import opened Ints
  import opened Varint
  import opened Framing
  import opened Messages
  import opened Voice
  import opened Engine
  import opened EngineSafety
  import opened EngineShape

  /** Every whole frame received has been handled, once and in order, up to a length that was refused. */
  predicate Faithful(log: Log) {
    log.handled == Deframe(log.received, MAX_FRAME_SIZE).frames
  }

  /** The bytes received and not handled. */
  function Unread(log: Log): Rest {
    Deframe(log.received, MAX_FRAME_SIZE).rest
  }

  /** All of them belong to a length that goes on, and the inbox holds its digits. */
  ghost predicate AwaitsLength(log: Log, inbox: Inbox) {
    && Faithful(log) && Unread(log).Partial?
    && var p := Unread(log).bytes;
      |p| < MAX_BYTES && Consumed(p, inbox.length) && inbox.shift == 7 * |p|
  }

  /** They are the length of a body of which nothing has arrived. */
  ghost predicate AwaitsBody(log: Log, inbox: Inbox) {
    && Faithful(log) && Unread(log).Partial?
    && var p := Unread(log).bytes;
      ReadVarint(p) == Some((inbox.bodySize, |p|)) && 0 < inbox.bodySize <= MAX_FRAME_SIZE
  }

  ghost predicate Aligned(s: State) {
    && (ReadLength(s.link.generation) in s.ops ==> AwaitsLength(s.log, s.inbox))
    && (ReadBody(s.link.generation) in s.ops ==> AwaitsBody(s.log, s.inbox))
    && (!Reading(s) ==> s.log.received == [] && s.log.handled == [])
    && (forall l | l in s.past :: Faithful(l))
  }

  // ------------------------------------------------------------ the stream grows

  /** The next byte of a length: refused, an empty frame, a length, or part of one. */
  lemma ByteOfLength(r: seq<Byte>, p: seq<Byte>, value: U64, b: Byte)
    requires Deframe(r, MAX_FRAME_SIZE).rest == Partial(p)
    requires |p| < MAX_BYTES && Consumed(p, value)
    ensures var v := Accumulate(value, b, 7 * |p|);
      var fs := Deframe(r, MAX_FRAME_SIZE).frames;
      var d := Deframe(r + [b], MAX_FRAME_SIZE);
      if Continues(b) then
        if |p| == MAX_BYTES - 1 then d == Deframed(fs, Refused)
        else d == Deframed(fs, Partial(p + [b])) && Consumed(p + [b], v)
      else if v > MAX_FRAME_SIZE then d == Deframed(fs, Refused)
      else if v == 0 then d == Deframed(fs + [[]], Partial([]))
      else d == Deframed(fs, Partial(p + [b])) && ReadVarint(p + [b]) == Some((v, |p| + 1))
  {
    ConsumeByte(p, value, b, []);
    assert p + [b] + [] == p + [b];
    DeframeMore(r, [b], MAX_FRAME_SIZE);
    LoneLength(p, value, b);
    var fs := Deframe(r, MAX_FRAME_SIZE).frames;
    assert fs + [] == fs;
    hide HasFrame, LengthRefused, Deframe, ReadVarint, Accumulate;
  }

  lemma LoneLength(p: seq<Byte>, value: U64, b: Byte)
    requires |p| < MAX_BYTES && Consumed(p, value)
    ensures var v := Accumulate(value, b, 7 * |p|);
      var d := Deframe(p + [b], MAX_FRAME_SIZE);
      if Continues(b) then d == Deframed([], if |p| == MAX_BYTES - 1 then Refused else Partial(p + [b]))
      else if v > MAX_FRAME_SIZE then d == Deframed([], Refused)
      else if v == 0 then d == Deframed([[]], Partial([]))
      else d == Deframed([], Partial(p + [b]))
  {
    ConsumeByte(p, value, b, []);
    assert p + [b] + [] == p + [b];
    var v := Accumulate(value, b, 7 * |p|);
    if Continues(b) {
      ConsumedAll(p + [b], v, []);
    } else {
      assert ReadVarint(p + [b]) == Some((v, |p + [b]|));
      hide ReadVarint, Accumulate;
      if v == 0 {
        assert FirstFrame(p + [b], MAX_FRAME_SIZE) == [] && AfterFrame(p + [b], MAX_FRAME_SIZE) == [];
        EmptyStream();
      }
    }
  }

  lemma EmptyStream()
    ensures Deframe([], MAX_FRAME_SIZE) == Deframed([], Partial([]))
  {
  }

  lemma BodyArrives(r: seq<Byte>, p: seq<Byte>, body: seq<Byte>)
    requires Deframe(r, MAX_FRAME_SIZE).rest == Partial(p)
    requires ReadVarint(p) == Some((|body|, |p|)) && |body| <= MAX_FRAME_SIZE
    ensures Deframe(r + body, MAX_FRAME_SIZE) ==
      Deframed(Deframe(r, MAX_FRAME_SIZE).frames + [body], Partial([]))
  {
    DeframeMore(r, body, MAX_FRAME_SIZE);
    ReadVarintOfPrefix(p, body);
    hide ReadVarint;
    assert HasFrame(p + body, MAX_FRAME_SIZE);
    assert FirstFrame(p + body, MAX_FRAME_SIZE) == body;
    assert AfterFrame(p + body, MAX_FRAME_SIZE) == [];
    EmptyStream();
    hide HasFrame, FirstFrame, AfterFrame, LengthRefused;
    assert Deframe(p + body, MAX_FRAME_SIZE) == Deframed([body] + [], Partial([]));
  }

  // ------------------------------------------------------------ the functions

  lemma ReaderIsFaithful(s: State)
    requires Pending(s) && Aligned(s)
    ensures Faithful(s.log)
  {
    EmptyStream();
  }

  lemma ClosedReader(s: State)
    requires Bounded(s) && Faithful(s.log)
    requires forall l | l in s.past :: Faithful(l)
    ensures Aligned(CloseStream(s)) && !Reading(CloseStream(s))
  {
    hide Faithful;
    ClosedIsNotReading(s);
  }

  lemma BeginConnectReader(s: State, reconnecting: bool, loads: bool)
    requires Bounded(s) && Faithful(s.log) && !s.link.userDisconnect
    requires forall l | l in s.past :: Faithful(l)
    ensures Aligned(BeginConnect(s, reconnecting, loads))
  {
    hide Faithful, CloseStream;
    ClosedReader(s);
    var c := CloseStream(s);
    assert !Reading(Post(c, Resolve(c.link.generation)));
  }

  lemma LossReader(s: State)
    requires Bounded(s) && Faithful(s.log)
    requires forall l | l in s.past :: Faithful(l)
    ensures Aligned(HandleConnectionLoss(s, s.link.generation))
    ensures !s.link.userDisconnect ==> Aligned(ConnectionFailed(s, s.link.generation))
    ensures !s.link.userDisconnect ==> Aligned(AuthenticationFailed(s, s.link.generation))
  {
    hide Faithful, CloseStream;
    ClosedReader(s);
  }

  /** The two states read alike: same generation, pending reads, inbox and bytes. */
  ghost predicate SameReader(s: State, t: State) {
    && s.link.generation == t.link.generation
    && (forall op: Op | op.ReadLength? || op.ReadBody? :: op in s.ops <==> op in t.ops)
    && s.inbox == t.inbox && s.past == t.past
    && s.log.received == t.log.received && s.log.handled == t.log.handled
  }

  lemma SameReaderReads(s: State, t: State)
    requires SameReader(s, t) && Aligned(s)
    ensures Aligned(t)
  {
    assert ReadLength(s.link.generation) in s.ops <==> ReadLength(s.link.generation) in t.ops;
    assert ReadBody(s.link.generation) in s.ops <==> ReadBody(s.link.generation) in t.ops;
    hide Deframe, Consumed, ReadVarint;
  }

  lemma QueueMessageReads(s: State, o: Message)
    ensures SameReader(s, QueueMessage(s, o))
  {
    hide QueueMessage, Frame, Encode;
  }

  lemma {:induction false} QueuePayloadsReads(s: State, session: I32, chunks: seq<seq<Byte>>)
    requires forall c | c in chunks :: |c| <= CHUNK_SIZE
    ensures SameReader(s, QueuePayloads(s, session, chunks))
    decreases |chunks|
  {
    if chunks != [] {
      QueueMessageReads(s, VoicePayload(session, chunks[0]));
      QueuePayloadsReads(QueueMessage(s, VoicePayload(session, chunks[0])), session, chunks[1..]);
    }
    hide QueueMessage;
  }

  lemma HandleMessageReads(s: State, message: seq<Byte>)
    ensures var r := HandleMessage(s, message);
      && (forall op: Op | op.ReadLength? || op.ReadBody? :: op in s.ops <==> op in r.ops)
  {
    hide QueueMessage, Parsed, And32, HasVoice;
  }

  /** After a handled message the next length is awaited. */
  lemma NextLength(s: State, message: seq<Byte>)
    requires Linked(s, 0) && s.link.stream
    requires Deframe(s.log.received, MAX_FRAME_SIZE) == Deframed(s.log.handled + [message], Partial([]))
    requires forall l | l in s.past :: Faithful(l)
    ensures Aligned(BeginReadLength(HandleMessage(s, message), s.link.generation))
  {
    HandleMessageReads(s, message);
    HandleMessageFrame(s, message);
    hide HandleMessage;
    var h := HandleMessage(s, message);
    var r := BeginReadLength(h, s.link.generation);
    assert ReadBody(s.link.generation) !in h.ops;
    assert r.log == h.log && r.inbox.length == 0 && r.inbox.shift == 0;
    assert AwaitsLength(r.log, r.inbox);
  }

  // ------------------------------------------------------------ the handlers

  lemma LengthByteReader(s: State, b: Byte)
    requires Linked(s, 0) && s.link.stream && AwaitsLength(s.log, s.inbox)
    requires forall l | l in s.past :: Faithful(l)
    ensures Aligned(LengthByte(Received(s, [b]), s.link.generation, b))
  {
    var p := Unread(s.log).bytes;
    ByteOfLength(s.log.received, p, s.inbox.length, b);
    hide Deframe, Accumulate, Consumed, ReadVarint;
    var r := Received(s, [b]);
    var t := r.(inbox := r.inbox.(length := Accumulate(r.inbox.length, b, r.inbox.shift)));
    assert Linked(t, 0) && |p + [b]| == |p| + 1;
    if Continues(b) {
      LengthGoesOnReader(t, p + [b]);
    } else {
      LengthEndsReader(t, p + [b]);
    }
    hide LengthGoesOn, LengthEnds;
  }

  lemma LengthGoesOnReader(s: State, p: seq<Byte>)
    requires Linked(s, 0) && s.link.stream && Faithful(s.log) && s.inbox.shift == 7 * (|p| - 1)
    requires 0 < |p| <= MAX_BYTES
    requires |p| < MAX_BYTES ==> Unread(s.log) == Partial(p) && Consumed(p, s.inbox.length)
    requires forall l | l in s.past :: Faithful(l)
    ensures Aligned(LengthGoesOn(s, s.link.generation))
  {
    hide Faithful, Unread, Consumed, HandleConnectionLoss;
    var t := s.(inbox := s.inbox.(shift := s.inbox.shift + 7));
    LossReader(t);
    assert |p| < MAX_BYTES ==> AwaitsLength(t.log, t.inbox);
    assert ReadBody(s.link.generation) !in s.ops;
  }

  lemma LengthEndsReader(s: State, p: seq<Byte>)
    requires Linked(s, 0) && s.link.stream
    requires forall l | l in s.past :: Faithful(l)
    requires s.inbox.length > MAX_FRAME_SIZE ==> Faithful(s.log)
    requires s.inbox.length == 0 ==>
      Deframe(s.log.received, MAX_FRAME_SIZE) == Deframed(s.log.handled + [[]], Partial([]))
    requires 0 < s.inbox.length <= MAX_FRAME_SIZE ==>
      && Deframe(s.log.received, MAX_FRAME_SIZE) == Deframed(s.log.handled, Partial(p))
      && ReadVarint(p) == Some((s.inbox.length, |p|))
    ensures Aligned(LengthEnds(s, s.link.generation))
  {
    hide Deframe, ReadVarint, HandleConnectionLoss, HandleMessage, BeginReadLength;
    if s.inbox.length > MAX_FRAME_SIZE {
      LossReader(s);
    } else {
      var t := s.(inbox := s.inbox.(bodySize := s.inbox.length));
      if s.inbox.length == 0 {
        assert Linked(t, 0);
        NextLength(t, []);
      } else {
        assert AwaitsBody(t.log, t.inbox);
        assert ReadLength(s.link.generation) !in s.ops;
      }
    }
  }

  lemma LengthByteReadReader(s: State, g: nat, input: Option<Byte>)
    requires Pending(s) && Aligned(s) && ReadLength(g) in s.ops
    ensures Aligned(LengthByteRead(s, g, input))
  {
    hide Faithful, AwaitsLength, AwaitsBody;
    var t := Take(s, ReadLength(g));
    ReaderIsFaithful(s);
    if g != s.link.generation {
      SameCurrent(s, t);
    } else {
      LossReader(t);
      if input.Some? {
        LengthByteReader(t, input.value);
      }
    }
    hide ConnectionFailed, LengthByte, Aligned;
  }

  lemma SameCurrent(s: State, t: State)
    requires Aligned(s) && t == s.(ops := t.ops)
    requires ReadLength(s.link.generation) in s.ops <==> ReadLength(s.link.generation) in t.ops
    requires ReadBody(s.link.generation) in s.ops <==> ReadBody(s.link.generation) in t.ops
    ensures Aligned(t)
  {
    hide Faithful, AwaitsLength, AwaitsBody;
  }

  lemma BodyReader(s: State, body: seq<Byte>)
    requires Linked(s, 0) && s.link.stream && AwaitsBody(s.log, s.inbox) && |body| == s.inbox.bodySize
    requires forall l | l in s.past :: Faithful(l)
    ensures Aligned(BeginReadLength(HandleMessage(ResetIdleTimer(Received(s, body)), body), s.link.generation))
  {
    hide Deframe, ReadVarint, HandleMessage, BeginReadLength, Aligned;
    BodyArrives(s.log.received, Unread(s.log).bytes, body);
    var u := ResetIdleTimer(Received(s, body));
    assert Linked(u, 0);
    NextLength(u, body);
  }

  lemma BodyReadReader(s: State, g: nat, input: Option<seq<Byte>>)
    requires Pending(s) && Aligned(s) && Enabled(s, OnBody(g, input))
    ensures Aligned(BodyRead(s, g, input))
  {
    hide ConnectionFailed, HandleMessage, BeginReadLength, Faithful, AwaitsBody, AwaitsLength;
    var t := Take(s, ReadBody(g));
    ReaderIsFaithful(s);
    if g != s.link.generation {
      SameCurrent(s, t);
    } else {
      ChainTakeLinks(s, ReadBody(g), ReadLength(g));
      hide Linked, Pending;
      if input.Some? {
        BodyReader(t, input.value);
        HandleMessageFrame(ResetIdleTimer(Received(t, input.value)), input.value);
      } else {
        LinkedIsBounded(t, 0);
        LossReader(t);
      }
      hide Aligned;
    }
  }

  lemma LinkedIsBounded(s: State, n: nat)
    requires Linked(s, n)
    ensures Bounded(s) && (s.link.stream ==> !s.link.userDisconnect)
  {
  }

  /** The reader starts afresh on a new connection. */
  lemma FirstLength(s: State)
    requires Linked(s, 0) && s.link.stream && s.log.received == [] && s.log.handled == []
    requires forall l | l in s.past :: Faithful(l)
    ensures Aligned(ResetIdleTimer(BeginReadLength(ResetDelay(s), s.link.generation)))
  {
    EmptyStream();
    var r := BeginReadLength(ResetDelay(s), s.link.generation);
    hide Deframe;
    assert AwaitsLength(r.log, r.inbox);
    assert ReadBody(s.link.generation) !in r.ops;
  }

  /** Until the handshake is over nothing is read. */
  lemma NotYetReading(s: State)
    requires Pending(s) && Aligned(s) && Handshake(s.link.generation) in s.ops
    ensures s.log.received == [] && s.log.handled == []
  {
    assert !Reading(s);
  }

  lemma HandshakenReader(s: State, g: nat, ok: bool)
    requires Pending(s) && Aligned(s) && Handshake(g) in s.ops
    ensures Aligned(Handshaken(s, g, ok))
  {
    hide AuthenticationFailed, BeginReadLength, Faithful, AwaitsLength, AwaitsBody;
    var t := Take(s, Handshake(g));
    ReaderIsFaithful(s);
    if g != s.link.generation {
      SameCurrent(s, t);
    } else {
      NotYetReading(s);
      ChainTakeLinks(s, Handshake(g), ReadLength(g));
      hide Linked, Pending;
      LinkedIsBounded(t, 0);
      LossReader(t);
      FirstLength(t);
      hide Aligned;
    }
  }

  lemma ResolvedReader(s: State, g: nat, ok: bool)
    requires Pending(s) && Aligned(s) && Resolve(g) in s.ops
    ensures Aligned(Resolved(s, g, ok))
  {
    hide ConnectionFailed, Faithful, AwaitsLength, AwaitsBody;
    var t := Take(s, Resolve(g));
    ReaderIsFaithful(s);
    SameCurrent(s, t);
    if g == s.link.generation {
      LossReader(t);
      SameCurrent(t, Post(t, Connect(g)));
    }
    hide Aligned;
  }

  lemma TcpConnectedReader(s: State, g: nat, ok: bool)
    requires Pending(s) && Aligned(s) && Connect(g) in s.ops
    ensures Aligned(TcpConnected(s, g, ok))
  {
    hide ConnectionFailed, Faithful, AwaitsLength, AwaitsBody;
    var t := Take(s, Connect(g));
    ReaderIsFaithful(s);
    SameCurrent(s, t);
    if g == s.link.generation {
      LossReader(t);
      SameCurrent(t, Post(t, Handshake(g)));
    }
    hide Aligned;
  }

  lemma WrittenReader(s: State, g: nat, ok: bool)
    requires Pending(s) && Aligned(s) && Write(g) in s.ops
    ensures Aligned(Written(s, g, ok))
  {
    ReaderIsFaithful(s);
    var t := Take(s, Write(g)).(outbox := s.outbox.(busy := false));
    if g == s.link.generation {
      LossReader(t);
      if s.outbox.queue != [] {
        SameReaderReads(s, Written(s, g, true));
      }
    } else {
      SameReaderReads(s, Take(s, Write(g)));
    }
    hide ConnectionFailed, Faithful, Aligned;
  }

  lemma CommandReads(s: State, o: Message)
    requires Aligned(s)
    ensures Aligned(QueueMessage(s, o))
  {
    hide QueueMessage, Aligned;
    QueueMessageReads(s, o);
    SameReaderReads(s, QueueMessage(s, o));
  }

  lemma StartVoiceReads(s: State)
    requires Aligned(s)
    ensures Aligned(StartVoice(s))
  {
    hide QueueMessage, Aligned;
    QueueMessageReads(s.(session := s.session.(voiceStarting := true)), Key(KEYCODE_SEARCH, SHORT));
    SameReaderReads(s, StartVoice(s));
  }

  lemma StopVoiceReads(s: State)
    requires Aligned(s)
    ensures Aligned(StopVoice(s))
  {
    hide QueueMessage, Aligned;
    if s.session.voiceSession.Some? {
      QueueMessageReads(s.(timers := s.timers.(voiceArmed := false), session := s.session.(voiceStarting := false)),
                        VoiceEnd(s.session.voiceSession.value));
    }
    SameReaderReads(s, StopVoice(s));
  }

  lemma SendVoiceDataReads(s: State, pcm: seq<Byte>)
    requires Aligned(s)
    ensures Aligned(SendVoiceData(s, pcm))
  {
    hide QueuePayloads, Chunks, Aligned;
    if s.session.voiceSession.Some? {
      ChunkSizes(pcm);
      QueuePayloadsReads(s, s.session.voiceSession.value, Chunks(pcm));
    }
    SameReaderReads(s, SendVoiceData(s, pcm));
  }

  lemma UserConnectReader(s: State, loads: bool)
    requires Pending(s) && Aligned(s)
    ensures Aligned(UserConnect(s, loads))
  {
    hide BeginConnect, Faithful;
    ReaderIsFaithful(s);
    BeginConnectReader(ResetDelay(s.(link := s.link.(userDisconnect := false),
                                     timers := s.timers.(reconnectArmed := false))), false, loads);
    hide Aligned;
  }

  lemma ReconnectReader(s: State, loads: bool)
    requires Pending(s) && Aligned(s) && s.timers.reconnectFired > 0
    ensures Aligned(ReconnectRuns(s, loads))
  {
    hide BeginConnect, Faithful;
    ReaderIsFaithful(s);
    if s.link.userDisconnect {
      SameReaderReads(s, ReconnectRuns(s, loads));
    } else {
      BeginConnectReader(s.(timers := s.timers.(reconnectFired := s.timers.reconnectFired - 1)), true, loads);
    }
    hide Aligned;
  }

  lemma IdleReader(s: State, g: nat)
    requires Pending(s) && Aligned(s)
    ensures Aligned(IdleRuns(s, g))
  {
    hide HandleConnectionLoss, Faithful;
    ReaderIsFaithful(s);
    var t := s.(timers := s.timers.(idleFired := s.timers.idleFired - multiset{g}));
    LossReader(t);
    SameReaderReads(s, t);
    hide Aligned;
  }

  lemma UserDisconnectReader(s: State)
    requires Pending(s) && Aligned(s)
    ensures Aligned(UserDisconnect(s))
  {
    hide CloseStream, Faithful;
    ReaderIsFaithful(s);
    var t := s.(link := s.link.(userDisconnect := true),
                timers := s.timers.(reconnectArmed := false, voiceArmed := false, idleArmed := None));
    ClosedReader(t);
    SameReaderReads(CloseStream(t), UserDisconnect(s));
  }

  lemma TimersRead(s: State, e: Event)
    requires Aligned(s) && Enabled(s, e)
    requires e.ReconnectExpires? || e.IdleExpires? || e.VoiceExpires? || e.OnVoiceTimer?
    ensures Aligned(Step(s, e))
  {
    SameReaderReads(s, Step(s, e));
    hide Aligned;
  }

  lemma StepKeepsReader(s: State, e: Event)
    requires Pending(s) && Aligned(s) && Enabled(s, e)
    ensures Aligned(Step(s, e))
  {
    hide Aligned, Pending, Resolved, TcpConnected, Handshaken, LengthByteRead, BodyRead, Written, UserConnect,
      UserDisconnect, ReconnectRuns, IdleRuns, QueueMessage, StartVoice, StopVoice, SendVoiceData;
    match e
    case CallConnect(loads) => UserConnectReader(s, loads);
    case CallDisconnect => UserDisconnectReader(s);
    case CallSendKey(code, direction) => CommandReads(s, Key(code, direction));
    case CallSendText(text) => CommandReads(s, Text(text, s.session.imeCounter, s.session.imeFieldCounter));
    case CallLaunchApp(link) => CommandReads(s, AppLink(link));
    case CallStartVoice => StartVoiceReads(s);
    case CallStopVoice => StopVoiceReads(s);
    case CallSendVoiceData(pcm) => SendVoiceDataReads(s, pcm);
    case OnResolved(g, ok) => ResolvedReader(s, g, ok);
    case OnConnected(g, ok) => TcpConnectedReader(s, g, ok);
    case OnHandshake(g, ok) => HandshakenReader(s, g, ok);
    case OnLengthByte(g, input) => LengthByteReadReader(s, g, input);
    case OnBody(g, body) => BodyReadReader(s, g, body);
    case OnWritten(g, ok) => WrittenReader(s, g, ok);
    case OnReconnect(loads) => ReconnectReader(s, loads);
    case OnIdle(g) => IdleReader(s, g);
    case _ => TimersRead(s, e); hide Step;
  }
}
