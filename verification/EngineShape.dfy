/**
 The shapes a state of the connection engine can have: how the connection
 state, the stream, the voice session and the timers go together.
 */
module EngineShape {
  import opened Wrappers
  import opened Ints
  import opened Varint
  import opened Framing
  import opened Messages
  import opened Voice
  import opened Engine
  import opened EngineSafety

  predicate ReconnectPending(s: State) {
    s.timers.reconnectArmed || s.timers.reconnectFired > 0
  }

  predicate IdlePending(s: State) {
    s.timers.idleArmed == Some(s.link.generation) || s.link.generation in s.timers.idleFired
  }

  predicate VoiceTimeoutPending(s: State) {
    s.timers.voiceArmed || s.timers.voiceFired > 0
  }

  /**
   One of three shapes: disconnected without a stream; a live stream; or no
   stream but a reconnect to come. Connected only once the handshake is over,
   with the idle timer running; a voice session only while connected.
   */
  predicate ShapeIf(s: State, reading: bool) {
    && (s.link.userDisconnect ==> s.link.connection == Disconnected)
    && (s.link.connection == Disconnected ==> !s.link.stream)
    && (s.link.connection == Connecting ==> s.link.stream)
    && (s.link.connection == Connected ==> reading)
    && (s.link.connection == Reconnecting ==> s.link.stream || ReconnectPending(s))
    && (reading ==> s.link.stream && IdlePending(s))
    && (s.session.voiceStarting || s.session.voiceSession.Some? ==> s.link.connection == Connected)
    && !(s.session.voiceStarting && s.session.voiceSession.Some?)
    && (s.session.voiceStarting ==> VoiceTimeoutPending(s))
  }

  predicate Shape(s: State) {
    ShapeIf(s, Reading(s))
  }

  // ------------------------------------------------------------ the functions

  lemma ClosedIsNotReading(s: State)
    requires Bounded(s)
    ensures !Reading(CloseStream(s))
  {
  }

  lemma ClosedShape(s: State)
    requires Bounded(s)
    ensures Shape(SetConnection(CloseStream(s), Disconnected))
    ensures !s.link.userDisconnect ==> Shape(ScheduleReconnect(CloseStream(s)))
  {
    ClosedIsNotReading(s);
  }

  lemma BeginConnectShape(s: State, reconnecting: bool, loads: bool)
    requires Bounded(s) && !s.link.userDisconnect
    ensures Shape(BeginConnect(s, reconnecting, loads))
  {
    ClosedShape(s);
    ClosedIsNotReading(s);
  }

  lemma LossShape(s: State)
    requires Bounded(s)
    ensures Shape(HandleConnectionLoss(s, s.link.generation))
    ensures !s.link.userDisconnect ==> Shape(ConnectionFailed(s, s.link.generation))
    ensures !s.link.userDisconnect ==> Shape(AuthenticationFailed(s, s.link.generation))
  {
    ClosedShape(s);
    hide CloseStream, SetConnection, ScheduleReconnect;
  }

  lemma QueueMessageShape(s: State, o: Message, reading: bool)
    requires ShapeIf(s, reading)
    ensures ShapeIf(QueueMessage(s, o), reading)
    ensures Reading(QueueMessage(s, o)) == Reading(s)
  {
    hide QueueMessage, Encode, Frame;
  }

  lemma {:induction false} QueuePayloadsShape(s: State, session: I32, chunks: seq<seq<Byte>>)
    requires (forall c | c in chunks :: |c| <= CHUNK_SIZE) && Shape(s)
    ensures Shape(QueuePayloads(s, session, chunks))
    decreases |chunks|
  {
    hide QueueMessage, ShapeIf, Reading;
    if chunks != [] {
      QueueMessageShape(s, VoicePayload(session, chunks[0]), Reading(s));
      QueuePayloadsShape(QueueMessage(s, VoicePayload(session, chunks[0])), session, chunks[1..]);
    }
  }

  lemma DigestShape(s: State, m: Incoming)
    requires ShapeIf(s, true)
    ensures ShapeIf(Digest(s, m), true)
  {
    hide And32, HasVoice;
  }

  lemma HandleMessageShape(s: State, message: seq<Byte>)
    requires ShapeIf(s, true)
    ensures ShapeIf(HandleMessage(s, message), true)
  {
    var m := Parsed(message);
    DigestShape(Noted(s, message), m);
    if Answer(s.session, m).Some? {
      QueueMessageShape(Digest(Noted(s, message), m), Answer(s.session, m).value, true);
    }
    hide QueueMessage, Parsed, ShapeIf, Digest;
  }

  lemma BeginReadLengthShape(s: State)
    requires ShapeIf(s, true)
    ensures Shape(BeginReadLength(s, s.link.generation))
    ensures Reading(BeginReadLength(s, s.link.generation))
  {
  }

  // ------------------------------------------------------------ the handlers

  /** Handlers of older generations do not touch what the shape is about. */
  lemma StaleTakeShape(s: State, op: Op)
    requires Shape(s) && op.gen != s.link.generation
    ensures Shape(Take(s, op))
  {
  }

  lemma LengthByteShape(s: State, b: Byte)
    requires Bounded(s) && ShapeIf(s, true)
    ensures Shape(LengthByte(s, s.link.generation, b))
  {
    hide Accumulate, HandleConnectionLoss, BeginReadLength, HandleMessage;
    var t := s.(inbox := s.inbox.(length := Accumulate(s.inbox.length, b, s.inbox.shift)));
    assert ShapeIf(t, true);
    if Continues(b) {
      LossShape(t.(inbox := t.inbox.(shift := t.inbox.shift + 7)));
    } else {
      LossShape(t);
      var tb := t.(inbox := t.inbox.(bodySize := t.inbox.length));
      assert ShapeIf(tb, true);
      HandleMessageShape(tb, []);
      HandleMessageFrame(tb, []);
      BeginReadLengthShape(HandleMessage(tb, []));
    }
  }

  lemma LengthByteReadShape(s: State, g: nat, input: Option<Byte>)
    requires Pending(s) && Shape(s) && ReadLength(g) in s.ops
    ensures Shape(LengthByteRead(s, g, input))
  {
    var t := Take(s, ReadLength(g));
    if g != s.link.generation {
      StaleTakeShape(s, ReadLength(g));
    } else {
      assert Bounded(t) && ShapeIf(t, true);
      LossShape(t);
      if input.Some? {
        LengthByteShape(Received(t, [input.value]), input.value);
      }
    }
    hide ConnectionFailed, LengthByte, Shape;
  }

  lemma BodyReadShape(s: State, g: nat, input: Option<seq<Byte>>)
    requires Pending(s) && Shape(s) && ReadBody(g) in s.ops
    ensures Shape(BodyRead(s, g, input))
  {
    var t := Take(s, ReadBody(g));
    if g != s.link.generation {
      StaleTakeShape(s, ReadBody(g));
    } else {
      assert Bounded(t) && ShapeIf(t, true);
      LossShape(t);
      if input.Some? {
        var u := ResetIdleTimer(Received(t, input.value));
        assert ShapeIf(u, true);
        HandleMessageShape(u, input.value);
        HandleMessageFrame(u, input.value);
        BeginReadLengthShape(HandleMessage(u, input.value));
      }
    }
    hide ConnectionFailed, HandleMessage, BeginReadLength, Shape;
  }

  lemma ResolvedShape(s: State, g: nat, ok: bool)
    requires Pending(s) && Shape(s) && Resolve(g) in s.ops
    ensures Shape(Resolved(s, g, ok))
  {
    hide ConnectionFailed;
    if g != s.link.generation {
      StaleTakeShape(s, Resolve(g));
    } else {
      LossShape(Take(s, Resolve(g)));
    }
  }

  lemma TcpConnectedShape(s: State, g: nat, ok: bool)
    requires Pending(s) && Shape(s) && Connect(g) in s.ops
    ensures Shape(TcpConnected(s, g, ok))
  {
    hide ConnectionFailed;
    if g != s.link.generation {
      StaleTakeShape(s, Connect(g));
    } else {
      LossShape(Take(s, Connect(g)));
    }
  }

  lemma HandshakenShape(s: State, g: nat, ok: bool)
    requires Pending(s) && Shape(s) && Handshake(g) in s.ops
    ensures Shape(Handshaken(s, g, ok))
  {
    var t := Take(s, Handshake(g));
    if g != s.link.generation {
      StaleTakeShape(s, Handshake(g));
    } else {
      LossShape(t);
    }
    hide AuthenticationFailed;
  }

  lemma WrittenShape(s: State, g: nat, ok: bool)
    requires Pending(s) && Shape(s) && Write(g) in s.ops
    ensures Shape(Written(s, g, ok))
  {
    if g != s.link.generation {
      StaleTakeShape(s, Write(g));
    } else {
      LossShape(Take(s, Write(g)).(outbox := s.outbox.(busy := false)));
    }
    hide ConnectionFailed;
  }

  lemma StartVoiceShape(s: State)
    requires Shape(s)
    ensures Shape(StartVoice(s))
  {
    hide QueueMessage;
    if MayStartVoice(s) {
      StartVoiceFrame(s);
    }
    hide StartVoice;
  }

  lemma StartVoiceFrame(s: State)
    requires MayStartVoice(s)
    ensures var t := StartVoice(s);
      && t.link == s.link && t.session == s.session.(voiceStarting := true) && t.timers.voiceArmed
      && t.timers.reconnectArmed == s.timers.reconnectArmed && t.timers.reconnectFired == s.timers.reconnectFired
      && Reading(t) == Reading(s) && (IdlePending(s) ==> IdlePending(t))
  {
    hide QueueMessage;
  }

  lemma StopVoiceShape(s: State)
    requires Shape(s)
    ensures Shape(StopVoice(s))
  {
    hide QueueMessage;
  }

  lemma SendVoiceDataShape(s: State, pcm: seq<Byte>)
    requires Shape(s)
    ensures Shape(SendVoiceData(s, pcm))
  {
    hide QueuePayloads, Chunks, Shape;
    if s.session.voiceSession.Some? {
      ChunkSizes(pcm);
      QueuePayloadsShape(s, s.session.voiceSession.value, Chunks(pcm));
    }
  }

  lemma UserConnectShape(s: State, loads: bool)
    requires Pending(s)
    ensures Shape(UserConnect(s, loads))
  {
    hide BeginConnect, Shape;
    BeginConnectShape(ResetDelay(s.(link := s.link.(userDisconnect := false),
                                    timers := s.timers.(reconnectArmed := false))), false, loads);
  }

  lemma ReconnectShape(s: State, loads: bool)
    requires Pending(s) && Shape(s) && s.timers.reconnectFired > 0
    ensures Shape(ReconnectRuns(s, loads))
  {
    hide BeginConnect;
    if !s.link.userDisconnect {
      BeginConnectShape(s.(timers := s.timers.(reconnectFired := s.timers.reconnectFired - 1)), true, loads);
      hide Shape;
    } else {
      hide Pending;
    }
  }

  lemma IdleShape(s: State, g: nat)
    requires Pending(s) && Shape(s)
    ensures Shape(IdleRuns(s, g))
  {
    hide HandleConnectionLoss;
    if !s.link.userDisconnect && g == s.link.generation {
      LossShape(s.(timers := s.timers.(idleFired := s.timers.idleFired - multiset{g})));
      hide Shape;
    }
  }

  lemma UserDisconnectShape(s: State)
    requires Pending(s)
    ensures Shape(UserDisconnect(s))
  {
    hide CloseStream, Shape;
    ClosedShape(s.(link := s.link.(userDisconnect := true),
                   timers := s.timers.(reconnectArmed := false, voiceArmed := false, idleArmed := None)));
  }

  lemma CommandShape(s: State, o: Message)
    requires Shape(s)
    ensures Shape(QueueMessage(s, o))
  {
    hide QueueMessage, ShapeIf;
    QueueMessageShape(s, o, Reading(s));
  }

  lemma TimersShape(s: State, e: Event)
    requires Shape(s) && Enabled(s, e)
    requires e.ReconnectExpires? || e.IdleExpires? || e.VoiceExpires? || e.OnVoiceTimer?
    ensures Shape(Step(s, e))
  {
  }

  lemma StepKeepsShape(s: State, e: Event)
    requires Pending(s) && Shape(s) && Enabled(s, e)
    ensures Shape(Step(s, e))
  {
    hide Shape, Pending, Resolved, TcpConnected, Handshaken, LengthByteRead, BodyRead, Written, UserConnect,
      UserDisconnect, ReconnectRuns, IdleRuns, QueueMessage, StartVoice, StopVoice, SendVoiceData;
    match e
    case CallConnect(loads) => UserConnectShape(s, loads);
    case CallDisconnect => UserDisconnectShape(s);
    case CallSendKey(code, direction) => CommandShape(s, Key(code, direction));
    case CallSendText(text) => CommandShape(s, Text(text, s.session.imeCounter, s.session.imeFieldCounter));
    case CallLaunchApp(link) => CommandShape(s, AppLink(link));
    case CallStartVoice => StartVoiceShape(s);
    case CallStopVoice => StopVoiceShape(s);
    case CallSendVoiceData(pcm) => SendVoiceDataShape(s, pcm);
    case OnResolved(g, ok) => ResolvedShape(s, g, ok);
    case OnConnected(g, ok) => TcpConnectedShape(s, g, ok);
    case OnHandshake(g, ok) => HandshakenShape(s, g, ok);
    case OnLengthByte(g, input) => LengthByteReadShape(s, g, input);
    case OnBody(g, body) => BodyReadShape(s, g, body);
    case OnWritten(g, ok) => WrittenShape(s, g, ok);
    case OnReconnect(loads) => ReconnectShape(s, loads);
    case OnIdle(g) => IdleShape(s, g);
    case _ => TimersShape(s, e); hide Step;
  }
}
