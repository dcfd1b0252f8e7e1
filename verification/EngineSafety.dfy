/**
 What every step of the connection engine keeps of the handlers that are
 pending: how many there are for the current stream, and for which generations.
 */
module EngineSafety {
  import opened Wrappers
  import opened Ints
  import opened Varint
  import opened Framing
  import opened Messages
  import opened Voice
  import opened Engine

  /** The pending handlers of the chain resolve, connect, handshake, read of one generation. */
  function Chain(ops: multiset<Op>, gen: nat): nat {
    ops[Resolve(gen)] + ops[Connect(gen)] + ops[Handshake(gen)] + ops[ReadLength(gen)] + ops[ReadBody(gen)]
  }

  /** The handshake of the current stream is over. */
  predicate Reading(s: State) {
    ReadLength(s.link.generation) in s.ops || ReadBody(s.link.generation) in s.ops
  }

  predicate Bounded(s: State) {
    && |s.past| == s.link.generation
    && (forall op | op in s.ops :: op.gen <= s.link.generation)
  }

  /** `n` handlers of the chain are pending for the current stream. */
  predicate Linked(s: State, n: nat) {
    && Bounded(s)
    && Chain(s.ops, s.link.generation) == n
    && s.ops[Write(s.link.generation)] == (if s.outbox.busy then 1 else 0)
    && (s.outbox.busy <==> s.outbox.queue != [])
    && (!s.link.stream ==> n == 0 && s.outbox.queue == [])
    && (s.link.stream ==> !s.link.userDisconnect)
  }

  predicate Pending(s: State) {
    Linked(s, if s.link.stream then 1 else 0)
  }

  // ------------------------------------------------------ the pending handlers

  lemma CloseStreamLinks(s: State)
    requires Bounded(s)
    ensures Linked(CloseStream(s), 0)
  {
  }

  lemma BeginConnectLinks(s: State, reconnecting: bool, loads: bool)
    requires Bounded(s) && !s.link.userDisconnect
    ensures Pending(BeginConnect(s, reconnecting, loads))
  {
    CloseStreamLinks(s);
    hide CloseStream;
  }

  lemma LossLinks(s: State)
    requires Bounded(s)
    ensures Pending(HandleConnectionLoss(s, s.link.generation))
    ensures !s.link.userDisconnect ==> Pending(ConnectionFailed(s, s.link.generation))
    ensures !s.link.userDisconnect ==> Pending(AuthenticationFailed(s, s.link.generation))
  {
    CloseStreamLinks(s);
  }

  lemma QueueMessageLinks(s: State, o: Message, n: nat)
    requires Linked(s, n)
    ensures Linked(QueueMessage(s, o), n)
  {
    hide QueueMessage, Encode, Frame;
  }

  lemma HandleMessageLinks(s: State, message: seq<Byte>, n: nat)
    requires Linked(s, n)
    ensures Linked(HandleMessage(s, message), n)
  {
    hide QueueMessage, Parsed, Linked, Digest, Noted, Answer;
    var m := Parsed(message);
    NotedLinks(s, message, n);
    DigestLinks(Noted(s, message), m, n);
    if Answer(s.session, m).Some? {
      QueueMessageLinks(Digest(Noted(s, message), m), Answer(s.session, m).value, n);
    }
  }

  lemma NotedLinks(s: State, message: seq<Byte>, n: nat)
    requires Linked(s, n)
    ensures Linked(Noted(s, message), n)
  {
  }

  lemma DigestLinks(s: State, m: Incoming, n: nat)
    requires Linked(s, n)
    ensures Linked(Digest(s, m), n)
  {
  }

  lemma {:induction false} QueuePayloadsLinks(s: State, session: I32, chunks: seq<seq<Byte>>, n: nat)
    requires (forall c | c in chunks :: |c| <= CHUNK_SIZE) && Linked(s, n)
    ensures Linked(QueuePayloads(s, session, chunks), n)
    decreases |chunks|
  {
    hide QueueMessage, Linked;
    if chunks != [] {
      QueueMessageLinks(s, VoicePayload(session, chunks[0]), n);
      QueuePayloadsLinks(QueueMessage(s, VoicePayload(session, chunks[0])), session, chunks[1..], n);
    }
  }

  lemma StartVoiceLinks(s: State)
    requires Pending(s)
    ensures Pending(StartVoice(s))
  {
    if MayStartVoice(s) {
      var t := s.(session := s.session.(voiceStarting := true));
      var n := if s.link.stream then 1 else 0;
      QueueMessageLinks(t, Key(KEYCODE_SEARCH, SHORT), n);
    }
    hide QueueMessage;
  }

  lemma StopVoiceLinks(s: State)
    requires Pending(s)
    ensures Pending(StopVoice(s))
  {
    var t := s.(timers := s.timers.(voiceArmed := false), session := s.session.(voiceStarting := false));
    if t.session.voiceSession.Some? {
      QueueMessageLinks(t, VoiceEnd(t.session.voiceSession.value), if s.link.stream then 1 else 0);
    }
    hide QueueMessage;
  }

  lemma SendVoiceDataLinks(s: State, pcm: seq<Byte>)
    requires Pending(s)
    ensures Pending(SendVoiceData(s, pcm))
  {
    hide QueuePayloads, Chunks, Linked;
    if s.session.voiceSession.Some? {
      ChunkSizes(pcm);
      QueuePayloadsLinks(s, s.session.voiceSession.value, Chunks(pcm), if s.link.stream then 1 else 0);
    }
  }

  lemma CommandLinks(s: State, o: Message)
    requires Pending(s)
    ensures Pending(QueueMessage(s, o))
  {
    hide Linked;
    QueueMessageLinks(s, o, if s.link.stream then 1 else 0);
  }

  lemma LengthByteLinks(s: State, b: Byte)
    requires Linked(s, 0) && s.link.stream
    ensures Pending(LengthByte(s, s.link.generation, b))
  {
    hide Accumulate, HandleConnectionLoss, LengthGoesOn, LengthEnds;
    var t := s.(inbox := s.inbox.(length := Accumulate(s.inbox.length, b, s.inbox.shift)));
    assert Linked(t, 0);
    LengthGoesOnLinks(t);
    LengthEndsLinks(t);
  }

  lemma LengthGoesOnLinks(s: State)
    requires Linked(s, 0) && s.link.stream
    ensures Pending(LengthGoesOn(s, s.link.generation))
  {
    LossLinks(s.(inbox := s.inbox.(shift := s.inbox.shift + 7)));
    hide HandleConnectionLoss;
  }

  lemma LengthEndsLinks(s: State)
    requires Linked(s, 0) && s.link.stream
    ensures Pending(LengthEnds(s, s.link.generation))
  {
    LossLinks(s);
    var t := s.(inbox := s.inbox.(bodySize := s.inbox.length));
    assert Linked(t, 0);
    HandleMessageLinks(t, [], 0);
    HandleMessageFrame(t, []);
    BeginReadLengthLinks(HandleMessage(t, []));
    hide HandleMessage, HandleConnectionLoss, BeginReadLength;
  }

  lemma BeginReadLengthLinks(s: State)
    requires Linked(s, 0)
    ensures Pending(BeginReadLength(s, s.link.generation))
  {
  }

  /** Handling a message leaves the connection's identity and the inbox alone. */
  lemma HandleMessageFrame(s: State, message: seq<Byte>)
    ensures var r := HandleMessage(s, message);
      && r.link == s.link.(connection := r.link.connection) && r.inbox == s.inbox
      && r.past == s.past && r.options == s.options && r.delays == s.delays
      && r.log == s.log.(queued := r.log.queued, handled := s.log.handled + [message])
      && r.timers == s.timers.(idleArmed := r.timers.idleArmed, voiceArmed := r.timers.voiceArmed)
  {
    hide QueueMessage, Parsed, And32, HasVoice;
  }

  /** A handler of an older generation runs. */
  lemma StaleTakeLinks(s: State, op: Op, n: nat)
    requires Linked(s, n) && op.gen != s.link.generation
    ensures Linked(Take(s, op), n)
  {
  }

  /** The one pending handler of the current chain runs; the next one may then become pending. */
  lemma ChainTakeLinks(s: State, op: Op, next: Op)
    requires Pending(s) && op in s.ops && !op.Write? && op.gen == s.link.generation
    requires !next.Write? && next.gen == s.link.generation
    ensures s.link.stream && Linked(Take(s, op), 0) && Pending(Post(Take(s, op), next))
  {
    ChainCounts(s.ops, op, next);
    hide Chain;
  }

  lemma ChainCounts(ops: multiset<Op>, op: Op, next: Op)
    requires op in ops && !op.Write? && !next.Write? && op.gen == next.gen
    ensures Chain(ops, op.gen) > 0
    ensures Chain(ops - multiset{op}, op.gen) == Chain(ops, op.gen) - 1
    ensures Chain(ops - multiset{op} + multiset{next}, op.gen) == Chain(ops, op.gen)
  {
  }

  lemma LengthByteReadLinks(s: State, g: nat, input: Option<Byte>)
    requires Pending(s) && ReadLength(g) in s.ops
    ensures Pending(LengthByteRead(s, g, input))
  {
    hide ConnectionFailed, LengthByte;
    var t := Take(s, ReadLength(g));
    if g != s.link.generation {
      StaleTakeLinks(s, ReadLength(g), if s.link.stream then 1 else 0);
    } else {
      ChainTakeLinks(s, ReadLength(g), ReadLength(g));
      if input.Some? {
        assert Linked(Received(t, [input.value]), 0);
        LengthByteLinks(Received(t, [input.value]), input.value);
      } else {
        LossLinks(t);
      }
      hide Pending, Linked;
    }
  }

  lemma BodyReadLinks(s: State, g: nat, input: Option<seq<Byte>>)
    requires Pending(s) && ReadBody(g) in s.ops
    ensures Pending(BodyRead(s, g, input))
  {
    hide ConnectionFailed, HandleMessage, BeginReadLength;
    var t := Take(s, ReadBody(g));
    if g != s.link.generation {
      StaleTakeLinks(s, ReadBody(g), if s.link.stream then 1 else 0);
    } else {
      ChainTakeLinks(s, ReadBody(g), ReadLength(g));
      if input.Some? {
        var u := ResetIdleTimer(Received(t, input.value));
        assert Linked(u, 0);
        HandleMessageLinks(u, input.value, 0);
        HandleMessageFrame(u, input.value);
        BeginReadLengthLinks(HandleMessage(u, input.value));
      } else {
        LossLinks(t);
      }
      hide Pending, Linked;
    }
  }

  lemma ResolvedLinks(s: State, g: nat, ok: bool)
    requires Pending(s) && Resolve(g) in s.ops
    ensures Pending(Resolved(s, g, ok))
  {
    hide ConnectionFailed;
    if g != s.link.generation {
      StaleTakeLinks(s, Resolve(g), if s.link.stream then 1 else 0);
    } else {
      ChainTakeLinks(s, Resolve(g), Connect(g));
      LossLinks(Take(s, Resolve(g)));
      hide Pending;
    }
  }

  lemma TcpConnectedLinks(s: State, g: nat, ok: bool)
    requires Pending(s) && Connect(g) in s.ops
    ensures Pending(TcpConnected(s, g, ok))
  {
    hide ConnectionFailed;
    if g != s.link.generation {
      StaleTakeLinks(s, Connect(g), if s.link.stream then 1 else 0);
    } else {
      ChainTakeLinks(s, Connect(g), Handshake(g));
      LossLinks(Take(s, Connect(g)));
      hide Pending;
    }
  }

  lemma DelayResetLinks(s: State)
    requires Linked(s, 0)
    ensures Linked(ResetDelay(s), 0)
  {
  }

  lemma IdleResetLinks(s: State)
    requires Pending(s)
    ensures Pending(ResetIdleTimer(s))
  {
  }

  lemma HandshakenLinks(s: State, g: nat, ok: bool)
    requires Pending(s) && Handshake(g) in s.ops
    ensures Pending(Handshaken(s, g, ok))
  {
    hide AuthenticationFailed;
    var t := Take(s, Handshake(g));
    if g != s.link.generation {
      StaleTakeLinks(s, Handshake(g), if s.link.stream then 1 else 0);
    } else {
      ChainTakeLinks(s, Handshake(g), ReadLength(g));
      LossLinks(t);
      DelayResetLinks(t);
      BeginReadLengthLinks(ResetDelay(t));
      hide BeginReadLength, Linked;
      IdleResetLinks(BeginReadLength(ResetDelay(t), g));
    }
  }

  lemma WrittenLinks(s: State, g: nat, ok: bool)
    requires Pending(s) && Write(g) in s.ops
    ensures Pending(Written(s, g, ok))
  {
    hide ConnectionFailed, BeginWrite;
    var t := Take(s, Write(g));
    if g != s.link.generation {
      assert Written(s, g, ok) == t;
    } else if !ok {
      LossLinks(t.(outbox := s.outbox.(busy := false)));
      hide Pending;
    } else {
      NextWriteLinks(t);
      assert t.ops + multiset{Write(g)} == s.ops;
      assert Post(t, Write(g)) == s;
      hide Written, Pending;
    }
  }

  /** The write of the first frame has been taken: the next one starts, if there is one. */
  lemma NextWriteLinks(s: State)
    requires Bounded(s) && Chain(s.ops, s.link.generation) == 1 && s.link.stream && !s.link.userDisconnect
    requires Write(s.link.generation) !in s.ops && s.outbox.queue != []
    ensures Pending(Written(Post(s, Write(s.link.generation)), s.link.generation, true))
  {
    var g := s.link.generation;
    assert s.ops + multiset{Write(g)} - multiset{Write(g)} == s.ops;
  }

  lemma UserConnectLinks(s: State, loads: bool)
    requires Pending(s)
    ensures Pending(UserConnect(s, loads))
  {
    hide BeginConnect;
    BeginConnectLinks(ResetDelay(s.(link := s.link.(userDisconnect := false),
                                    timers := s.timers.(reconnectArmed := false))), false, loads);
  }

  lemma UserDisconnectLinks(s: State)
    requires Pending(s)
    ensures Pending(UserDisconnect(s))
  {
    hide CloseStream;
    CloseStreamLinks(s.(link := s.link.(userDisconnect := true),
                        timers := s.timers.(reconnectArmed := false, voiceArmed := false, idleArmed := None)));
    ClosedFrame(s.(link := s.link.(userDisconnect := true),
                   timers := s.timers.(reconnectArmed := false, voiceArmed := false, idleArmed := None)));
  }

  lemma ClosedFrame(s: State)
    ensures !CloseStream(s).link.stream && CloseStream(s).link.userDisconnect == s.link.userDisconnect
  {
  }

  lemma ReconnectLinks(s: State, loads: bool)
    requires Pending(s) && s.timers.reconnectFired > 0
    ensures Pending(ReconnectRuns(s, loads))
  {
    hide BeginConnect;
    if !s.link.userDisconnect {
      BeginConnectLinks(s.(timers := s.timers.(reconnectFired := s.timers.reconnectFired - 1)), true, loads);
    }
  }

  lemma IdleLinks(s: State, g: nat)
    requires Pending(s)
    ensures Pending(IdleRuns(s, g))
  {
    hide HandleConnectionLoss;
    LossLinks(s.(timers := s.timers.(idleFired := s.timers.idleFired - multiset{g})));
  }

  lemma TimersLink(s: State, e: Event)
    requires Pending(s) && Enabled(s, e)
    requires e.ReconnectExpires? || e.IdleExpires? || e.VoiceExpires? || e.OnVoiceTimer?
    ensures Pending(Step(s, e))
  {
  }

  lemma StepKeepsPending(s: State, e: Event)
    requires Pending(s) && Enabled(s, e)
    ensures Pending(Step(s, e))
  {
    hide Pending, Resolved, TcpConnected, Handshaken, LengthByteRead, BodyRead, Written, UserConnect, UserDisconnect,
      ReconnectRuns, IdleRuns, QueueMessage, StartVoice, StopVoice, SendVoiceData;
    match e
    case OnResolved(g, ok) => ResolvedLinks(s, g, ok);
    case OnConnected(g, ok) => TcpConnectedLinks(s, g, ok);
    case OnHandshake(g, ok) => HandshakenLinks(s, g, ok);
    case OnLengthByte(g, input) => LengthByteReadLinks(s, g, input);
    case OnBody(g, body) => BodyReadLinks(s, g, body);
    case OnWritten(g, ok) => WrittenLinks(s, g, ok);
    case CallConnect(loads) => UserConnectLinks(s, loads);
    case CallDisconnect => UserDisconnectLinks(s);
    case OnReconnect(loads) => ReconnectLinks(s, loads);
    case OnIdle(g) => IdleLinks(s, g);
    case ReconnectExpires => TimersLink(s, e); hide Step;
    case IdleExpires => TimersLink(s, e); hide Step;
    case VoiceExpires => TimersLink(s, e); hide Step;
    case OnVoiceTimer => TimersLink(s, e); hide Step;
    case CallStartVoice => StartVoiceLinks(s);
    case CallStopVoice => StopVoiceLinks(s);
    case CallSendVoiceData(pcm) => SendVoiceDataLinks(s, pcm);
    case CallSendKey(code, direction) => CommandLinks(s, Key(code, direction));
    case CallSendText(text) => CommandLinks(s, Text(text, s.session.imeCounter, s.session.imeFieldCounter));
    case CallLaunchApp(link) => CommandLinks(s, AppLink(link));
  }
}
