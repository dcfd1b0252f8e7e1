/**
 The timers of the connection engine: the growth of the reconnect delay, the
 generations idle waits belong to, and when a reconnect wait is pending.
 */
module EngineTimers {
  import opened Wrappers
  import opened Ints
  import opened Varint
  import opened Framing
  import opened Messages
  import opened Voice
  import opened Engine
  import opened EngineSafety
  import opened EngineShape

  // ------------------------------------------------------------ the delay

  /** The delay after k losses in a row. */
  function Backoff(k: nat): nat {
    Min(FIRST_DELAY * Pow2(k), LONGEST_DELAY)
  }

  /** The delays scheduled since the delay was last reset, and the one to come. */
  predicate Delays(s: State) {
    && s.link.reconnectDelay == Backoff(|s.delays|)
    && forall i | 0 <= i < |s.delays| :: s.delays[i] == Backoff(i)
  }

  function Total(delays: seq<nat>): nat {
    if delays == [] then 0 else Total(delays[..|delays| - 1]) + delays[|delays| - 1]
  }

  /** All the waiting of n losses in a row: 100 (2^n - 1) ms for up to nine, then 30 s each. */
  lemma {:induction false} TotalWait(delays: seq<nat>)
    requires forall i | 0 <= i < |delays| :: delays[i] == Backoff(i)
    ensures Total(delays) ==
      if |delays| <= 9 then FIRST_DELAY * (Pow2(|delays|) - 1)
      else 51100 + LONGEST_DELAY * (|delays| - 9)
  {
    if delays != [] {
      var n := |delays|;
      TotalWait(delays[..n - 1]);
      assert Pow2(9) == 512 && Pow2(8) == 256;
      if n <= 9 {
        Pow2Monotone(n, 9);
      } else {
        Pow2Monotone(9, n - 1);
      }
    }
  }

  /** How one step moves the delay: not at all, back to the start, or one loss further. */
  predicate DelayMoves(s: State, t: State) {
    || (t.delays == s.delays && t.link.reconnectDelay == s.link.reconnectDelay)
    || (t.delays == [] && t.link.reconnectDelay == FIRST_DELAY)
    || (t.delays == s.delays + [s.link.reconnectDelay] && t.link.reconnectDelay == NextDelay(s.link.reconnectDelay))
  }

  lemma LossMovesDelay(s: State, g: nat)
    ensures DelayMoves(s, HandleConnectionLoss(s, g)) && HandleConnectionLoss(s, g).options == s.options
    ensures DelayMoves(s, ConnectionFailed(s, g)) && ConnectionFailed(s, g).options == s.options
    ensures DelayMoves(s, AuthenticationFailed(s, g)) && AuthenticationFailed(s, g).options == s.options
  {
  }

  lemma LengthByteDelay(s: State, g: nat, b: Byte)
    ensures DelayMoves(s, LengthByte(s, g, b)) && LengthByte(s, g, b).options == s.options
  {
    hide Accumulate, HandleMessage, HandleConnectionLoss;
    var t := s.(inbox := s.inbox.(length := Accumulate(s.inbox.length, b, s.inbox.shift)));
    LossMovesDelay(t.(inbox := t.inbox.(shift := t.inbox.shift + 7)), g);
    LossMovesDelay(t, g);
    HandleMessageFrame(t.(inbox := t.inbox.(bodySize := t.inbox.length)), []);
  }

  lemma LengthByteReadMovesDelay(s: State, g: nat, input: Option<Byte>)
    ensures DelayMoves(s, LengthByteRead(s, g, input)) && LengthByteRead(s, g, input).options == s.options
  {
    hide LengthByte, ConnectionFailed;
    LossMovesDelay(Take(s, ReadLength(g)), g);
    if input.Some? {
      LengthByteDelay(Received(Take(s, ReadLength(g)), [input.value]), g, input.value);
    }
  }

  lemma BodyReadMovesDelay(s: State, g: nat, input: Option<seq<Byte>>)
    ensures DelayMoves(s, BodyRead(s, g, input)) && BodyRead(s, g, input).options == s.options
  {
    hide HandleMessage, ConnectionFailed;
    LossMovesDelay(Take(s, ReadBody(g)), g);
    if input.Some? {
      HandleMessageFrame(ResetIdleTimer(Received(Take(s, ReadBody(g)), input.value)), input.value);
    }
  }

  lemma WrittenMovesDelay(s: State, g: nat, ok: bool)
    ensures DelayMoves(s, Written(s, g, ok)) && Written(s, g, ok).options == s.options
  {
    hide ConnectionFailed;
    LossMovesDelay(Take(s, Write(g)).(outbox := s.outbox.(busy := false)), g);
  }

  lemma ResolvedMovesDelay(s: State, g: nat, ok: bool)
    ensures DelayMoves(s, Resolved(s, g, ok)) && Resolved(s, g, ok).options == s.options
  {
    hide ConnectionFailed;
    LossMovesDelay(Take(s, Resolve(g)), g);
  }

  lemma TcpConnectedMovesDelay(s: State, g: nat, ok: bool)
    ensures DelayMoves(s, TcpConnected(s, g, ok)) && TcpConnected(s, g, ok).options == s.options
  {
    hide ConnectionFailed;
    LossMovesDelay(Take(s, Connect(g)), g);
  }

  lemma HandshakenMovesDelay(s: State, g: nat, ok: bool)
    ensures DelayMoves(s, Handshaken(s, g, ok)) && Handshaken(s, g, ok).options == s.options
  {
    hide AuthenticationFailed;
    LossMovesDelay(Take(s, Handshake(g)), g);
  }

  lemma StepMovesDelay(s: State, e: Event)
    requires Enabled(s, e)
    ensures DelayMoves(s, Step(s, e)) && Step(s, e).options == s.options
  {
    hide DelayMoves, Resolved, TcpConnected, Handshaken, LengthByteRead, BodyRead, Written;
    match e
    case OnResolved(g, ok) => ResolvedMovesDelay(s, g, ok);
    case OnConnected(g, ok) => TcpConnectedMovesDelay(s, g, ok);
    case OnHandshake(g, ok) => HandshakenMovesDelay(s, g, ok);
    case OnLengthByte(g, input) => LengthByteReadMovesDelay(s, g, input);
    case OnBody(g, input) => BodyReadMovesDelay(s, g, input);
    case OnWritten(g, ok) => WrittenMovesDelay(s, g, ok);
    case _ => CallMovesDelay(s, e); hide Step;
  }

  lemma CallMovesDelay(s: State, e: Event)
    requires Enabled(s, e) && !IsCompletion(e)
    ensures DelayMoves(s, Step(s, e)) && Step(s, e).options == s.options
  {
    if e.CallConnect? || e.CallDisconnect? || IsTimer(e) {
      TimerMovesDelay(s, e);
      hide Step;
    } else {
      hide QueueMessage, QueuePayloads, Chunks;
    }
  }

  lemma TimerMovesDelay(s: State, e: Event)
    requires Enabled(s, e) && (e.CallConnect? || e.CallDisconnect? || IsTimer(e))
    ensures DelayMoves(s, Step(s, e)) && Step(s, e).options == s.options
  {
  }

  lemma BackoffDoubles(k: nat)
    ensures Backoff(0) == FIRST_DELAY && Backoff(k + 1) == NextDelay(Backoff(k))
  {
    assert Pow2(0) == 1;
    assert FIRST_DELAY * Pow2(k + 1) == 2 * (FIRST_DELAY * Pow2(k));
  }

  lemma StepKeepsDelays(s: State, e: Event)
    requires Delays(s) && Enabled(s, e)
    ensures Delays(Step(s, e))
  {
    hide Step, Enabled, Backoff, NextDelay;
    StepMovesDelay(s, e);
    BackoffDoubles(|s.delays|);
  }

  // ------------------------------------------------------------ the idle timer

  /** An idle wait of the current generation means a live stream. */
  predicate IdleBound(s: State) {
    && (s.timers.idleArmed.Some? ==> OfStream(s.timers.idleArmed.value, s))
    && (forall g | g in s.timers.idleFired :: OfStream(g, s))
  }

  predicate OfStream(gen: nat, s: State) {
    gen < s.link.generation || (gen == s.link.generation && s.link.stream)
  }

  lemma BeginConnectIdle(s: State, reconnecting: bool, loads: bool)
    requires IdleBound(s)
    ensures IdleBound(BeginConnect(s, reconnecting, loads))
  {
  }

  lemma LossIdle(s: State, g: nat)
    requires IdleBound(s)
    ensures IdleBound(HandleConnectionLoss(s, g))
    ensures IdleBound(ConnectionFailed(s, g)) && IdleBound(AuthenticationFailed(s, g))
  {
  }

  lemma ReadIdle(s: State, g: nat)
    requires IdleBound(s)
    ensures IdleBound(ReadOneLengthByte(s, g)) && IdleBound(BeginReadLength(s, g))
  {
  }

  lemma LengthByteIdle(s: State, b: Byte)
    requires IdleBound(s) && s.link.stream
    ensures IdleBound(LengthByte(s, s.link.generation, b))
  {
    hide Accumulate, HandleConnectionLoss, HandleMessage, BeginReadLength, ReadOneLengthByte;
    var t := s.(inbox := s.inbox.(length := Accumulate(s.inbox.length, b, s.inbox.shift)));
    var longer := t.(inbox := t.inbox.(shift := t.inbox.shift + 7));
    var ended := t.(inbox := t.inbox.(bodySize := t.inbox.length));
    LossIdle(longer, s.link.generation);
    LossIdle(t, s.link.generation);
    ReadIdle(longer, s.link.generation);
    HandleMessageIdle(ended, []);
    ReadIdle(HandleMessage(ended, []), s.link.generation);
  }

  lemma HandleMessageIdle(s: State, message: seq<Byte>)
    requires IdleBound(s) && s.link.stream
    ensures IdleBound(HandleMessage(s, message)) && HandleMessage(s, message).link.stream
  {
    hide QueueMessage, Parsed, And32, HasVoice;
  }

  lemma {:induction false} QueuePayloadsIdle(s: State, session: I32, chunks: seq<seq<Byte>>)
    requires (forall c | c in chunks :: |c| <= CHUNK_SIZE) && IdleBound(s)
    ensures IdleBound(QueuePayloads(s, session, chunks))
    decreases |chunks|
  {
    if chunks != [] {
      QueuePayloadsIdle(QueueMessage(s, VoicePayload(session, chunks[0])), session, chunks[1..]);
    }
    hide QueueMessage;
  }

  lemma LengthByteReadIdle(s: State, g: nat, input: Option<Byte>)
    requires Pending(s) && IdleBound(s) && ReadLength(g) in s.ops
    ensures IdleBound(LengthByteRead(s, g, input))
  {
    hide LengthByte, ConnectionFailed;
    var t := Take(s, ReadLength(g));
    LossIdle(t, g);
    if g == s.link.generation && input.Some? {
      CurrentMeansLive(s, ReadLength(g));
      LengthByteIdle(Received(t, [input.value]), input.value);
    }
  }

  lemma BodyReadIdle(s: State, g: nat, input: Option<seq<Byte>>)
    requires Pending(s) && IdleBound(s) && ReadBody(g) in s.ops
    ensures IdleBound(BodyRead(s, g, input))
  {
    hide HandleMessage, BeginReadLength, ConnectionFailed;
    var t := Take(s, ReadBody(g));
    LossIdle(t, g);
    if g == s.link.generation && input.Some? {
      CurrentMeansLive(s, ReadBody(g));
      var u := ResetIdleTimer(Received(t, input.value));
      HandleMessageIdle(u, input.value);
      ReadIdle(HandleMessage(u, input.value), g);
    }
  }

  lemma CommandIdle(s: State, o: Message)
    requires IdleBound(s)
    ensures IdleBound(QueueMessage(s, o))
  {
    hide QueueMessage;
  }

  lemma StartVoiceIdle(s: State)
    requires IdleBound(s)
    ensures IdleBound(StartVoice(s))
  {
    hide QueueMessage;
  }

  lemma StopVoiceIdle(s: State)
    requires IdleBound(s)
    ensures IdleBound(StopVoice(s))
  {
    hide QueueMessage;
  }

  lemma SendVoiceDataIdle(s: State, pcm: seq<Byte>)
    requires IdleBound(s)
    ensures IdleBound(SendVoiceData(s, pcm))
  {
    hide QueuePayloads, Chunks, IdleBound;
    if s.session.voiceSession.Some? {
      ChunkSizes(pcm);
      QueuePayloadsIdle(s, s.session.voiceSession.value, Chunks(pcm));
    }
  }

  lemma ResolvedIdle(s: State, g: nat, ok: bool)
    requires IdleBound(s)
    ensures IdleBound(Resolved(s, g, ok))
  {
    hide ConnectionFailed;
    LossIdle(Take(s, Resolve(g)), g);
  }

  lemma TcpConnectedIdle(s: State, g: nat, ok: bool)
    requires IdleBound(s)
    ensures IdleBound(TcpConnected(s, g, ok))
  {
    hide ConnectionFailed;
    LossIdle(Take(s, Connect(g)), g);
  }

  lemma HandshakenIdle(s: State, g: nat, ok: bool)
    requires Pending(s) && IdleBound(s) && Handshake(g) in s.ops
    ensures IdleBound(Handshaken(s, g, ok))
  {
    hide AuthenticationFailed, Pending;
    LossIdle(Take(s, Handshake(g)), g);
    if g == s.link.generation {
      CurrentMeansLive(s, Handshake(g));
    }
  }

  lemma UserConnectIdle(s: State, loads: bool)
    requires IdleBound(s)
    ensures IdleBound(UserConnect(s, loads))
  {
    hide BeginConnect;
    BeginConnectIdle(ResetDelay(s.(link := s.link.(userDisconnect := false),
                                   timers := s.timers.(reconnectArmed := false))), false, loads);
  }

  lemma ReconnectIdle(s: State, loads: bool)
    requires IdleBound(s) && s.timers.reconnectFired > 0
    ensures IdleBound(ReconnectRuns(s, loads))
  {
    hide BeginConnect;
    BeginConnectIdle(s.(timers := s.timers.(reconnectFired := s.timers.reconnectFired - 1)), true, loads);
  }

  lemma IdleRunsIdle(s: State, g: nat)
    requires IdleBound(s)
    ensures IdleBound(IdleRuns(s, g))
  {
    hide HandleConnectionLoss;
    LossIdle(s.(timers := s.timers.(idleFired := s.timers.idleFired - multiset{g})), g);
  }

  lemma OtherTimersIdle(s: State, e: Event)
    requires IdleBound(s) && Enabled(s, e)
    requires e.CallDisconnect? || e.ReconnectExpires? || e.IdleExpires? || e.VoiceExpires? || e.OnVoiceTimer?
    ensures IdleBound(Step(s, e))
  {
  }

  lemma WriteKeepsIdle(s: State, g: nat, ok: bool)
    requires IdleBound(s)
    ensures IdleBound(Written(s, g, ok))
  {
    hide ConnectionFailed;
    if !ok {
      LossIdle(Take(s, Write(g)).(outbox := s.outbox.(busy := false)), g);
    }
  }

  lemma StepKeepsIdleBound(s: State, e: Event)
    requires Pending(s) && IdleBound(s) && Enabled(s, e)
    ensures IdleBound(Step(s, e))
  {
    hide IdleBound, Pending, Resolved, TcpConnected, Handshaken, LengthByteRead, BodyRead, Written, UserConnect,
      ReconnectRuns, IdleRuns, QueueMessage, StartVoice, StopVoice, SendVoiceData;
    match e
    case CallConnect(loads) => UserConnectIdle(s, loads);
    case CallSendKey(code, direction) => CommandIdle(s, Key(code, direction));
    case CallSendText(text) => CommandIdle(s, Text(text, s.session.imeCounter, s.session.imeFieldCounter));
    case CallLaunchApp(link) => CommandIdle(s, AppLink(link));
    case CallStartVoice => StartVoiceIdle(s);
    case CallStopVoice => StopVoiceIdle(s);
    case CallSendVoiceData(pcm) => SendVoiceDataIdle(s, pcm);
    case OnResolved(g, ok) => ResolvedIdle(s, g, ok);
    case OnConnected(g, ok) => TcpConnectedIdle(s, g, ok);
    case OnHandshake(g, ok) => HandshakenIdle(s, g, ok);
    case OnLengthByte(g, input) => LengthByteReadIdle(s, g, input);
    case OnBody(g, body) => BodyReadIdle(s, g, body);
    case OnWritten(g, ok) => WriteKeepsIdle(s, g, ok);
    case OnReconnect(loads) => ReconnectIdle(s, loads);
    case OnIdle(g) => IdleRunsIdle(s, g);
    case _ => OtherTimersIdle(s, e); hide Step;
  }

  // ------------------------------------------------------------ the reconnect timer

  /** Waits on the reconnect timer whose handler would still connect. */
  function ReconnectWaits(s: State): nat {
    s.timers.reconnectFired + if s.timers.reconnectArmed then 1 else 0
  }

  /** The three shapes with the reconnect waits counted: one while there is no stream to come back, else none. */
  predicate Exact(s: State) {
    ReconnectWaits(s) == if s.link.connection == Reconnecting && !s.link.stream then 1 else 0
  }

  /** The user connects or disconnects between the expiry of the reconnect timer and its handler. */
  predicate Overtakes(s: State, e: Event) {
    (e.CallConnect? || e.CallDisconnect?) && s.timers.reconnectFired > 0
  }

  /** What the steps other than those below do to the reconnect timer: nothing, unless a live stream is lost. */
  predicate WaitsMove(s: State, t: State) {
    || (t.timers.reconnectArmed == s.timers.reconnectArmed && t.timers.reconnectFired == s.timers.reconnectFired
        && t.link.stream == s.link.stream
        && ((t.link.connection == Reconnecting) == (s.link.connection == Reconnecting) || t.link.stream))
    || (s.link.stream && t.timers.reconnectFired == s.timers.reconnectFired && !t.link.stream
        && if t.link.connection == Reconnecting then t.timers.reconnectArmed
           else t.timers.reconnectArmed == s.timers.reconnectArmed)
  }

  lemma LengthByteWaits(s: State, g: nat, b: Byte)
    requires s.link.stream
    ensures WaitsMove(s, LengthByte(s, g, b))
  {
    var t := s.(inbox := s.inbox.(length := Accumulate(s.inbox.length, b, s.inbox.shift)));
    var tb := t.(inbox := t.inbox.(bodySize := t.inbox.length));
    HandleMessageFrame(tb, []);
    hide Accumulate, HandleMessage;
  }

  lemma LossWaits(s: State, g: nat)
    requires g == s.link.generation ==> s.link.stream
    ensures WaitsMove(s, HandleConnectionLoss(s, g))
    ensures WaitsMove(s, ConnectionFailed(s, g)) && WaitsMove(s, AuthenticationFailed(s, g))
  {
  }

  lemma ResolvedWaits(s: State, g: nat, ok: bool)
    requires g == s.link.generation ==> s.link.stream
    ensures WaitsMove(s, Resolved(s, g, ok))
  {
    hide ConnectionFailed;
    LossWaits(Take(s, Resolve(g)), g);
  }

  lemma TcpConnectedWaits(s: State, g: nat, ok: bool)
    requires g == s.link.generation ==> s.link.stream
    ensures WaitsMove(s, TcpConnected(s, g, ok))
  {
    hide ConnectionFailed;
    LossWaits(Take(s, Connect(g)), g);
  }

  lemma HandshakeWaits(s: State, g: nat, ok: bool)
    requires g == s.link.generation ==> s.link.stream
    ensures WaitsMove(s, Handshaken(s, g, ok))
  {
    hide AuthenticationFailed;
    LossWaits(Take(s, Handshake(g)), g);
  }

  lemma WriteWaits(s: State, g: nat, ok: bool)
    requires g == s.link.generation ==> s.link.stream
    ensures WaitsMove(s, Written(s, g, ok))
  {
    hide ConnectionFailed;
    LossWaits(Take(s, Write(g)).(outbox := s.outbox.(busy := false)), g);
  }

  /** Every pending completion of the current generation finds the stream it was started on. */
  lemma CurrentMeansLive(s: State, op: Op)
    requires Pending(s) && op in s.ops && op.gen == s.link.generation
    ensures s.link.stream
  {
  }

  lemma LengthByteReadWaits(s: State, g: nat, input: Option<Byte>)
    requires g == s.link.generation ==> s.link.stream
    ensures WaitsMove(s, LengthByteRead(s, g, input))
  {
    hide LengthByte, ConnectionFailed;
    LossWaits(Take(s, ReadLength(g)), g);
    if g == s.link.generation && input.Some? {
      LengthByteWaits(Received(Take(s, ReadLength(g)), [input.value]), g, input.value);
    }
  }

  lemma BodyReadWaits(s: State, g: nat, input: Option<seq<Byte>>)
    requires g == s.link.generation ==> s.link.stream
    ensures WaitsMove(s, BodyRead(s, g, input))
  {
    hide HandleMessage, ConnectionFailed;
    LossWaits(Take(s, ReadBody(g)), g);
    if input.Some? {
      HandleMessageFrame(ResetIdleTimer(Received(Take(s, ReadBody(g)), input.value)), input.value);
    }
  }

  lemma CallsWait(s: State, e: Event)
    requires IdleBound(s) && Enabled(s, e)
    requires e.CallStartVoice? || e.CallStopVoice? || e.CallSendVoiceData? || e.CallSendKey? || e.CallSendText?
      || e.CallLaunchApp? || e.IdleExpires? || e.VoiceExpires? || e.OnVoiceTimer?
    ensures WaitsMove(s, Step(s, e))
  {
    hide QueueMessage, QueuePayloads, Chunks;
  }

  lemma IdleWaits(s: State, g: nat)
    requires IdleBound(s) && g in s.timers.idleFired
    ensures WaitsMove(s, IdleRuns(s, g))
  {
    assert OfStream(g, s);
    LossWaits(s.(timers := s.timers.(idleFired := s.timers.idleFired - multiset{g})), g);
    hide HandleConnectionLoss;
  }

  lemma CompletionWaits(s: State, e: Event)
    requires Pending(s) && Enabled(s, e)
    requires IsCompletion(e)
    ensures WaitsMove(s, Step(s, e))
  {
    hide Pending, WaitsMove, Resolved, TcpConnected, Handshaken, Written, LengthByteRead, BodyRead;
    match e
    case OnResolved(g, ok) =>
      if g == s.link.generation { CurrentMeansLive(s, Resolve(g)); }
      ResolvedWaits(s, g, ok);
    case OnConnected(g, ok) =>
      if g == s.link.generation { CurrentMeansLive(s, Connect(g)); }
      TcpConnectedWaits(s, g, ok);
    case OnHandshake(g, ok) =>
      if g == s.link.generation { CurrentMeansLive(s, Handshake(g)); }
      HandshakeWaits(s, g, ok);
    case OnWritten(g, ok) =>
      if g == s.link.generation { CurrentMeansLive(s, Write(g)); }
      WriteWaits(s, g, ok);
    case OnLengthByte(g, input) =>
      if g == s.link.generation { CurrentMeansLive(s, ReadLength(g)); }
      LengthByteReadWaits(s, g, input);
    case OnBody(g, body) =>
      if g == s.link.generation { CurrentMeansLive(s, ReadBody(g)); }
      BodyReadWaits(s, g, body);
  }

  /** Steps that connect, disconnect or let the reconnect timer run. */
  lemma ExactUnlessItOvertakes(s: State, e: Event)
    requires Shape(s) && Exact(s) && Enabled(s, e)
    requires e.CallConnect? || e.CallDisconnect? || e.OnReconnect? || e.ReconnectExpires?
    ensures Exact(Step(s, e)) <==> !Overtakes(s, e)
  {
  }

  /** All other steps leave the reconnect timer alone, unless a live stream is lost. */
  lemma OthersMoveWaits(s: State, e: Event)
    requires Pending(s) && IdleBound(s) && Enabled(s, e)
    requires !e.CallConnect? && !e.CallDisconnect? && !e.OnReconnect? && !e.ReconnectExpires?
    ensures WaitsMove(s, Step(s, e))
  {
    hide Pending, WaitsMove, IdleRuns;
    if IsCompletion(e) {
      CompletionWaits(s, e);
      hide Step;
    } else if e.OnIdle? {
      IdleWaits(s, e.gen);
    } else {
      CallsWait(s, e);
      hide Step;
    }
  }

  /**
   A step leaves the exact shapes exactly when it overtakes an expired
   reconnect wait: then the wait outlives the connection it was meant for.
   */
  lemma ExactUnlessOvertaken(s: State, e: Event)
    requires Pending(s) && Shape(s) && IdleBound(s) && Exact(s) && Enabled(s, e)
    ensures Exact(Step(s, e)) <==> !Overtakes(s, e)
  {
    hide Step, Pending, IdleBound, Enabled;
    if e.CallConnect? || e.CallDisconnect? || e.OnReconnect? || e.ReconnectExpires? {
      ExactUnlessItOvertakes(s, e);
    } else {
      OthersMoveWaits(s, e);
    }
  }
}
