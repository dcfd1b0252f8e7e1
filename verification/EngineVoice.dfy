/**
 The start of a voice session and its timeout: exactly which events begin and end
 a start, and which arm and cancel the timeout.
 */
module EngineVoice {
  import opened Wrappers
  import opened Ints
  import opened Varint
  import opened Framing
  import opened Messages
  import opened Voice
  import opened Engine
  import opened EngineSafety
  import opened EngineShape
  import opened EngineTimers
  import opened EngineRuns
  import opened EngineTraffic
  import opened EngineRaces

  /** A start, the armed timeout and the expired ones. A start does not outlive its generation; its timeout does. */
  predicate VoiceMoves(s: State, t: State, starting: bool, armed: bool, fired: int) {
    && t.session.voiceStarting == (t.link.generation == s.link.generation && starting)
    && t.timers.voiceArmed == armed && t.timers.voiceFired == fired
  }

  predicate VoiceStays(s: State, t: State) {
    VoiceMoves(s, t, s.session.voiceStarting, s.timers.voiceArmed, s.timers.voiceFired)
  }

  predicate Accepts(s: State) {
    && s.session.voiceEnabled && s.link.connection == Connected
    && !s.session.voiceStarting && s.session.voiceSession.None?
  }

  /** The television confirms the session that is being started. */
  predicate Confirms(s: State, message: seq<Byte>) {
    s.session.voiceStarting && Parsed(message).VoiceStarted?
  }

  predicate ConfirmsBy(s: State, e: Event) {
    e.OnBody? && e.gen == s.link.generation && e.body.Some? && Confirms(s, e.body.value)
  }

  function StartingAfter(s: State, e: Event): bool {
    if e.CallStartVoice? then s.session.voiceStarting || Accepts(s)
    else s.session.voiceStarting && !e.CallStopVoice? && !e.OnVoiceTimer? && !ConfirmsBy(s, e)
  }

  function ArmedAfter(s: State, e: Event): bool {
    if e.CallStartVoice? then s.timers.voiceArmed || Accepts(s)
    else
      s.timers.voiceArmed && !e.CallStopVoice? && !e.CallDisconnect? && !e.VoiceExpires? && !ConfirmsBy(s, e)
  }

  function FiredAfter(s: State, e: Event): int {
    s.timers.voiceFired + if e.VoiceExpires? then 1 else if e.OnVoiceTimer? then -1 else 0
  }

  // ------------------------------------------------------------ the handlers

  lemma MovesOfAlike(s: State, u: State, t: State, starting: bool, armed: bool, fired: int)
    requires u.link == s.link && VoiceMoves(u, t, starting, armed, fired)
    ensures VoiceMoves(s, t, starting, armed, fired)
  {
  }

  lemma LossStays(s: State, g: nat)
    ensures VoiceStays(s, HandleConnectionLoss(s, g))
    ensures VoiceStays(s, ConnectionFailed(s, g)) && VoiceStays(s, AuthenticationFailed(s, g))
  {
  }

  lemma MessageMoves(s: State, message: seq<Byte>)
    ensures var confirms := Confirms(s, message);
      VoiceMoves(s, HandleMessage(s, message), s.session.voiceStarting && !confirms,
                 s.timers.voiceArmed && !confirms, s.timers.voiceFired)
    ensures HandleMessage(s, message).link.generation == s.link.generation
  {
    hide QueueMessage, Parsed, And32, HasVoice;
  }

  lemma LengthStays(s: State, g: nat, b: Byte)
    ensures VoiceStays(s, LengthByte(s, g, b))
  {
    hide Accumulate, HandleMessage, HandleConnectionLoss, BeginReadLength, ReadOneLengthByte;
    var t := s.(inbox := s.inbox.(length := Accumulate(s.inbox.length, b, s.inbox.shift)));
    var longer := t.(inbox := t.inbox.(shift := t.inbox.shift + 7));
    var ended := t.(inbox := t.inbox.(bodySize := t.inbox.length));
    LossStays(longer, g);
    LossStays(t, g);
    ReadingKeepsStart(longer, g);
    ReadingKeepsLink(longer, g);
    EmptyMessageIsUnknown();
    MessageMoves(ended, []);
    ReadingKeepsStart(HandleMessage(ended, []), g);
    ReadingKeepsLink(HandleMessage(ended, []), g);
  }

  lemma ReadingKeepsLink(s: State, g: nat)
    ensures BeginReadLength(s, g).link == s.link && ReadOneLengthByte(s, g).link == s.link
  {
  }

  lemma LengthByteStays(s: State, g: nat, input: Option<Byte>)
    ensures VoiceStays(s, LengthByteRead(s, g, input))
  {
    hide ConnectionFailed, LengthByte;
    var t := Take(s, ReadLength(g));
    LossStays(t, g);
    if input.Some? {
      LengthStays(Received(t, [input.value]), g, input.value);
    }
  }

  lemma BodyMoves(s: State, g: nat, input: Option<seq<Byte>>)
    ensures var confirms := g == s.link.generation && input.Some? && Confirms(s, input.value);
      VoiceMoves(s, BodyRead(s, g, input), s.session.voiceStarting && !confirms,
                 s.timers.voiceArmed && !confirms, s.timers.voiceFired)
  {
    hide ConnectionFailed, HandleMessage, BeginReadLength, Parsed;
    var t := Take(s, ReadBody(g));
    LossStays(t, g);
    if input.Some? {
      var u := ResetIdleTimer(Received(t, input.value));
      MessageMoves(u, input.value);
      ReadingKeepsStart(HandleMessage(u, input.value), g);
      ReadingKeepsLink(HandleMessage(u, input.value), g);
    }
  }

  lemma WriteStays(s: State, g: nat, ok: bool)
    ensures VoiceStays(s, Written(s, g, ok))
  {
    hide ConnectionFailed;
    LossStays(Take(s, Write(g)).(outbox := s.outbox.(busy := false)), g);
  }

  lemma ResolvedStays(s: State, g: nat, ok: bool)
    ensures VoiceStays(s, Resolved(s, g, ok))
  {
    hide ConnectionFailed;
    LossStays(Take(s, Resolve(g)), g);
  }

  lemma TcpConnectedStays(s: State, g: nat, ok: bool)
    ensures VoiceStays(s, TcpConnected(s, g, ok))
  {
    hide ConnectionFailed;
    LossStays(Take(s, Connect(g)), g);
  }

  lemma HandshakenStays(s: State, g: nat, ok: bool)
    ensures VoiceStays(s, Handshaken(s, g, ok))
  {
    hide AuthenticationFailed;
    LossStays(Take(s, Handshake(g)), g);
  }

  lemma CommandMoves(s: State, e: Event)
    requires Enabled(s, e)
    requires e.CallSendKey? || e.CallSendText? || e.CallLaunchApp? || e.CallStartVoice? || e.CallStopVoice?
      || e.CallSendVoiceData?
    ensures VoiceMoves(s, Step(s, e), StartingAfter(s, e), ArmedAfter(s, e), FiredAfter(s, e))
  {
    hide QueueMessage, QueuePayloads, Chunks;
  }

  lemma AttemptStays(s: State, reconnecting: bool, loads: bool)
    ensures VoiceStays(s, BeginConnect(s, reconnecting, loads))
  {
  }

  lemma AttemptsMove(s: State, e: Event)
    requires Enabled(s, e) && (e.CallConnect? || e.OnReconnect? || e.OnIdle?)
    ensures VoiceStays(s, Step(s, e))
  {
    hide BeginConnect, HandleConnectionLoss;
    match e
    case CallConnect(loads) =>
      AttemptStays(ResetDelay(s.(link := s.link.(userDisconnect := false),
                                 timers := s.timers.(reconnectArmed := false))), false, loads);
    case OnReconnect(loads) =>
      AttemptStays(s.(timers := s.timers.(reconnectFired := s.timers.reconnectFired - 1)), true, loads);
    case OnIdle(g) => LossStays(s.(timers := s.timers.(idleFired := s.timers.idleFired - multiset{g})), g);
  }

  lemma ConnectionMoves(s: State, e: Event)
    requires Enabled(s, e) && (e.CallConnect? || e.CallDisconnect? || IsTimer(e))
    ensures VoiceMoves(s, Step(s, e), StartingAfter(s, e), ArmedAfter(s, e), FiredAfter(s, e))
  {
    hide Confirms, Accepts;
    if e.CallConnect? || e.OnReconnect? || e.OnIdle? {
      AttemptsMove(s, e);
      hide Step, VoiceMoves;
    }
  }

  /**
   A start begins exactly with a call that is accepted, and ends exactly with a stop,
   its timeout, a confirmation or its generation. Its timeout is armed by the call and
   cancelled by a stop, a disconnect and a confirmation, but not by the loss of the
   connection.
   */
  lemma StepMovesVoice(s: State, e: Event)
    requires Enabled(s, e)
    ensures VoiceMoves(s, Step(s, e), StartingAfter(s, e), ArmedAfter(s, e), FiredAfter(s, e))
  {
    hide VoiceMoves, Confirms, Accepts, Resolved, TcpConnected, Handshaken, LengthByteRead, BodyRead, Written;
    match e
    case OnResolved(g, ok) => ResolvedStays(s, g, ok);
    case OnConnected(g, ok) => TcpConnectedStays(s, g, ok);
    case OnHandshake(g, ok) => HandshakenStays(s, g, ok);
    case OnLengthByte(g, input) => LengthByteStays(s, g, input);
    case OnBody(g, input) => BodyMoves(s, g, input);
    case OnWritten(g, ok) => WriteStays(s, g, ok);
    case CallConnect(_) => ConnectionMoves(s, e); hide Step;
    case CallDisconnect => ConnectionMoves(s, e); hide Step;
    case CallSendKey(_, _) => CommandMoves(s, e); hide Step;
    case CallSendText(_) => CommandMoves(s, e); hide Step;
    case CallLaunchApp(_) => CommandMoves(s, e); hide Step;
    case CallStartVoice => CommandMoves(s, e); hide Step;
    case CallStopVoice => CommandMoves(s, e); hide Step;
    case CallSendVoiceData(_) => CommandMoves(s, e); hide Step;
    case _ => ConnectionMoves(s, e); hide Step;
  }
}
