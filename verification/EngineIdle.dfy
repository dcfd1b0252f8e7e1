/**
 The race of the idle timer: its handlers know their generation, but not which of
 its waits they belong to. What that does, and exactly when it does not.
 */
module EngineIdle {
  import opened Wrappers
  import opened Ints
  import opened Varint
  import opened Wire
  import opened Framing
  import opened Messages
  import opened Voice
  import opened Engine
  import opened EngineSafety
  import opened EngineShape
  import opened EngineLedger
  import opened EngineReader
  import opened EngineTimers
  import opened EngineRuns
  import opened EngineRaces

  /** Waits on the idle timer whose handler would close the current stream. */
  function IdleWaits(s: State): nat {
    s.timers.idleFired[s.link.generation] + if s.timers.idleArmed == Some(s.link.generation) then 1 else 0
  }

  /** A live stream has at most its last idle wait. */
  predicate Prompt(s: State) {
    s.link.stream ==> IdleWaits(s) <= 1
  }

  /** The step resets the idle timer of a live stream: a message is queued, one arrives, or the handshake is over. */
  predicate Resets(s: State, e: Event) {
    && s.link.stream
    && (|| e.CallSendKey? || e.CallSendText? || e.CallLaunchApp?
        || (e.CallStartVoice? && MayStartVoice(s))
        || (e.CallSendVoiceData? && s.session.voiceSession.Some? && e.pcm != [])
        || (e.CallStopVoice? && s.session.voiceSession.Some?)
        || (e.OnHandshake? && e.gen == s.link.generation && e.ok)
        || (e.OnBody? && e.gen == s.link.generation && e.body.Some?))
  }

  /** It does so while a wait of the current generation has expired and its handler has not run. */
  predicate ResetsTooLate(s: State, e: Event) {
    Resets(s, e) && s.link.generation in s.timers.idleFired
  }

  // ------------------------------------------------------------ how the waits move

  /** The waits of a step: a reset replaces what is armed; nothing else adds one; a new stream has none. */
  predicate IdleMoves(s: State, t: State, reset: bool) {
    if t.link.generation != s.link.generation then
      !reset && IdleWaits(t) == 0
    else if reset then
      && t.link.stream && t.timers.idleArmed == Some(s.link.generation)
      && t.timers.idleFired == s.timers.idleFired
    else
      (t.link.stream ==> s.link.stream) && IdleWaits(t) <= IdleWaits(s)
  }

  /** The idle timer is left alone. */
  predicate IdleStays(s: State, t: State) {
    t.link.generation == s.link.generation && t.link.stream == s.link.stream && t.timers.idleArmed == s.timers.idleArmed
    && t.timers.idleFired == s.timers.idleFired
  }

  lemma ClosedHasNone(s: State)
    requires IdleBound(s)
    ensures IdleWaits(CloseStream(s)) == 0 && CloseStream(s).link.generation == s.link.generation + 1
    ensures CloseStream(s).timers == s.timers
  {
  }

  lemma LossMovesIdle(s: State, g: nat)
    requires IdleBound(s)
    ensures IdleMoves(s, HandleConnectionLoss(s, g), false)
    ensures IdleMoves(s, ConnectionFailed(s, g), false) && IdleMoves(s, AuthenticationFailed(s, g), false)
  {
    hide CloseStream, IdleBound;
    ClosedHasNone(s);
  }

  lemma AttemptMovesIdle(s: State, reconnecting: bool, loads: bool)
    requires IdleBound(s)
    ensures IdleMoves(s, BeginConnect(s, reconnecting, loads), false)
  {
    hide CloseStream, IdleBound;
    ClosedHasNone(s);
  }

  lemma QueueMovesIdle(s: State, o: Message)
    ensures IdleMoves(s, QueueMessage(s, o), s.link.stream)
    ensures !s.link.stream ==> QueueMessage(s, o) == s
    ensures QueueMessage(s, o).link == s.link
  {
    hide QueueMessage;
  }

  lemma {:induction false} PayloadsMoveIdle(s: State, session: I32, chunks: seq<seq<Byte>>)
    requires forall c | c in chunks :: |c| <= CHUNK_SIZE
    ensures IdleMoves(s, QueuePayloads(s, session, chunks), s.link.stream && chunks != [])
    decreases |chunks|
  {
    hide QueueMessage;
    if chunks != [] {
      QueueMovesIdle(s, VoicePayload(session, chunks[0]));
      PayloadsMoveIdle(QueueMessage(s, VoicePayload(session, chunks[0])), session, chunks[1..]);
    }
  }

  /** A message that is handled resets the timer at most. */
  lemma MessageMovesIdle(s: State, message: seq<Byte>)
    requires s.timers.idleArmed == Some(s.link.generation)
    ensures IdleStays(s, HandleMessage(s, message))
  {
    hide QueueMessage, Parsed, And32, HasVoice;
  }

  /** The empty message is unknown, so it does not even reset the timer. */
  lemma EmptyMessageStaysIdle(s: State)
    ensures IdleStays(s, HandleMessage(s, []))
  {
    hide Parsed, QueueMessage;
    EmptyMessageIsUnknown();
  }

  lemma ReadingStaysIdle(s: State, g: nat)
    ensures IdleStays(s, ReadOneLengthByte(s, g)) && IdleStays(s, BeginReadLength(s, g))
  {
  }

  // ------------------------------------------------------------ the handlers

  lemma ResolvedMovesIdle(s: State, g: nat, ok: bool)
    requires IdleBound(s)
    ensures IdleMoves(s, Resolved(s, g, ok), false)
  {
    hide ConnectionFailed;
    LossMovesIdle(Take(s, Resolve(g)), g);
  }

  lemma TcpConnectedMovesIdle(s: State, g: nat, ok: bool)
    requires IdleBound(s)
    ensures IdleMoves(s, TcpConnected(s, g, ok), false)
  {
    hide ConnectionFailed;
    LossMovesIdle(Take(s, Connect(g)), g);
  }

  lemma HandshakenMovesIdle(s: State, g: nat, ok: bool)
    requires IdleBound(s) && (g == s.link.generation ==> s.link.stream)
    ensures IdleMoves(s, Handshaken(s, g, ok), g == s.link.generation && ok)
  {
    hide AuthenticationFailed, BeginReadLength;
    LossMovesIdle(Take(s, Handshake(g)), g);
    ReadingStaysIdle(ResetDelay(Take(s, Handshake(g))), g);
  }

  lemma LengthByteReadMovesIdle(s: State, g: nat, input: Option<Byte>)
    requires IdleBound(s)
    ensures IdleMoves(s, LengthByteRead(s, g, input), false)
  {
    hide ConnectionFailed, LengthByte;
    var t := Take(s, ReadLength(g));
    LossMovesIdle(t, g);
    if input.Some? {
      LengthByteMovesIdle(Received(t, [input.value]), g, input.value);
    }
  }

  lemma InboxKeepsIdle(s: State, inbox: Inbox)
    requires IdleBound(s)
    ensures IdleBound(s.(inbox := inbox))
  {
  }

  lemma AfterInbox(s: State, t: State, r: State)
    requires t == s.(inbox := t.inbox) && IdleMoves(t, r, false)
    ensures IdleMoves(s, r, false)
  {
  }

  lemma LengthGoesOnMovesIdle(s: State, g: nat)
    requires IdleBound(s)
    ensures IdleMoves(s, LengthGoesOn(s, g), false)
  {
    hide HandleConnectionLoss, ReadOneLengthByte, IdleBound;
    var longer := s.(inbox := s.inbox.(shift := s.inbox.shift + 7));
    InboxKeepsIdle(s, longer.inbox);
    LossMovesIdle(longer, g);
    ReadingStaysIdle(longer, g);
  }

  lemma LengthEndsMovesIdle(s: State, g: nat)
    requires IdleBound(s)
    ensures IdleMoves(s, LengthEnds(s, g), false)
  {
    hide HandleMessage, HandleConnectionLoss, BeginReadLength, IdleBound;
    var ended := s.(inbox := s.inbox.(bodySize := s.inbox.length));
    LossMovesIdle(s, g);
    EmptyMessageStaysIdle(ended);
    ReadingStaysIdle(HandleMessage(ended, []), g);
  }

  lemma LengthByteMovesIdle(s: State, g: nat, b: Byte)
    requires IdleBound(s)
    ensures IdleMoves(s, LengthByte(s, g, b), false)
  {
    hide Accumulate, LengthGoesOn, LengthEnds, IdleBound, IdleMoves;
    var t := s.(inbox := s.inbox.(length := Accumulate(s.inbox.length, b, s.inbox.shift)));
    InboxKeepsIdle(s, t.inbox);
    LengthGoesOnMovesIdle(t, g);
    LengthEndsMovesIdle(t, g);
    AfterInbox(s, t, LengthByte(s, g, b));
  }

  lemma BodyReadMovesIdle(s: State, g: nat, input: Option<seq<Byte>>)
    requires IdleBound(s) && (g == s.link.generation ==> s.link.stream)
    ensures IdleMoves(s, BodyRead(s, g, input), g == s.link.generation && input.Some?)
  {
    hide ConnectionFailed, HandleMessage, BeginReadLength;
    var t := Take(s, ReadBody(g));
    LossMovesIdle(t, g);
    if input.Some? {
      var u := ResetIdleTimer(Received(t, input.value));
      MessageMovesIdle(u, input.value);
      ReadingStaysIdle(HandleMessage(u, input.value), g);
    }
  }

  lemma OthersKeepIdle(s: State, t: State)
    requires IdleBound(s) && t.link == s.link && t.timers == s.timers
    ensures IdleBound(t)
  {
  }

  lemma WritingStaysIdle(s: State)
    requires s.outbox.queue != []
    ensures IdleStays(s, BeginWrite(s.(outbox := s.outbox.(queue := s.outbox.queue[1..]),
                                       log := s.log.(written := s.log.written + [s.outbox.queue[0]]))))
  {
  }

  lemma WrittenMovesIdle(s: State, g: nat, ok: bool)
    requires IdleBound(s)
    ensures IdleMoves(s, Written(s, g, ok), false)
  {
    hide ConnectionFailed, BeginWrite, IdleBound;
    var failed := Take(s, Write(g)).(outbox := s.outbox.(busy := false));
    OthersKeepIdle(s, failed);
    LossMovesIdle(failed, g);
    if s.outbox.queue != [] {
      WritingStaysIdle(Take(s, Write(g)));
    }
  }

  lemma UserConnectMovesIdle(s: State, loads: bool)
    requires IdleBound(s)
    ensures IdleMoves(s, UserConnect(s, loads), false)
  {
    hide BeginConnect;
    AttemptMovesIdle(ResetDelay(s.(link := s.link.(userDisconnect := false),
                                   timers := s.timers.(reconnectArmed := false))), false, loads);
  }

  lemma ReconnectMovesIdle(s: State, loads: bool)
    requires IdleBound(s) && s.timers.reconnectFired > 0
    ensures IdleMoves(s, ReconnectRuns(s, loads), false)
  {
    hide BeginConnect;
    AttemptMovesIdle(s.(timers := s.timers.(reconnectFired := s.timers.reconnectFired - 1)), true, loads);
  }

  lemma IdleRunsMovesIdle(s: State, g: nat)
    requires IdleBound(s)
    ensures IdleMoves(s, IdleRuns(s, g), false)
  {
    hide HandleConnectionLoss;
    var t := s.(timers := s.timers.(idleFired := s.timers.idleFired - multiset{g}));
    LossMovesIdle(t, g);
  }

  lemma TimersMoveIdle(s: State, e: Event)
    requires IdleBound(s) && Enabled(s, e)
    requires e.CallDisconnect? || e.ReconnectExpires? || e.IdleExpires? || e.VoiceExpires? || e.OnVoiceTimer?
    ensures IdleMoves(s, Step(s, e), false)
  {
  }

  lemma StartVoiceMovesIdle(s: State)
    ensures IdleMoves(s, StartVoice(s), s.link.stream && MayStartVoice(s))
  {
    hide QueueMessage;
    QueueMovesIdle(s.(session := s.session.(voiceStarting := true)), Key(KEYCODE_SEARCH, SHORT));
  }

  lemma StopVoiceMovesIdle(s: State)
    ensures IdleMoves(s, StopVoice(s), s.link.stream && s.session.voiceSession.Some?)
  {
    hide QueueMessage;
    if s.session.voiceSession.Some? {
      QueueMovesIdle(s.(timers := s.timers.(voiceArmed := false), session := s.session.(voiceStarting := false)),
                     VoiceEnd(s.session.voiceSession.value));
    }
  }

  lemma SendVoiceDataMovesIdle(s: State, pcm: seq<Byte>)
    ensures IdleMoves(s, SendVoiceData(s, pcm), s.link.stream && s.session.voiceSession.Some? && pcm != [])
  {
    hide QueuePayloads;
    if s.session.voiceSession.Some? {
      ChunkSizes(pcm);
      ChunksOrNone(pcm);
      hide Chunks;
      PayloadsMoveIdle(s, s.session.voiceSession.value, Chunks(pcm));
    }
  }

  lemma ChunksOrNone(pcm: seq<Byte>)
    ensures Chunks(pcm) == [] <==> pcm == []
  {
  }

  lemma StepMovesIdle(s: State, e: Event)
    requires Pending(s) && IdleBound(s) && Enabled(s, e)
    ensures IdleMoves(s, Step(s, e), Resets(s, e))
  {
    hide IdleMoves, IdleBound, Pending, Resolved, TcpConnected, Handshaken, LengthByteRead, BodyRead, Written,
      UserConnect, ReconnectRuns, IdleRuns, QueueMessage, StartVoice, StopVoice, SendVoiceData, MayStartVoice;
    match e
    case CallConnect(loads) => UserConnectMovesIdle(s, loads);
    case CallSendKey(code, direction) => QueueMovesIdle(s, Key(code, direction));
    case CallSendText(text) => QueueMovesIdle(s, Text(text, s.session.imeCounter, s.session.imeFieldCounter));
    case CallLaunchApp(link) => QueueMovesIdle(s, AppLink(link));
    case CallStartVoice => StartVoiceMovesIdle(s);
    case CallStopVoice => StopVoiceMovesIdle(s);
    case CallSendVoiceData(pcm) => SendVoiceDataMovesIdle(s, pcm);
    case OnResolved(g, ok) => ResolvedMovesIdle(s, g, ok);
    case OnConnected(g, ok) => TcpConnectedMovesIdle(s, g, ok);
    case OnHandshake(g, ok) =>
      if g == s.link.generation { CurrentMeansLive(s, Handshake(g)); }
      HandshakenMovesIdle(s, g, ok);
    case OnLengthByte(g, input) => LengthByteReadMovesIdle(s, g, input);
    case OnBody(g, body) =>
      if g == s.link.generation { CurrentMeansLive(s, ReadBody(g)); }
      BodyReadMovesIdle(s, g, body);
    case OnWritten(g, ok) => WrittenMovesIdle(s, g, ok);
    case OnReconnect(loads) => ReconnectMovesIdle(s, loads);
    case OnIdle(g) => IdleRunsMovesIdle(s, g);
    case _ => TimersMoveIdle(s, e); hide Step;
  }

  // ------------------------------------------------------------ the condition

  lemma PromptUnlessTooLate(s: State, e: Event)
    requires Pending(s) && IdleBound(s) && Prompt(s) && Enabled(s, e)
    ensures Prompt(Step(s, e)) <==> !ResetsTooLate(s, e)
  {
    hide Step, Pending, IdleBound, Enabled;
    StepMovesIdle(s, e);
  }

  /**
   Throughout a run a live stream has at most its last idle wait if and only if
   nothing resets the idle timer while a wait of the current generation has
   expired and its handler has not run.
   */
  lemma PromptIffNeverTooLate(options: Options, events: seq<Event>)
    requires Possible(Initial(options), events)
    ensures var s := Initial(options);
      (forall i | 0 <= i <= |events| :: Prompt(StateAt(s, events, i))) <==>
      (forall i | 0 <= i < |events| :: !ResetsTooLate(StateAt(s, events, i), events[i]))
  {
    InitialInvariant(options);
    forall t, e | Invariant(t) && Prompt(t) && Enabled(t, e) ensures Prompt(Step(t, e)) <==> !ResetsTooLate(t, e) {
      PromptUnlessTooLate(t, e);
    }
    hide Invariant, Enabled, Step, ResetsTooLate, StateAt;
    HoldsIffNeverBroken(t => Prompt(t), (t, e) => ResetsTooLate(t, e), Initial(options), events);
  }

  lemma LastWaitRuns(s: State, g: nat)
    requires Prompt(s) && Enabled(s, OnIdle(g)) && s.link.stream && g == s.link.generation
    ensures s.timers.idleFired[g] == 1 && s.timers.idleArmed != Some(g)
  {
  }

  /** So without such a reset a stream is closed as idle only if nothing has reset its timer since the wait began. */
  lemma NoBusyStreamIsClosed(options: Options, events: seq<Event>, i: nat)
    requires Possible(Initial(options), events) && i < |events| && events[i].OnIdle?
    requires forall i | 0 <= i < |events| :: !ResetsTooLate(StateAt(Initial(options), events, i), events[i])
    ensures var s := StateAt(Initial(options), events, i);
      s.link.stream && events[i].gen == s.link.generation ==>
        s.timers.idleFired[s.link.generation] == 1 && s.timers.idleArmed != Some(s.link.generation)
  {
    hide ResetsTooLate, Initial, StateAt, Step, Enabled, Prompt;
    PromptIffNeverTooLate(options, events);
    NextIsEnabled(Initial(options), events, i);
    assert Prompt(StateAt(Initial(options), events, i));
    var s := StateAt(Initial(options), events, i);
    if s.link.stream && events[i].gen == s.link.generation {
      LastWaitRuns(s, events[i].gen);
    }
  }

  // ------------------------------------------------------------ a busy stream closed

  lemma IdleWaitExpires(s: State)
    requires s.timers.idleArmed.Some?
    ensures Enabled(s, IdleExpires)
    ensures Step(s, IdleExpires) ==
      s.(timers := s.timers.(idleArmed := None, idleFired := s.timers.idleFired + multiset{s.timers.idleArmed.value}))
  {
  }

  lemma KeyIsSent(s: State, code: I32, direction: Direction)
    requires s.link.stream
    ensures Enabled(s, CallSendKey(code, direction))
    ensures var t := Step(s, CallSendKey(code, direction));
      && t.link == s.link && t.timers == s.timers.(idleArmed := Some(s.link.generation))
  {
    hide QueueMessage;
  }

  lemma IdleHandlerCloses(s: State)
    requires s.link.generation in s.timers.idleFired && !s.link.userDisconnect
    ensures Enabled(s, OnIdle(s.link.generation))
    ensures var t := Step(s, OnIdle(s.link.generation));
      t.link.generation == s.link.generation + 1 && !t.link.stream
  {
  }

  /**
   It does happen, to any live stream whose idle wait is armed: the wait expires,
   a key is sent, which starts the wait anew, and then the handler of the old wait
   closes the stream.
   */
  lemma OldIdleWaitClosesABusyStream(s: State, code: I32, direction: Direction)
    requires Pending(s) && s.link.stream && s.timers.idleArmed == Some(s.link.generation)
    ensures var events := [IdleExpires, CallSendKey(code, direction), OnIdle(s.link.generation)];
      && Possible(s, events)
      && StateAt(s, events, 2).link.stream
      && StateAt(s, events, 2).timers.idleArmed == Some(s.link.generation)
      && StateAt(s, events, 3).link.generation > s.link.generation && !StateAt(s, events, 3).link.stream
  {
    LiveIsNotDisconnected(s);
    hide Step, Enabled, Pending;
    IdleWaitExpires(s);
    var s1 := Step(s, IdleExpires);
    KeyIsSent(s1, code, direction);
    var s2 := Step(s1, CallSendKey(code, direction));
    IdleHandlerCloses(s2);
    ThreeSteps(s, IdleExpires, CallSendKey(code, direction), OnIdle(s.link.generation));
  }

  lemma LiveIsNotDisconnected(s: State)
    requires Pending(s) && s.link.stream
    ensures !s.link.userDisconnect
  {
  }

  lemma ThreeSteps(s: State, a: Event, b: Event, c: Event)
    requires Enabled(s, a) && Enabled(Step(s, a), b) && Enabled(Step(Step(s, a), b), c)
    ensures Possible(s, [a, b, c])
    ensures StateAt(s, [a, b, c], 2) == Step(Step(s, a), b)
    ensures StateAt(s, [a, b, c], 3) == Step(Step(Step(s, a), b), c)
  {
    hide Step, Enabled;
    assert Possible(s, []) && Run(s, []) == s;
    OneStepMore(s, [], a);
    OneStepMore(s, [a], b);
    OneStepMore(s, [a, b], c);
    assert [] + [a] == [a] && [a] + [b] == [a, b] && [a, b] + [c] == [a, b, c];
    assert [a, b, c][..2] == [a, b] && [a, b, c][..3] == [a, b, c];
    RunInParts(s, [a, b, c], 2);
    RunInParts(s, [a, b, c], 3);
  }

  /** Such streams there are: one key sent right after the connect call makes one. */
  lemma IdleWaitsAreArmed(options: Options, code: I32, direction: Direction)
    ensures var events := [CallConnect(true), CallSendKey(code, direction)];
      && Possible(Initial(options), events)
      && var s := After(options, events);
        Pending(s) && s.link.stream && s.timers.idleArmed == Some(s.link.generation)
  {
    hide Step, Enabled, Pending, Shape, Ledger, Aligned, Delays, IdleBound;
    var s := Initial(options);
    assert Possible(s, []) && Run(s, []) == s;
    ConnectIsCalled(s);
    OneStepMore(s, [], CallConnect(true));
    ConnectOpens(s);
    KeyIsSent(Step(s, CallConnect(true)), code, direction);
    OneStepMore(s, [CallConnect(true)], CallSendKey(code, direction));
    assert [] + [CallConnect(true)] == [CallConnect(true)];
    assert [CallConnect(true)] + [CallSendKey(code, direction)] == [CallConnect(true), CallSendKey(code, direction)];
    AfterIsInvariant(options, [CallConnect(true), CallSendKey(code, direction)]);
  }

  lemma ConnectOpens(s: State)
    ensures Step(s, CallConnect(true)).link.stream
  {
  }
}
