/**
 How a connection goes on: which events end a live stream, what the engine does
 about it, and when it is connected.
 */
module EngineLoss {
  import opened Wrappers
  import opened Ints
  import opened Varint
  import opened Framing
  import opened Messages
  import opened Voice
  import opened Engine
  import opened EngineSafety
  import opened EngineShape
  import opened EngineLedger
  import opened EngineReader
  import opened EngineTimers
  import opened EngineRuns
  import opened EngineTraffic

  /**
   Besides calls and the reconnect timer, a stream is ended by an operation on it
   that fails, a length of ten continuation bytes or of more than 4 MiB, and the
   idle timer.
   */
  predicate EndsStream(s: State, e: Event) {
    match e
    case OnResolved(g, ok) => g == s.link.generation && !ok
    case OnConnected(g, ok) => g == s.link.generation && !ok
    case OnHandshake(g, ok) => g == s.link.generation && !ok
    case OnWritten(g, ok) => g == s.link.generation && !ok
    case OnBody(g, body) => g == s.link.generation && body.None?
    case OnLengthByte(g, b) =>
      g == s.link.generation && (b.None? || Deframe(s.log.received + [b.value], 0x40_0000).rest.Refused?)
    case OnIdle(g) => g == s.link.generation
    case _ => false
  }

  /** What becomes of the connection in a step. */
  datatype Fate = Stays(connection: Connection) | Opened | Retried | GivenUp

  /** A new attempt after the delay there is, which then doubles up to 30 s, or none at all. */
  predicate Meets(s: State, t: State, f: Fate) {
    && t.options == s.options && t.timers.reconnectFired == s.timers.reconnectFired
    && match f
       case Stays(c) =>
         && t.link == s.link.(connection := c)
         && t.delays == s.delays && t.timers.reconnectArmed == s.timers.reconnectArmed
       case Opened =>
         && t.link == s.link.(reconnectDelay := 100)
         && t.delays == [] && t.timers.reconnectArmed == s.timers.reconnectArmed
       case Retried =>
         && t.link == s.link.(connection := Reconnecting, stream := false, generation := s.link.generation + 1,
                              reconnectDelay := Min(2 * s.link.reconnectDelay, 30000))
         && t.delays == s.delays + [s.link.reconnectDelay] && t.timers.reconnectArmed
       case GivenUp =>
         && t.link == s.link.(connection := Disconnected, stream := false, generation := s.link.generation + 1)
         && t.delays == s.delays && t.timers.reconnectArmed == s.timers.reconnectArmed
  }

  predicate SaysStart(ms: seq<seq<Byte>>) {
    exists m :: m in ms && Parsed(m).Start?
  }

  function FateOf(s: State, e: Event): Fate {
    if EndsStream(s, e) then
      if s.options.autoReconnect && !e.OnHandshake? then Retried else GivenUp
    else if e.OnHandshake? && e.gen == s.link.generation then Opened
    else Stays(if SaysStart(HandledBy(s, e)) then Connected else s.link.connection)
  }

  function Loss(s: State): Fate {
    if s.options.autoReconnect then Retried else GivenUp
  }

  // ------------------------------------------------------------ the handlers

  /** Nothing that the fate is about has changed so far. */
  predicate Alike(s: State, u: State) {
    && u.options == s.options && u.link == s.link && u.delays == s.delays
    && u.timers.reconnectArmed == s.timers.reconnectArmed && u.timers.reconnectFired == s.timers.reconnectFired
  }

  lemma MeetsOfAlike(s: State, u: State, t: State, f: Fate)
    requires Alike(s, u) && Meets(u, t, f)
    ensures Meets(s, t, f)
  {
  }

  lemma LossMeets(s: State)
    requires !s.link.userDisconnect
    ensures Meets(s, HandleConnectionLoss(s, s.link.generation), Loss(s))
    ensures Meets(s, ConnectionFailed(s, s.link.generation), Loss(s))
    ensures Meets(s, AuthenticationFailed(s, s.link.generation), GivenUp)
  {
  }

  lemma StayMeets(s: State, t: State)
    requires Alike(s, t)
    ensures Meets(s, t, Stays(s.link.connection))
  {
  }

  lemma ResolvedMeets(s: State, g: nat, ok: bool)
    requires g == s.link.generation ==> !s.link.userDisconnect
    ensures Meets(s, Resolved(s, g, ok),
                  if g == s.link.generation && !ok then Loss(s) else Stays(s.link.connection))
  {
    hide ConnectionFailed;
    var t := Take(s, Resolve(g));
    StayMeets(s, t);
    if g == s.link.generation {
      LossMeets(t);
    }
  }

  lemma TcpConnectedMeets(s: State, g: nat, ok: bool)
    requires g == s.link.generation ==> !s.link.userDisconnect
    ensures Meets(s, TcpConnected(s, g, ok),
                  if g == s.link.generation && !ok then Loss(s) else Stays(s.link.connection))
  {
    hide ConnectionFailed;
    var t := Take(s, Connect(g));
    StayMeets(s, t);
    if g == s.link.generation {
      LossMeets(t);
    }
  }

  lemma HandshakenMeets(s: State, g: nat, ok: bool)
    requires g == s.link.generation ==> !s.link.userDisconnect
    ensures Meets(s, Handshaken(s, g, ok),
                  if g != s.link.generation then Stays(s.link.connection) else if ok then Opened else GivenUp)
  {
    hide AuthenticationFailed;
    var t := Take(s, Handshake(g));
    StayMeets(s, t);
    if g == s.link.generation {
      LossMeets(t);
    }
  }

  lemma WrittenMeets(s: State, g: nat, ok: bool)
    requires g == s.link.generation ==> !s.link.userDisconnect
    ensures Meets(s, Written(s, g, ok),
                  if g == s.link.generation && !ok then Loss(s) else Stays(s.link.connection))
  {
    hide ConnectionFailed;
    var t := Take(s, Write(g)).(outbox := s.outbox.(busy := false));
    StayMeets(s, t);
    if g == s.link.generation {
      LossMeets(t);
    }
  }

  lemma HandledMeets(s: State, message: seq<Byte>)
    ensures Meets(s, HandleMessage(s, message),
                  Stays(if Parsed(message).Start? then Connected else s.link.connection))
  {
    hide QueueMessage, Parsed, And32, HasVoice;
  }

  lemma ReadingMeets(s: State, t: State, g: nat, f: Fate)
    requires Meets(s, t, f)
    ensures Meets(s, BeginReadLength(t, g), f) && Meets(s, ReadOneLengthByte(t, g), f)
  {
  }

  lemma BodyReadMeets(s: State, g: nat, input: Option<seq<Byte>>)
    requires g == s.link.generation ==> !s.link.userDisconnect
    ensures Meets(s, BodyRead(s, g, input),
                  if g != s.link.generation then Stays(s.link.connection)
                  else if input.None? then Loss(s)
                  else Stays(if Parsed(input.value).Start? then Connected else s.link.connection))
  {
    hide ConnectionFailed, HandleMessage, BeginReadLength, Parsed, Meets;
    var t := Take(s, ReadBody(g));
    StayMeets(s, t);
    if g == s.link.generation {
      LossMeets(t);
      MeetsOfAlike(s, t, ConnectionFailed(t, g), Loss(s));
      if input.Some? {
        var u := ResetIdleTimer(Received(t, input.value));
        var f := Stays(if Parsed(input.value).Start? then Connected else s.link.connection);
        HandledMeets(u, input.value);
        MeetsOfAlike(s, u, HandleMessage(u, input.value), f);
        ReadingMeets(s, HandleMessage(u, input.value), g, f);
      }
    }
  }

  /** The byte makes the length one that is refused. */
  predicate Overlong(s: State, b: Byte) {
    if Continues(b) then s.inbox.shift + 7 > 63
    else Accumulate(s.inbox.length, b, s.inbox.shift) > MAX_FRAME_SIZE
  }

  lemma LengthMeets(s: State, b: Byte)
    requires !s.link.userDisconnect
    ensures Meets(s, LengthByte(s, s.link.generation, b), if Overlong(s, b) then Loss(s) else Stays(s.link.connection))
  {
    hide Accumulate, HandleMessage, HandleConnectionLoss, BeginReadLength, ReadOneLengthByte, Meets;
    var g := s.link.generation;
    var t := s.(inbox := s.inbox.(length := Accumulate(s.inbox.length, b, s.inbox.shift)));
    var longer := t.(inbox := t.inbox.(shift := t.inbox.shift + 7));
    var ended := t.(inbox := t.inbox.(bodySize := t.inbox.length));
    LossMeets(t);
    LossMeets(longer);
    MeetsOfAlike(s, t, HandleConnectionLoss(t, g), Loss(s));
    MeetsOfAlike(s, longer, HandleConnectionLoss(longer, g), Loss(s));
    StayMeets(s, longer);
    ReadingMeets(s, longer, g, Stays(s.link.connection));
    StayMeets(s, Post(ended, ReadBody(g)));
    EmptyMessageIsUnknown();
    HandledMeets(ended, []);
    MeetsOfAlike(s, ended, HandleMessage(ended, []), Stays(s.link.connection));
    ReadingMeets(s, HandleMessage(ended, []), g, Stays(s.link.connection));
  }

  lemma LengthByteReadMeets(s: State, g: nat, input: Option<Byte>)
    requires g == s.link.generation ==> !s.link.userDisconnect
    ensures Meets(s, LengthByteRead(s, g, input),
                  if g == s.link.generation && (input.None? || Overlong(s, input.value)) then Loss(s)
                  else Stays(s.link.connection))
  {
    hide ConnectionFailed, LengthByte, Meets, Accumulate;
    var t := Take(s, ReadLength(g));
    StayMeets(s, t);
    if g == s.link.generation {
      LossMeets(t);
      MeetsOfAlike(s, t, ConnectionFailed(t, g), Loss(s));
      if input.Some? {
        var u := Received(t, [input.value]);
        LengthMeets(u, input.value);
        MeetsOfAlike(s, u, LengthByte(u, g, input.value),
                     if Overlong(s, input.value) then Loss(s) else Stays(s.link.connection));
      }
    }
  }

  lemma IdleMeets(s: State, g: nat)
    requires g == s.link.generation ==> !s.link.userDisconnect
    ensures Meets(s, IdleRuns(s, g), if g == s.link.generation then Loss(s) else Stays(s.link.connection))
  {
    hide HandleConnectionLoss;
    var t := s.(timers := s.timers.(idleFired := s.timers.idleFired - multiset{g}));
    StayMeets(s, t);
    if g == s.link.generation {
      LossMeets(t);
    }
  }

  lemma QueueMeets(s: State, o: Message)
    ensures Meets(s, QueueMessage(s, o), Stays(s.link.connection))
  {
    hide QueueMessage;
  }

  lemma VoiceMeets(s: State, e: Event)
    requires Enabled(s, e)
    requires e.CallStartVoice? || e.CallStopVoice? || e.CallSendVoiceData? || e.IdleExpires? || e.VoiceExpires?
      || e.OnVoiceTimer?
    ensures Meets(s, Step(s, e), Stays(s.link.connection))
  {
    hide QueueMessage, QueuePayloads, Chunks;
  }

  /** A refused length is one that is too long by what has been read so far. */
  lemma OverlongIsRefused(s: State, b: Byte)
    requires Invariant(s) && ReadLength(s.link.generation) in s.ops
    ensures Overlong(s, b) <==> Deframe(s.log.received + [b], 0x40_0000).rest.Refused?
  {
    hide Deframe, LengthByte, Pending, Shape, Ledger, Delays, IdleBound, Accumulate, Consumed;
    ByteOfLength(s.log.received, Unread(s.log).bytes, s.inbox.length, b);
  }

  /** No message of a single byte of a length says anything. */
  lemma LengthSaysNothing(s: State, b: Byte)
    ensures !SaysStart(EmptyFrame(s, b))
  {
    EmptyMessageIsUnknown();
    hide Parsed, Accumulate;
  }

  lemma OneSaysStart(m: seq<Byte>)
    ensures SaysStart([m]) <==> Parsed(m).Start?
    ensures !SaysStart([])
  {
    hide Parsed;
    assert m in [m];
  }

  lemma CompletionMeetsItsFate(s: State, e: Event)
    requires Invariant(s) && Enabled(s, e) && IsCompletion(e)
    requires e.gen == s.link.generation ==> !s.link.userDisconnect
    ensures Meets(s, Step(s, e), FateOf(s, e))
  {
    hide Invariant, Meets, Resolved, TcpConnected, Handshaken, LengthByteRead, BodyRead, Written, SaysStart,
      Parsed, EmptyFrame, Deframe, Overlong;
    OneSaysStart([]);
    match e
    case OnResolved(g, ok) => ResolvedMeets(s, g, ok);
    case OnConnected(g, ok) => TcpConnectedMeets(s, g, ok);
    case OnHandshake(g, ok) => HandshakenMeets(s, g, ok);
    case OnLengthByte(g, input) =>
      LengthByteReadMeets(s, g, input);
      if g == s.link.generation && input.Some? {
        OverlongIsRefused(s, input.value);
        LengthSaysNothing(s, input.value);
      }
    case OnBody(g, body) =>
      BodyReadMeets(s, g, body);
      if body.Some? { OneSaysStart(body.value); }
    case OnWritten(g, ok) => WrittenMeets(s, g, ok);
  }

  lemma LiveIsWanted(s: State, op: Op)
    requires Pending(s) && op in s.ops && op.gen == s.link.generation
    ensures !s.link.userDisconnect
  {
    CurrentMeansLive(s, op);
  }

  lemma IdleIsWanted(s: State, g: nat)
    requires Pending(s) && IdleBound(s) && g in s.timers.idleFired && g == s.link.generation
    ensures !s.link.userDisconnect
  {
    assert OfStream(g, s);
  }

  lemma OthersMeetTheirFate(s: State, e: Event)
    requires Pending(s) && IdleBound(s) && Enabled(s, e) && !IsCompletion(e)
    requires !e.CallConnect? && !e.CallDisconnect? && !e.OnReconnect? && !e.ReconnectExpires?
    ensures Meets(s, Step(s, e), FateOf(s, e))
  {
    hide Pending, IdleBound, Meets, QueueMessage, StartVoice, StopVoice, SendVoiceData, IdleRuns, SaysStart;
    OneSaysStart([]);
    match e
    case CallSendKey(code, direction) => QueueMeets(s, Key(code, direction));
    case CallSendText(text) => QueueMeets(s, Text(text, s.session.imeCounter, s.session.imeFieldCounter));
    case CallLaunchApp(link) => QueueMeets(s, AppLink(link));
    case OnIdle(g) =>
      if g == s.link.generation { IdleIsWanted(s, g); }
      IdleMeets(s, g);
    case _ => VoiceMeets(s, e); hide Step;
  }

  predicate Intervenes(e: Event) {
    e.CallConnect? || e.CallDisconnect? || e.OnReconnect?
  }

  /**
   Whatever happens besides a connect or disconnect call and the reconnect timer,
   the stream lives on unless the event ends it; then a new attempt is scheduled if
   and only if the options ask for it and it was not the handshake that failed.
   */
  lemma StepMeetsItsFate(s: State, e: Event)
    requires Invariant(s) && Enabled(s, e) && !Intervenes(e) && !e.ReconnectExpires?
    ensures Meets(s, Step(s, e), FateOf(s, e))
  {
    hide Step, Meets, FateOf, Shape, Ledger, Aligned, Delays;
    if IsCompletion(e) {
      if e.gen == s.link.generation { LiveIsWanted(s, OpOf(e)); }
      CompletionMeetsItsFate(s, e);
    } else {
      OthersMeetTheirFate(s, e);
    }
  }

  lemma ExpiryChangesNoLink(s: State)
    requires Enabled(s, ReconnectExpires)
    ensures var t := Step(s, ReconnectExpires);
      t.link == s.link && t.delays == s.delays && t.options == s.options && ReconnectWaits(t) == ReconnectWaits(s)
  {
  }

  /**
   An attempt begins a new generation, with a stream if there is a TLS context or
   one can be loaded: connecting for the user, reconnecting for the timer.
   */
  lemma AttemptsConnect(s: State, e: Event)
    requires Enabled(s, e) && (e.CallConnect? || (e.OnReconnect? && !s.link.userDisconnect))
    ensures var opens := s.link.context.Some? || e.loads;
      var t := Step(s, e);
      && t.link.generation == s.link.generation + 1 && t.link.stream == opens && !t.link.userDisconnect
      && t.link.connection == (if !opens then Disconnected else if e.CallConnect? then Connecting else Reconnecting)
      && (e.CallConnect? ==> t.link.reconnectDelay == 100 && t.delays == [] && !t.timers.reconnectArmed)
      && (e.OnReconnect? ==>
          && t.link.reconnectDelay == s.link.reconnectDelay && t.delays == s.delays
          && t.timers.reconnectArmed == s.timers.reconnectArmed)
      && t.timers.reconnectFired == s.timers.reconnectFired - (if e.CallConnect? then 0 else 1)
      && t.options == s.options
  {
  }

  /** A disconnect call ends the generation and cancels every wait; the reconnect timer is then without effect. */
  lemma DisconnectsEnd(s: State, e: Event)
    requires Enabled(s, e) && (e.CallDisconnect? || (e.OnReconnect? && s.link.userDisconnect))
    ensures var t := Step(s, e);
      if e.CallDisconnect? then
        && t.link == s.link.(userDisconnect := true, connection := Disconnected, stream := false,
                             generation := s.link.generation + 1)
        && t.timers == s.timers.(reconnectArmed := false, idleArmed := None, voiceArmed := false)
        && t.delays == s.delays && t.options == s.options
      else
        t == s.(timers := s.timers.(reconnectFired := s.timers.reconnectFired - 1))
  {
  }

  /** The exact events that end a live stream. */
  lemma StreamEndsIff(s: State, e: Event)
    requires Invariant(s) && Enabled(s, e) && s.link.stream
    ensures Step(s, e).link.generation != s.link.generation <==> EndsStream(s, e) || Intervenes(e)
  {
    hide Step, Enabled, EndsStream, Shape, Ledger, Aligned, Delays, IdleBound;
    if e.CallDisconnect? {
      DisconnectsEnd(s, e);
    } else if Intervenes(e) {
      AttemptsConnect(s, e);
    } else if e.ReconnectExpires? {
      ExpiryEndsNothing(s, e);
    } else {
      StepMeetsItsFate(s, e);
    }
  }

  lemma ExpiryEndsNothing(s: State, e: Event)
    requires Enabled(s, e) && e.ReconnectExpires?
    ensures !EndsStream(s, e) && Step(s, e).link == s.link
  {
  }

  /**
   Of the streams that end without a call or the reconnect timer: a new attempt is
   scheduled, with one more delay and an armed wait, if and only if the options ask
   for it and it was not the handshake that failed. Otherwise the engine is
   disconnected, with delays and waits as they were.
   */
  lemma LossReconnectsIff(s: State, e: Event)
    requires Invariant(s) && Enabled(s, e) && !Intervenes(e)
    requires s.link.stream && Step(s, e).link.generation != s.link.generation
    ensures var t := Step(s, e);
      && !t.link.stream
      && (t.link.connection == Reconnecting <==> s.options.autoReconnect && !e.OnHandshake?)
      && (t.link.connection == Reconnecting ==>
          && t.delays == s.delays + [s.link.reconnectDelay] && t.timers.reconnectArmed
          && t.link.reconnectDelay == Min(2 * s.link.reconnectDelay, 30000))
      && (t.link.connection != Reconnecting ==>
          && t.link.connection == Disconnected && t.delays == s.delays
          && t.link.reconnectDelay == s.link.reconnectDelay && ReconnectWaits(t) == ReconnectWaits(s))
  {
    hide Step, Enabled, EndsStream, Invariant;
    if e.ReconnectExpires? {
      ExpiryEndsNothing(s, e);
    } else {
      StepMeetsItsFate(s, e);
    }
  }

  // ------------------------------------------------------------ without reconnecting

  /** What keeps an engine that must not reconnect from doing so. */
  predicate NeverAgain(s: State) {
    !s.options.autoReconnect && s.link.connection != Reconnecting && ReconnectWaits(s) == 0
  }

  lemma StepNeverReconnects(s: State, e: Event)
    requires Invariant(s) && Enabled(s, e) && NeverAgain(s)
    ensures NeverAgain(Step(s, e))
  {
    hide Step, EndsStream, Invariant, SaysStart, HandledBy;
    if e.CallDisconnect? {
      DisconnectsEnd(s, e);
    } else if Intervenes(e) {
      AttemptsConnect(s, e);
    } else {
      StepMeetsItsFate(s, e);
    }
  }

  lemma {:induction false} RunNeverReconnects(s: State, events: seq<Event>)
    requires Invariant(s) && NeverAgain(s) && Possible(s, events)
    ensures NeverAgain(Run(s, events))
    decreases |events|
  {
    hide Step, Enabled, Invariant, NeverAgain;
    if events != [] {
      StepNeverReconnects(s, events[0]);
      StepKeepsInvariant(s, events[0]);
      RunNeverReconnects(Step(s, events[0]), events[1..]);
    }
  }

  /** With the option off no run ever reconnects or waits to. */
  lemma OptionOffNeverReconnects(options: Options, events: seq<Event>)
    requires Possible(Initial(options), events) && !options.autoReconnect
    ensures After(options, events).link.connection != Reconnecting
    ensures ReconnectWaits(After(options, events)) == 0
  {
    InitialInvariant(options);
    RunNeverReconnects(Initial(options), events);
    hide Invariant;
  }

  // ------------------------------------------------------------ the backoff

  /** How many losses in a row: none after a connect call or a handshake, one more for each new attempt scheduled. */
  function InARow(n: nat, s: State, e: Event): nat {
    if e.CallConnect? || (e.OnHandshake? && e.ok && e.gen == s.link.generation) then 0
    else if EndsStream(s, e) && s.options.autoReconnect && !e.OnHandshake? then n + 1
    else n
  }

  /** The losses in a row at the end of a run. */
  function Losses(n: nat, s: State, events: seq<Event>): nat
    requires Possible(s, events)
    decreases |events|
  {
    if events == [] then n else Losses(InARow(n, s, events[0]), Step(s, events[0]), events[1..])
  }

  lemma StepCountsLosses(s: State, e: Event)
    requires Invariant(s) && Enabled(s, e)
    ensures |Step(s, e).delays| == InARow(|s.delays|, s, e)
  {
    hide Step, Enabled, EndsStream, Invariant, SaysStart, HandledBy;
    if e.CallDisconnect? || (e.OnReconnect? && s.link.userDisconnect) {
      DisconnectsEnd(s, e);
      AttemptsEndNothing(s, e);
    } else if Intervenes(e) {
      AttemptsConnect(s, e);
      AttemptsEndNothing(s, e);
    } else if e.ReconnectExpires? {
      ExpiryEndsNothing(s, e);
      ExpiryChangesNoLink(s);
    } else {
      StepMeetsItsFate(s, e);
      HandshakeEndsIff(s, e);
    }
  }

  lemma AttemptsEndNothing(s: State, e: Event)
    requires Intervenes(e)
    ensures !EndsStream(s, e)
  {
  }

  lemma HandshakeEndsIff(s: State, e: Event)
    ensures e.OnHandshake? ==> (EndsStream(s, e) <==> e.gen == s.link.generation && !e.ok)
  {
  }

  lemma {:induction false} RunCountsLosses(s: State, events: seq<Event>)
    requires Invariant(s) && Possible(s, events)
    ensures |Run(s, events).delays| == Losses(|s.delays|, s, events)
    decreases |events|
  {
    hide Step, Enabled, Invariant, InARow;
    if events != [] {
      StepCountsLosses(s, events[0]);
      StepKeepsInvariant(s, events[0]);
      RunCountsLosses(Step(s, events[0]), events[1..]);
    }
  }

  /**
   After any run with k losses since the last connect call or handshake the next
   delay is min(100 * 2^k, 30000) ms, and the waits scheduled for them add up to
   100 (2^k - 1) ms for k up to nine, then 30 s more each.
   */
  lemma BackoffOfLosses(options: Options, events: seq<Event>)
    requires Possible(Initial(options), events)
    ensures var k := Losses(0, Initial(options), events);
      var s := After(options, events);
      && |s.delays| == k && (forall i | 0 <= i < k :: s.delays[i] == Min(100 * Pow2(i), 30000))
      && s.link.reconnectDelay == Min(100 * Pow2(k), 30000)
      && Total(s.delays) == if k <= 9 then 100 * (Pow2(k) - 1) else 51100 + 30000 * (k - 9)
  {
    InitialInvariant(options);
    RunCountsLosses(Initial(options), events);
    DelayIsBackoff(options, events);
    AfterIsInvariant(options, events);
    hide Pending, Shape, Ledger, Aligned, IdleBound, Losses, Total, Run;
  }

  // ------------------------------------------------------------ connected

  /** Connected means a live stream on which a start message has been handled. */
  predicate ConnectedRight(s: State) {
    s.link.connection == Connected <==> s.link.stream && SaysStart(s.log.handled)
  }

  lemma SaysStartOfBoth(a: seq<seq<Byte>>, b: seq<seq<Byte>>)
    ensures SaysStart(a + b) <==> SaysStart(a) || SaysStart(b)
  {
    hide Parsed;
    assert forall m :: m in a + b <==> m in a || m in b;
  }

  lemma NoStreamNoMessage(s: State, e: Event)
    requires Pending(s) && Enabled(s, e) && !s.link.stream
    ensures HandledBy(s, e) == []
  {
    hide EmptyFrame;
    if IsCompletion(e) {
      NoStreamNoCompletion(s, e);
    }
  }

  /** Beside the handled messages of a generation, what a step does to their history. */
  lemma HandledFollows(s: State, e: Event)
    requires Pending(s) && Shape(s) && Enabled(s, e)
    ensures var t := Step(s, e);
      if t.link.generation == s.link.generation then t.log.handled == s.log.handled + HandledBy(s, e)
      else t.log.handled == []
  {
    StepGrows(s, e);
    hide Step, QueuedBy, HandledBy, SessionAfter, Learned, Parsed, Pending, Shape;
  }

  lemma StepKeepsConnected(s: State, e: Event)
    requires Invariant(s) && Enabled(s, e) && ConnectedRight(s)
    ensures ConnectedRight(Step(s, e))
  {
    hide Step, EndsStream, Shape, Ledger, Aligned, Delays, IdleBound, Pending, SaysStart, HandledBy, EmptyFrame;
    HandledFollows(s, e);
    OneSaysStart([]);
    SaysStartOfBoth(s.log.handled, HandledBy(s, e));
    if e.CallDisconnect? {
      DisconnectsEnd(s, e);
    } else if e.OnReconnect? && s.link.userDisconnect {
      DisconnectsEnd(s, e);
    } else if Intervenes(e) {
      AttemptsConnect(s, e);
    } else if e.ReconnectExpires? {
      ExpiryChangesNoLink(s);
      ExpiryBringsNothing(s, e);
    } else {
      StepMeetsItsFate(s, e);
      HandshakeBringsNothing(s, e);
      if !s.link.stream {
        NoStreamNoMessage(s, e);
      }
    }
  }

  lemma ExpiryBringsNothing(s: State, e: Event)
    requires e.ReconnectExpires?
    ensures HandledBy(s, e) == []
  {
  }

  lemma HandshakeBringsNothing(s: State, e: Event)
    ensures e.OnHandshake? ==> HandledBy(s, e) == []
  {
  }

  lemma {:induction false} RunKeepsConnected(s: State, events: seq<Event>)
    requires Invariant(s) && ConnectedRight(s) && Possible(s, events)
    ensures ConnectedRight(Run(s, events))
    decreases |events|
  {
    hide Step, Enabled, Invariant, ConnectedRight;
    if events != [] {
      StepKeepsConnected(s, events[0]);
      StepKeepsInvariant(s, events[0]);
      RunKeepsConnected(Step(s, events[0]), events[1..]);
    }
  }

  lemma ConnectedRightAfter(options: Options, events: seq<Event>)
    requires Possible(Initial(options), events)
    ensures ConnectedRight(After(options, events))
  {
    InitialInvariant(options);
    RunKeepsConnected(Initial(options), events);
    hide Invariant, Run;
  }

  /**
   After any run the engine is connected if and only if there is a live stream and
   a start message, whatever its flag, is among the whole frames received on it.
   */
  lemma ConnectedIff(options: Options, events: seq<Event>)
    requires Possible(Initial(options), events)
    ensures var s := After(options, events);
      s.link.connection == Connected <==>
        s.link.stream && exists m :: m in Deframe(s.log.received, 0x40_0000).frames && Parsed(m).Start?
  {
    ConnectedRightAfter(options, events);
    ReceivedIsHandled(options, events);
    CurrentIsALog(After(options, events));
    hide Invariant, Run, Deframe, Parsed, Logs;
  }
}
