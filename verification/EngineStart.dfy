/**
 What the connection engine does before a handshake is over: whether it
 connects with the client's identity, and whether it already writes.
 */
module EngineStart {
  import opened Wrappers
  import opened Ints
  import opened Varint
  import opened Framing
  import opened Messages
  import opened Voice
  import opened Engine
  import opened EngineSafety
  import opened EngineShape
  import opened EngineLedger
  import opened EngineReader
  import opened EngineTimers
  import opened EngineRuns

  // ------------------------------------------------------------ the identity

  /** The step attempts to connect. */
  predicate Attempts(s: State, e: Event) {
    e.CallConnect? || (e.OnReconnect? && !s.link.userDisconnect)
  }

  /** The TLS context is the same, and no stream has been opened. */
  predicate OpensNothing(s: State, t: State) {
    t.link.context == s.link.context && (t.link.stream ==> s.link.stream)
  }

  lemma LengthByteOpensNothing(s: State, g: nat, b: Byte)
    ensures OpensNothing(s, LengthByte(s, g, b))
  {
    var t := s.(inbox := s.inbox.(length := Accumulate(s.inbox.length, b, s.inbox.shift)));
    HandleMessageFrame(t.(inbox := t.inbox.(bodySize := t.inbox.length)), []);
    hide Accumulate, HandleMessage;
  }

  lemma LossOpensNothing(s: State, g: nat)
    ensures OpensNothing(s, ConnectionFailed(s, g)) && OpensNothing(s, AuthenticationFailed(s, g))
  {
  }

  lemma ResolvedOpensNothing(s: State, g: nat, ok: bool)
    ensures OpensNothing(s, Resolved(s, g, ok))
  {
    hide ConnectionFailed;
    LossOpensNothing(Take(s, Resolve(g)), g);
  }

  lemma TcpConnectedOpensNothing(s: State, g: nat, ok: bool)
    ensures OpensNothing(s, TcpConnected(s, g, ok))
  {
    hide ConnectionFailed;
    LossOpensNothing(Take(s, Connect(g)), g);
  }

  lemma HandshakenOpensNothing(s: State, g: nat, ok: bool)
    ensures OpensNothing(s, Handshaken(s, g, ok))
  {
    hide AuthenticationFailed;
    LossOpensNothing(Take(s, Handshake(g)), g);
  }

  lemma LengthByteReadOpensNothing(s: State, g: nat, input: Option<Byte>)
    ensures OpensNothing(s, LengthByteRead(s, g, input))
  {
    hide ConnectionFailed, LengthByte;
    LossOpensNothing(Take(s, ReadLength(g)), g);
    if input.Some? {
      LengthByteOpensNothing(Received(Take(s, ReadLength(g)), [input.value]), g, input.value);
    }
  }

  lemma BodyReadOpensNothing(s: State, g: nat, input: Option<seq<Byte>>)
    ensures OpensNothing(s, BodyRead(s, g, input))
  {
    hide ConnectionFailed, HandleMessage;
    LossOpensNothing(Take(s, ReadBody(g)), g);
    if input.Some? {
      HandleMessageFrame(ResetIdleTimer(Received(Take(s, ReadBody(g)), input.value)), input.value);
    }
  }

  lemma WrittenOpensNothing(s: State, g: nat, ok: bool)
    ensures OpensNothing(s, Written(s, g, ok))
  {
    hide ConnectionFailed;
    LossOpensNothing(Take(s, Write(g)).(outbox := s.outbox.(busy := false)), g);
  }

  lemma CallOpensNothing(s: State, e: Event)
    requires Enabled(s, e) && !IsCompletion(e) && !Attempts(s, e)
    ensures OpensNothing(s, Step(s, e))
  {
    hide QueueMessage, QueuePayloads, Chunks;
  }

  lemma OnlyAttemptsOpen(s: State, e: Event)
    requires Enabled(s, e) && !Attempts(s, e)
    ensures OpensNothing(s, Step(s, e))
  {
    hide OpensNothing, Resolved, TcpConnected, Handshaken, LengthByteRead, BodyRead, Written;
    match e
    case OnResolved(g, ok) => ResolvedOpensNothing(s, g, ok);
    case OnConnected(g, ok) => TcpConnectedOpensNothing(s, g, ok);
    case OnHandshake(g, ok) => HandshakenOpensNothing(s, g, ok);
    case OnLengthByte(g, input) => LengthByteReadOpensNothing(s, g, input);
    case OnBody(g, input) => BodyReadOpensNothing(s, g, input);
    case OnWritten(g, ok) => WrittenOpensNothing(s, g, ok);
    case _ => CallOpensNothing(s, e); hide Step;
  }

  /** Only the first attempt makes the TLS context and loads it; all later ones open a stream with it. */
  lemma AttemptUsesContext(s: State, e: Event)
    requires Enabled(s, e) && Attempts(s, e)
    ensures Step(s, e).link.context == if s.link.context.Some? then s.link.context else Some(e.loads)
    ensures Step(s, e).link.stream <==> s.link.context.Some? || e.loads
  {
  }

  /** Whether the first connect call of a run could load the identity. */
  function FirstLoad(events: seq<Event>): Option<bool> {
    if events == [] then None
    else if events[0].CallConnect? then Some(events[0].loads)
    else FirstLoad(events[1..])
  }

  /** Before the first connect call nothing is on its way. */
  predicate Untried(s: State) {
    s.link.context.None? ==> s.link.userDisconnect && ReconnectWaits(s) == 0
  }

  lemma CompletionKeepsUntried(s: State, e: Event)
    requires Invariant(s) && Untried(s) && s.link.context.None? && Enabled(s, e)
    requires IsCompletion(e)
    ensures Untried(Step(s, e))
  {
    NoStreamNoCompletion(s, e);
    StaleCompletionIsIgnored(s, e);
    hide Step;
  }

  lemma StepKeepsUntried(s: State, e: Event)
    requires Invariant(s) && Untried(s) && Enabled(s, e)
    ensures Untried(Step(s, e))
  {
    if s.link.context.None? && !e.CallConnect? {
      hide QueueMessage, QueuePayloads, Chunks, Ledger, Aligned, Delays;
      match e
      case OnResolved(_, _) => CompletionKeepsUntried(s, e);
      case OnConnected(_, _) => CompletionKeepsUntried(s, e);
      case OnHandshake(_, _) => CompletionKeepsUntried(s, e);
      case OnLengthByte(_, _) => CompletionKeepsUntried(s, e);
      case OnBody(_, _) => CompletionKeepsUntried(s, e);
      case OnWritten(_, _) => CompletionKeepsUntried(s, e);
      case _ =>
    } else {
      ContextStays(s, e);
      hide Step;
    }
  }

  lemma ContextStays(s: State, e: Event)
    requires Enabled(s, e)
    ensures Step(s, e).link.context ==
      if s.link.context.None? && Attempts(s, e) then Some(e.loads) else s.link.context
  {
    if Attempts(s, e) {
      AttemptUsesContext(s, e);
    } else {
      OnlyAttemptsOpen(s, e);
    }
    hide Step;
  }

  lemma {:induction false} ContextAfter(s: State, events: seq<Event>)
    requires Invariant(s) && Untried(s) && Possible(s, events)
    ensures Run(s, events).link.context == if s.link.context.Some? then s.link.context else FirstLoad(events)
    decreases |events|
  {
    hide Step, Enabled, Invariant;
    if events != [] {
      StepKeepsUntried(s, events[0]);
      StepKeepsInvariant(s, events[0]);
      ContextStays(s, events[0]);
      assert s.link.context.None? && events[0].OnReconnect? ==> s.link.userDisconnect;
      ContextAfter(Step(s, events[0]), events[1..]);
    }
  }

  /** The identity every stream of a run has, or lacks, is settled by the first connect call. */
  lemma IdentityIsSettledAtOnce(options: Options, events: seq<Event>)
    requires Possible(Initial(options), events)
    ensures After(options, events).link.context == FirstLoad(events)
  {
    InitialInvariant(options);
    ContextAfter(Initial(options), events);
    hide Invariant, Possible;
  }

  /** A live stream presents the client's identity. */
  predicate Identified(s: State) {
    s.link.stream ==> s.link.context == Some(true)
  }

  /** An attempt after the one that failed to load the identity. */
  predicate TriesAgain(s: State, e: Event) {
    Attempts(s, e) && s.link.context == Some(false)
  }

  lemma IdentifiedUnlessTriedAgain(s: State, e: Event)
    requires Invariant(s) && Identified(s) && Enabled(s, e)
    ensures Identified(Step(s, e)) <==> !TriesAgain(s, e)
  {
    hide Step, Invariant;
    if Attempts(s, e) {
      AttemptUsesContext(s, e);
      match s.link.context {
        case None =>
        case Some(identity) =>
          assert Step(s, e).link.context == Some(identity);
          assert TriesAgain(s, e) <==> !identity;
      }
    } else {
      OnlyAttemptsOpen(s, e);
    }
  }

  /**
   Every live stream presents the client's identity throughout a run if and
   only if nothing tries to connect again after the identity failed to load.
   */
  lemma IdentifiedIffNeverTriedAgain(options: Options, events: seq<Event>)
    requires Possible(Initial(options), events)
    ensures var s := Initial(options);
      (forall i | 0 <= i <= |events| :: Identified(StateAt(s, events, i))) <==>
      (forall i | 0 <= i < |events| :: !TriesAgain(StateAt(s, events, i), events[i]))
  {
    InitialInvariant(options);
    forall t, e | Invariant(t) && Identified(t) && Enabled(t, e) ensures Identified(Step(t, e)) <==> !TriesAgain(t, e) {
      IdentifiedUnlessTriedAgain(t, e);
    }
    hide Invariant, Enabled, Step, TriesAgain, StateAt;
    HoldsIffNeverBroken(t => Identified(t), (t, e) => TriesAgain(t, e), Initial(options), events);
  }

  /** It does happen: connect twice while the files cannot be read, and the second call opens a stream. */
  lemma SecondConnectNeedsNoIdentity(options: Options)
    ensures var events := [CallConnect(false), CallConnect(false)];
      && Possible(Initial(options), events)
      && After(options, events).link.stream && !Identified(After(options, events))
  {
    var s0 := Initial(options);
    var s1 := Step(s0, CallConnect(false));
    var s2 := Step(s1, CallConnect(false));
    assert s1.link.context == Some(false);
    assert s2.link.stream && s2.link.context == Some(false);
    hide Step;
    TwoSteps(s0, CallConnect(false), CallConnect(false));
  }

  lemma TwoSteps(s: State, a: Event, b: Event)
    requires Enabled(s, a) && Enabled(Step(s, a), b)
    ensures Possible(s, [a, b]) && Run(s, [a, b]) == Step(Step(s, a), b)
  {
    hide Step, Enabled;
    var t := Step(Step(s, a), b);
    assert Possible(t, []) && Run(t, []) == t;
    assert [b][1..] == [] && [a, b][1..] == [b];
    assert Possible(Step(s, a), [b]) && Run(Step(s, a), [b]) == t;
  }

  // ------------------------------------------------------------ early writes

  /** Nothing is written before the handshake is over. */
  predicate Orderly(s: State) {
    s.outbox.queue == [] || Reading(s)
  }

  /** A command while a stream is being connected: `queueMessage` takes it. */
  predicate TooEarly(s: State, e: Event) {
    (e.CallSendKey? || e.CallSendText? || e.CallLaunchApp?) && s.link.stream && !Reading(s)
  }

  lemma CommandsAreOrderly(s: State, e: Event)
    requires Invariant(s) && Orderly(s) && Enabled(s, e)
    requires e.CallSendKey? || e.CallSendText? || e.CallLaunchApp?
    ensures Orderly(Step(s, e)) <==> !TooEarly(s, e)
  {
    var o: Message := match e
      case CallSendKey(code, direction) => Key(code, direction)
      case CallSendText(text) => Text(text, s.session.imeCounter, s.session.imeFieldCounter)
      case CallLaunchApp(link) => AppLink(link);
    assert Step(s, e) == QueueMessage(s, o);
    QueueMessageShape(s, o, Reading(s));
    hide Step, QueueMessage, Encode, Frame, Ledger, Aligned, Delays, IdleBound;
  }

  /** Voice needs a connection, and a connection a handshake. */
  lemma VoiceIsOrderly(s: State, e: Event)
    requires Pending(s) && Shape(s) && Orderly(s) && Enabled(s, e)
    requires e.CallStartVoice? || e.CallStopVoice? || e.CallSendVoiceData?
    ensures Orderly(Step(s, e))
  {
    hide Step;
    StepKeepsShape(s, e);
    if s.link.connection != Connected {
      VoiceDoesNothing(s, e);
    } else {
      VoiceKeepsConnection(s, e);
    }
  }

  lemma VoiceDoesNothing(s: State, e: Event)
    requires Shape(s) && Enabled(s, e) && s.link.connection != Connected
    requires e.CallStartVoice? || e.CallStopVoice? || e.CallSendVoiceData?
    ensures Step(s, e).outbox == s.outbox && Step(s, e).ops == s.ops && Step(s, e).link == s.link
  {
    hide QueueMessage, QueuePayloads, Chunks;
  }

  lemma VoiceKeepsConnection(s: State, e: Event)
    requires Enabled(s, e) && (e.CallStartVoice? || e.CallStopVoice? || e.CallSendVoiceData?)
    ensures Step(s, e).link == s.link
  {
    hide QueueMessage, QueuePayloads, Chunks;
  }

  lemma LengthByteIsOrderly(s: State, b: Byte)
    requires s.link.stream
    ensures Orderly(LengthByte(s, s.link.generation, b))
  {
    var t := s.(inbox := s.inbox.(length := Accumulate(s.inbox.length, b, s.inbox.shift)));
    HandleMessageFrame(t.(inbox := t.inbox.(bodySize := t.inbox.length)), []);
    hide Accumulate, HandleMessage;
  }

  lemma LossIsOrderly(s: State, g: nat)
    requires g == s.link.generation && !s.link.userDisconnect
    ensures Orderly(ConnectionFailed(s, g))
  {
  }

  lemma LengthByteReadIsOrderly(s: State, g: nat, input: Option<Byte>)
    requires g == s.link.generation && s.link.stream && !s.link.userDisconnect
    ensures Orderly(LengthByteRead(s, g, input))
  {
    hide LengthByte, ConnectionFailed, Orderly;
    LossIsOrderly(Take(s, ReadLength(g)), g);
    if input.Some? {
      LengthByteIsOrderly(Received(Take(s, ReadLength(g)), [input.value]), input.value);
    }
  }

  lemma BodyReadIsOrderly(s: State, g: nat, input: Option<seq<Byte>>)
    requires g == s.link.generation && s.link.stream && !s.link.userDisconnect
    ensures Orderly(BodyRead(s, g, input))
  {
    hide HandleMessage, ConnectionFailed;
    LossIsOrderly(Take(s, ReadBody(g)), g);
    if input.Some? {
      HandleMessageFrame(ResetIdleTimer(Received(Take(s, ReadBody(g)), input.value)), input.value);
    }
  }

  lemma StaleIsOrderly(s: State, e: Event)
    requires Orderly(s) && Enabled(s, e)
    requires IsCompletion(e)
    requires e.gen != s.link.generation
    ensures Orderly(Step(s, e))
  {
    StaleCompletionIsIgnored(s, e);
    hide Step;
  }

  /** Until the handshake is over the queue is empty; then it stays so or the reader starts. */
  lemma ConnectsAreOrderly(s: State, e: Event)
    requires Pending(s) && Orderly(s) && Enabled(s, e)
    requires e.OnResolved? || e.OnConnected? || e.OnHandshake?
    requires e.gen == s.link.generation
    ensures Orderly(Step(s, e))
  {
    CurrentMeansLive(s, OpOf(e));
    assert !Reading(s);
    assert s.outbox.queue == [];
    hide Pending;
  }

  lemma WriteIsOrderly(s: State, g: nat, ok: bool)
    requires Orderly(s) && g == s.link.generation
    ensures Orderly(Written(s, g, ok))
  {
  }

  lemma CompletionsAreOrderly(s: State, e: Event)
    requires Pending(s) && Orderly(s) && Enabled(s, e) && IsCompletion(e)
    ensures Orderly(Step(s, e))
  {
    hide Orderly, Pending, Written, LengthByteRead, BodyRead;
    if e.gen != s.link.generation {
      StaleIsOrderly(s, e);
    } else {
      LiveIsWanted(s, OpOf(e));
      if e.OnWritten? {
        WriteIsOrderly(s, e.gen, e.ok);
      } else if e.OnLengthByte? {
        LengthByteReadIsOrderly(s, e.gen, e.byte);
      } else if e.OnBody? {
        BodyReadIsOrderly(s, e.gen, e.body);
      } else {
        ConnectsAreOrderly(s, e);
        hide Step;
      }
    }
  }

  lemma LiveIsWanted(s: State, op: Op)
    requires Pending(s) && op in s.ops && op.gen == s.link.generation
    ensures s.link.stream && !s.link.userDisconnect
  {
    CurrentMeansLive(s, op);
  }

  lemma OrderlyUnlessTooEarly(s: State, e: Event)
    requires Invariant(s) && Orderly(s) && Enabled(s, e)
    ensures Orderly(Step(s, e)) <==> !TooEarly(s, e)
  {
    hide Ledger, Aligned, Delays, IdleBound, Shape, Pending, Orderly, Step;
    if e.CallSendKey? || e.CallSendText? || e.CallLaunchApp? {
      CommandsAreOrderly(s, e);
    } else if e.CallStartVoice? || e.CallStopVoice? || e.CallSendVoiceData? {
      VoiceIsOrderly(s, e);
    } else if IsCompletion(e) {
      CompletionsAreOrderly(s, e);
    } else {
      ConnectCallsAreOrderly(s, e);
    }
  }

  lemma ConnectCallsAreOrderly(s: State, e: Event)
    requires Invariant(s) && Orderly(s) && Enabled(s, e)
    requires e.CallConnect? || e.CallDisconnect? || e.OnReconnect? || e.OnIdle?
      || e.ReconnectExpires? || e.IdleExpires? || e.VoiceExpires? || e.OnVoiceTimer?
    ensures Orderly(Step(s, e))
  {
    hide Ledger, Aligned, Delays, IdleBound, Shape, Pending;
  }

  /**
   Nothing is written before the handshake throughout a run if and only if no
   key, text or link is sent while a connection is being made.
   */
  lemma OrderlyIffNeverTooEarly(options: Options, events: seq<Event>)
    requires Possible(Initial(options), events)
    ensures var s := Initial(options);
      (forall i | 0 <= i <= |events| :: Orderly(StateAt(s, events, i))) <==>
      (forall i | 0 <= i < |events| :: !TooEarly(StateAt(s, events, i), events[i]))
  {
    InitialInvariant(options);
    forall t, e | Invariant(t) && Orderly(t) && Enabled(t, e) ensures Orderly(Step(t, e)) <==> !TooEarly(t, e) {
      OrderlyUnlessTooEarly(t, e);
    }
    hide Invariant, Enabled, Step, TooEarly, StateAt, Reading;
    HoldsIffNeverBroken(t => Orderly(t), (t, e) => TooEarly(t, e), Initial(options), events);
  }

  /** It does happen: a key sent right after the connect call is being written while the host is being resolved. */
  lemma WriteBeforeHandshake(options: Options, code: I32, direction: Direction)
    ensures var events := [CallConnect(true), CallSendKey(code, direction)];
      && Possible(Initial(options), events)
      && Write(1) in After(options, events).ops && Resolve(1) in After(options, events).ops
  {
    var s0 := Initial(options);
    var s1 := Step(s0, CallConnect(true));
    assert s1.link.stream && s1.link.generation == 1 && !s1.outbox.busy && Resolve(1) in s1.ops;
    hide Encode, Frame;
    var s2 := Step(s1, CallSendKey(code, direction));
    assert Write(1) in s2.ops && Resolve(1) in s2.ops;
    hide Step;
    TwoSteps(s0, CallConnect(true), CallSendKey(code, direction));
  }
}
