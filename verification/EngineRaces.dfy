/**
 The races of the reconnect and voice timers: a wait that has expired is out of
 reach of `cancel`, and their handlers cannot tell which wait they belong to. What
 that does, and exactly when it does not. (`EngineIdle` is about the idle timer.)
 */
module EngineRaces {
  import opened Wrappers
  import opened Ints
  import opened Varint
  import opened Wire
  import opened Framing
  import opened Messages
  import opened PeerMessages
  import opened Voice
  import opened Engine
  import opened EngineSafety
  import opened EngineShape
  import opened EngineLedger
  import opened EngineReader
  import opened EngineTimers
  import opened EngineRuns

  // ------------------------------------------------------------ the three shapes

  /**
   The reconnect waits are exactly as many as the shape calls for throughout a
   run if and only if no call overtakes an expired one.
   */
  lemma ExactIffNeverOvertaken(options: Options, events: seq<Event>)
    requires Possible(Initial(options), events)
    ensures var s := Initial(options);
      (forall i | 0 <= i <= |events| :: Exact(StateAt(s, events, i))) <==>
      (forall i | 0 <= i < |events| :: !Overtakes(StateAt(s, events, i), events[i]))
  {
    InitialInvariant(options);
    forall t, e | Invariant(t) && Exact(t) && Enabled(t, e) ensures Exact(Step(t, e)) <==> !Overtakes(t, e) {
      ExactOfInvariant(t, e);
    }
    hide Invariant, Enabled, Step, Exact, Overtakes, Initial, StateAt;
    HoldsIffNeverBroken(t => Exact(t), (t, e) => Overtakes(t, e), Initial(options), events);
  }

  lemma ExactOfInvariant(s: State, e: Event)
    requires Invariant(s) && Exact(s) && Enabled(s, e)
    ensures Exact(Step(s, e)) <==> !Overtakes(s, e)
  {
    ExactUnlessOvertaken(s, e);
    hide Step;
  }

  // ------------------------------------------------------------ the reconnect timer

  /** No reconnect wait is left to replace a live stream. */
  predicate Spared(s: State) {
    s.link.stream ==> ReconnectWaits(s) == 0
  }

  /** Nor will two be left when there is a stream again: what every step keeps of it. */
  predicate SparedForGood(s: State) {
    Spared(s) && ReconnectWaits(s) <= 1
  }

  /** The user's connect call opens a stream while a reconnect wait has expired and its handler has not run. */
  predicate ConnectsTooSoon(s: State, e: Event) {
    e.CallConnect? && s.timers.reconnectFired > 0 && (s.link.context.Some? || e.loads)
  }

  lemma ConnectsSpare(s: State, e: Event)
    requires SparedForGood(s) && Enabled(s, e) && (s.link.userDisconnect ==> !s.link.stream)
    requires e.CallConnect? || e.CallDisconnect? || e.OnReconnect? || e.ReconnectExpires?
    ensures SparedForGood(Step(s, e)) <==> !ConnectsTooSoon(s, e)
  {
  }

  lemma SparedUnlessTooSoon(s: State, e: Event)
    requires Pending(s) && Shape(s) && IdleBound(s) && SparedForGood(s) && Enabled(s, e)
    ensures SparedForGood(Step(s, e)) <==> !ConnectsTooSoon(s, e)
  {
    assert s.link.userDisconnect ==> !s.link.stream;
    hide Step, IdleRuns, Shape, IdleBound, Enabled, Pending;
    if e.CallConnect? || e.CallDisconnect? || e.OnReconnect? || e.ReconnectExpires? {
      ConnectsSpare(s, e);
    } else {
      OthersMoveWaits(s, e);
    }
  }

  /** In any state such a call leaves a wait behind the stream it opens. */
  lemma TooSoonThreatens(s: State, e: Event)
    requires Enabled(s, e) && ConnectsTooSoon(s, e)
    ensures !Spared(Step(s, e))
  {
  }

  /** A wait that expired before a stream was opened replaces it as soon as its handler runs. */
  lemma ExpiredWaitReplacesTheStream(s: State, loads: bool)
    requires Pending(s) && s.link.stream && s.timers.reconnectFired > 0
    ensures Enabled(s, OnReconnect(loads))
    ensures Step(s, OnReconnect(loads)).link.generation == s.link.generation + 1
    ensures Step(s, OnReconnect(loads)).outbox.queue == []
  {
  }

  /** Then no reconnect handler ever finds a stream to replace. */
  lemma SparedStreamsAreNotReplaced(s: State, e: Event)
    requires Spared(s) && Enabled(s, e) && e.OnReconnect?
    ensures !s.link.stream
  {
  }

  /**
   Throughout a run no live stream has a reconnect wait that would replace it, if
   and only if no connect call opens a stream while a wait has expired and its
   handler has not run.
   */
  lemma SparedIffNeverTooSoon(options: Options, events: seq<Event>)
    requires Possible(Initial(options), events)
    ensures var s := Initial(options);
      (forall i | 0 <= i <= |events| :: Spared(StateAt(s, events, i))) <==>
      (forall i | 0 <= i < |events| :: !ConnectsTooSoon(StateAt(s, events, i), events[i]))
  {
    hide Spared, SparedForGood, ConnectsTooSoon, StateAt, Initial, Step, Enabled;
    var s := Initial(options);
    SparedForGoodIff(options, events);
    forall i | 0 <= i <= |events| && SparedForGood(StateAt(s, events, i)) ensures Spared(StateAt(s, events, i)) {
      ForGoodIsSpared(StateAt(s, events, i));
    }
    if forall i | 0 <= i <= |events| :: Spared(StateAt(s, events, i)) {
      forall i | 0 <= i < |events| ensures !ConnectsTooSoon(StateAt(s, events, i), events[i]) {
        NextIsEnabled(s, events, i);
        if ConnectsTooSoon(StateAt(s, events, i), events[i]) {
          TooSoonThreatens(StateAt(s, events, i), events[i]);
        }
      }
    }
  }

  lemma ForGoodIsSpared(s: State)
    requires SparedForGood(s)
    ensures Spared(s)
  {
  }

  lemma SparedForGoodIff(options: Options, events: seq<Event>)
    requires Possible(Initial(options), events)
    ensures var s := Initial(options);
      (forall i | 0 <= i <= |events| :: SparedForGood(StateAt(s, events, i))) <==>
      (forall i | 0 <= i < |events| :: !ConnectsTooSoon(StateAt(s, events, i), events[i]))
  {
    InitialInvariant(options);
    forall t, e | Invariant(t) && SparedForGood(t) && Enabled(t, e)
      ensures SparedForGood(Step(t, e)) <==> !ConnectsTooSoon(t, e)
    {
      SparedUnlessTooSoon(t, e);
    }
    hide Invariant, Enabled, Step, ConnectsTooSoon, StateAt;
    HoldsIffNeverBroken(t => SparedForGood(t), (t, e) => ConnectsTooSoon(t, e), Initial(options), events);
  }

  /** So without such a call no stream of the run is thrown away by a reconnect handler. */
  lemma NoStreamIsReplaced(options: Options, events: seq<Event>, i: nat)
    requires Possible(Initial(options), events) && i < |events| && events[i].OnReconnect?
    requires forall i | 0 <= i < |events| :: !ConnectsTooSoon(StateAt(Initial(options), events, i), events[i])
    ensures !StateAt(Initial(options), events, i).link.stream
  {
    hide Spared, ConnectsTooSoon, Initial, StateAt, Step, Enabled;
    SparedIffNeverTooSoon(options, events);
    NextIsEnabled(Initial(options), events, i);
    SparedStreamsAreNotReplaced(StateAt(Initial(options), events, i), events[i]);
  }

  /** Every event of a run is enabled in the state it happens in, and leads to the next. */
  lemma NextIsEnabled(s: State, events: seq<Event>, i: nat)
    requires i < |events| && Possible(s, events)
    ensures Enabled(StateAt(s, events, i), events[i])
    ensures StateAt(s, events, i + 1) == Step(StateAt(s, events, i), events[i])
  {
    hide Step, Enabled;
    RunInParts(s, events, i);
    assert events[i..][0] == events[i];
    RunInParts(s, events, i + 1);
    OneStepMore(s, events[..i], events[i]);
    assert events[..i] + [events[i]] == events[..i + 1];
  }

  /**
   It does happen: a reconnect wait expires, the user connects before its
   handler runs, and the handler then throws the user's live stream away.
   */
  lemma ReconnectCanReplaceALiveStream(options: Options)
    requires options.autoReconnect
    ensures var events :=
        [CallConnect(true), OnResolved(1, false), ReconnectExpires, CallConnect(true), OnReconnect(true)];
      && Possible(Initial(options), events)
      && StateAt(Initial(options), events, 4).link.stream
      && StateAt(Initial(options), events, 4).link.connection == Connecting
      && StateAt(Initial(options), events, 5).link.generation > StateAt(Initial(options), events, 4).link.generation
      && StateAt(Initial(options), events, 5).link.connection == Reconnecting
  {
    hide Step, Enabled, Initial;
    var s0 := Initial(options);
    ConnectIsCalled(s0);
    LossLeavesAWait(options);
    var s2 := Step(Step(s0, CallConnect(true)), OnResolved(1, false));
    ReconnectWaitExpires(s2);
    OvertakenConnect(Step(s2, ReconnectExpires));
    FiveSteps(s0, CallConnect(true), OnResolved(1, false), ReconnectExpires, CallConnect(true), OnReconnect(true));
  }

  lemma LossLeavesAWait(options: Options)
    requires options.autoReconnect
    ensures Enabled(Step(Initial(options), CallConnect(true)), OnResolved(1, false))
    ensures Step(Step(Initial(options), CallConnect(true)), OnResolved(1, false)).timers.reconnectArmed
  {
    var s1 := Step(Initial(options), CallConnect(true));
    assert s1.link.generation == 1 && s1.ops == multiset{Resolve(1)} && !s1.link.userDisconnect;
    assert s1.options == options;
  }

  lemma ConnectIsCalled(s: State)
    ensures Enabled(s, CallConnect(true))
  {
  }

  lemma ReconnectWaitExpires(s: State)
    requires s.timers.reconnectArmed
    ensures Enabled(s, ReconnectExpires) && Step(s, ReconnectExpires).timers.reconnectFired > 0
  {
  }

  /** From any state with an expired reconnect wait. */
  lemma OvertakenConnect(s: State)
    requires s.timers.reconnectFired > 0
    ensures Enabled(s, CallConnect(true))
    ensures var t := Step(s, CallConnect(true));
      && t.link.stream && t.link.connection == Connecting && Enabled(t, OnReconnect(true))
      && Step(t, OnReconnect(true)).link.generation == t.link.generation + 1
      && Step(t, OnReconnect(true)).link.connection == Reconnecting
  {
  }

  lemma FiveSteps(s: State, a: Event, b: Event, c: Event, d: Event, e: Event)
    requires Enabled(s, a) && Enabled(Step(s, a), b) && Enabled(Step(Step(s, a), b), c)
    requires Enabled(Step(Step(Step(s, a), b), c), d) && Enabled(Step(Step(Step(Step(s, a), b), c), d), e)
    ensures Possible(s, [a, b, c, d, e])
    ensures StateAt(s, [a, b, c, d, e], 4) == Step(Step(Step(Step(s, a), b), c), d)
    ensures StateAt(s, [a, b, c, d, e], 5) == Step(Step(Step(Step(Step(s, a), b), c), d), e)
  {
    hide Step, Enabled;
    var s1 := Step(s, a);
    var s2 := Step(s1, b);
    var s3 := Step(s2, c);
    var s4 := Step(s3, d);
    var s5 := Step(s4, e);
    assert Possible(s5, []) && Run(s5, []) == s5;
    assert [e][1..] == [];
    assert Possible(s4, [e]) && Run(s4, [e]) == s5;
    assert [d, e][1..] == [e];
    assert Possible(s3, [d, e]) && Run(s3, [d, e]) == s5;
    assert [c, d, e][1..] == [d, e];
    assert Possible(s2, [c, d, e]) && Run(s2, [c, d, e]) == s5;
    assert [b, c, d, e][1..] == [c, d, e];
    assert Possible(s1, [b, c, d, e]) && Run(s1, [b, c, d, e]) == s5;
    var all := [a, b, c, d, e];
    assert all[1..] == [b, c, d, e];
    assert all[..5] == all;
    assert [d][1..] == [] && [c, d][1..] == [d] && [b, c, d][1..] == [c, d] && all[..4][1..] == [b, c, d];
    assert Possible(s4, []) && Run(s4, []) == s4;
    assert Possible(s3, [d]) && Run(s3, [d]) == s4;
    assert Possible(s2, [c, d]) && Run(s2, [c, d]) == s4;
    assert Possible(s1, [b, c, d]) && Run(s1, [b, c, d]) == s4;
  }

  // ------------------------------------------------------------ the voice timer

  /** Waits on the voice timer whose handler would still end a start. */
  function VoiceWaits(s: State): nat {
    s.timers.voiceFired + if s.timers.voiceArmed then 1 else 0
  }

  /** While a voice session is being started there is one wait, its own. */
  predicate Timely(s: State) {
    s.session.voiceStarting ==> VoiceWaits(s) == 1
  }

  /** A voice session is started while the wait of an earlier start has expired and its handler has not run. */
  predicate StartsTooSoon(s: State, e: Event) {
    e.CallStartVoice? && MayStartVoice(s) && s.timers.voiceFired > 0
  }

  /** What all steps but the start of a voice session do: leave the waits alone, or end the start. */
  predicate StartEndsOrWaits(s: State, t: State) {
    t.session.voiceStarting ==> s.session.voiceStarting && VoiceWaits(t) == VoiceWaits(s)
  }

  lemma LossEndsStart(s: State, g: nat)
    ensures StartEndsOrWaits(s, HandleConnectionLoss(s, g))
    ensures StartEndsOrWaits(s, ConnectionFailed(s, g)) && StartEndsOrWaits(s, AuthenticationFailed(s, g))
  {
  }

  lemma MessageEndsStart(s: State, message: seq<Byte>)
    ensures StartEndsOrWaits(s, HandleMessage(s, message))
  {
    hide QueueMessage, Parsed, And32, HasVoice;
  }

  lemma LengthByteEndsStart(s: State, g: nat, input: Option<Byte>)
    ensures StartEndsOrWaits(s, LengthByteRead(s, g, input))
  {
    hide ConnectionFailed, LengthByte;
    var t := Take(s, ReadLength(g));
    LossEndsStart(t, g);
    if input.Some? {
      LengthEndsStart(Received(t, [input.value]), g, input.value);
    }
  }

  lemma LengthEndsStart(s: State, g: nat, b: Byte)
    ensures StartEndsOrWaits(s, LengthByte(s, g, b))
  {
    hide Accumulate, HandleMessage, HandleConnectionLoss, BeginReadLength, ReadOneLengthByte;
    var t := s.(inbox := s.inbox.(length := Accumulate(s.inbox.length, b, s.inbox.shift)));
    var longer := t.(inbox := t.inbox.(shift := t.inbox.shift + 7));
    var ended := t.(inbox := t.inbox.(bodySize := t.inbox.length));
    LossEndsStart(longer, g);
    LossEndsStart(t, g);
    ReadingKeepsStart(longer, g);
    MessageEndsStart(ended, []);
    ReadingKeepsStart(HandleMessage(ended, []), g);
  }

  lemma ReadingKeepsStart(s: State, g: nat)
    ensures BeginReadLength(s, g).session == s.session && BeginReadLength(s, g).timers == s.timers
    ensures ReadOneLengthByte(s, g).session == s.session && ReadOneLengthByte(s, g).timers == s.timers
  {
  }

  lemma BodyEndsStart(s: State, g: nat, input: Option<seq<Byte>>)
    ensures StartEndsOrWaits(s, BodyRead(s, g, input))
  {
    hide ConnectionFailed, HandleMessage, BeginReadLength;
    var t := Take(s, ReadBody(g));
    LossEndsStart(t, g);
    if input.Some? {
      var u := ResetIdleTimer(Received(t, input.value));
      MessageEndsStart(u, input.value);
      ReadingKeepsStart(HandleMessage(u, input.value), g);
    }
  }

  lemma WriteEndsStart(s: State, g: nat, ok: bool)
    ensures StartEndsOrWaits(s, Written(s, g, ok))
  {
    hide ConnectionFailed;
    LossEndsStart(Take(s, Write(g)).(outbox := s.outbox.(busy := false)), g);
  }

  lemma ResolvedEndsStart(s: State, g: nat, ok: bool)
    ensures StartEndsOrWaits(s, Resolved(s, g, ok))
  {
    hide ConnectionFailed;
    LossEndsStart(Take(s, Resolve(g)), g);
  }

  lemma TcpConnectedEndsStart(s: State, g: nat, ok: bool)
    ensures StartEndsOrWaits(s, TcpConnected(s, g, ok))
  {
    hide ConnectionFailed;
    LossEndsStart(Take(s, Connect(g)), g);
  }

  lemma HandshakenEndsStart(s: State, g: nat, ok: bool)
    ensures StartEndsOrWaits(s, Handshaken(s, g, ok))
  {
    hide AuthenticationFailed;
    LossEndsStart(Take(s, Handshake(g)), g);
  }

  lemma CallEndsStart(s: State, e: Event)
    requires Enabled(s, e) && !IsCompletion(e) && !e.CallStartVoice?
    ensures StartEndsOrWaits(s, Step(s, e))
  {
    hide QueueMessage, QueuePayloads, Chunks;
  }

  lemma StepEndsStart(s: State, e: Event)
    requires Enabled(s, e) && !e.CallStartVoice?
    ensures StartEndsOrWaits(s, Step(s, e))
  {
    hide StartEndsOrWaits, Resolved, TcpConnected, Handshaken, LengthByteRead, BodyRead, Written;
    match e
    case OnResolved(g, ok) => ResolvedEndsStart(s, g, ok);
    case OnConnected(g, ok) => TcpConnectedEndsStart(s, g, ok);
    case OnHandshake(g, ok) => HandshakenEndsStart(s, g, ok);
    case OnLengthByte(g, input) => LengthByteEndsStart(s, g, input);
    case OnBody(g, input) => BodyEndsStart(s, g, input);
    case OnWritten(g, ok) => WriteEndsStart(s, g, ok);
    case _ => CallEndsStart(s, e); hide Step;
  }

  lemma TimelyUnlessTooSoon(s: State, e: Event)
    requires Timely(s) && Enabled(s, e)
    ensures Timely(Step(s, e)) <==> !StartsTooSoon(s, e)
  {
    if e.CallStartVoice? {
      hide QueueMessage;
    } else {
      hide Step;
      StepEndsStart(s, e);
    }
  }

  /**
   Throughout a run a voice session being started has exactly one timeout, its
   own, if and only if none is started while an earlier timeout has expired and
   its handler has not run.
   */
  lemma TimelyIffNeverTooSoon(options: Options, events: seq<Event>)
    requires Possible(Initial(options), events)
    ensures var s := Initial(options);
      (forall i | 0 <= i <= |events| :: Timely(StateAt(s, events, i))) <==>
      (forall i | 0 <= i < |events| :: !StartsTooSoon(StateAt(s, events, i), events[i]))
  {
    InitialInvariant(options);
    forall t, e | Invariant(t) && Timely(t) && Enabled(t, e) ensures Timely(Step(t, e)) <==> !StartsTooSoon(t, e) {
      TimelyUnlessTooSoon(t, e);
    }
    hide Invariant, Enabled, Step, StartsTooSoon, StateAt;
    HoldsIffNeverBroken(t => Timely(t), (t, e) => StartsTooSoon(t, e), Initial(options), events);
  }

  lemma OwnTimeoutRuns(s: State)
    requires Timely(s) && Enabled(s, OnVoiceTimer) && s.session.voiceStarting
    ensures s.timers.voiceFired == 1 && !s.timers.voiceArmed
  {
  }

  /**
   So without such a start no voice handler of the run ends a start other than its
   own: the one that runs during a start is that of the only timeout there is.
   */
  lemma NoStartIsEndedByAnother(options: Options, events: seq<Event>, i: nat)
    requires Possible(Initial(options), events) && i < |events| && events[i].OnVoiceTimer?
    requires forall i | 0 <= i < |events| :: !StartsTooSoon(StateAt(Initial(options), events, i), events[i])
    ensures var s := StateAt(Initial(options), events, i);
      s.session.voiceStarting ==> s.timers.voiceFired == 1 && !s.timers.voiceArmed
  {
    hide StartsTooSoon, Initial, StateAt, Step, Enabled, Timely;
    TimelyIffNeverTooSoon(options, events);
    NextIsEnabled(Initial(options), events, i);
    var s := StateAt(Initial(options), events, i);
    assert Timely(s);
    if s.session.voiceStarting {
      OwnTimeoutRuns(s);
    }
  }

  // ------------------------------------------------------------ a start ended early

  const TOO_SOON := [CallStartVoice, VoiceExpires, CallStopVoice, CallStartVoice, OnVoiceTimer]

  /**
   Wherever voice can be started: start, let the timeout expire, stop and start
   again before its handler runs. The handler ends the second start, whose own
   timeout is still to come.
   */
  lemma OldTimeoutEndsANewStart(s: State)
    requires MayStartVoice(s)
    ensures Possible(s, TOO_SOON)
    ensures StateAt(s, TOO_SOON, 4).session.voiceStarting
    ensures !StateAt(s, TOO_SOON, 5).session.voiceStarting && StateAt(s, TOO_SOON, 5).timers.voiceArmed
  {
    hide Step, Enabled;
    StartsVoice(s);
    var s1 := Step(s, CallStartVoice);
    VoiceWaitExpires(s1);
    var s2 := Step(s1, VoiceExpires);
    StopsVoice(s2);
    var s3 := Step(s2, CallStopVoice);
    StartsVoice(s3);
    var s4 := Step(s3, CallStartVoice);
    VoiceHandlerRuns(s4);
    FiveSteps(s, CallStartVoice, VoiceExpires, CallStopVoice, CallStartVoice, OnVoiceTimer);
  }

  lemma VoiceWaitExpires(s: State)
    requires s.timers.voiceArmed
    ensures Enabled(s, VoiceExpires)
    ensures Step(s, VoiceExpires) ==
      s.(timers := s.timers.(voiceArmed := false, voiceFired := s.timers.voiceFired + 1))
  {
  }

  lemma StopsVoice(s: State)
    requires s.session.voiceSession.None?
    ensures Enabled(s, CallStopVoice)
    ensures Step(s, CallStopVoice) ==
      s.(timers := s.timers.(voiceArmed := false), session := s.session.(voiceStarting := false))
  {
  }

  lemma VoiceHandlerRuns(s: State)
    requires s.timers.voiceFired > 0
    ensures Enabled(s, OnVoiceTimer)
    ensures Step(s, OnVoiceTimer) == s.(session := s.session.(voiceStarting := false),
                                        timers := s.timers.(voiceFired := s.timers.voiceFired - 1))
  {
  }

  lemma StartsVoice(s: State)
    requires MayStartVoice(s)
    ensures Enabled(s, CallStartVoice)
    ensures var t := Step(s, CallStartVoice);
      && t.session == s.session.(voiceStarting := true) && t.link == s.link
      && t.timers == s.timers.(idleArmed := t.timers.idleArmed, voiceArmed := true)
  {
    hide QueueMessage;
  }

  // ------------------------------------------------------------ that it is reached

  /** A remote message of one nested message with one varint. */
  function OneVarint(number: U32, value: U64): seq<Byte> {
    EncodeFields([BytesField(number, EncodeFields([VarintField(1, value)]))])
  }

  lemma OneVarintIsShort(number: U32, value: U64)
    requires number > 0
    ensures 0 < |OneVarint(number, value)| < 128
    ensures Fields(OneVarint(number, value)) == [BytesField(number, EncodeFields([VarintField(1, value)]))]
    ensures Fields(EncodeFields([VarintField(1, value)])) == [VarintField(1, value)]
  {
    hide EncodeFields, Fields, EncodeField;
    var inner := VarintField(1, value);
    OneField(inner);
    EncodedFieldSize(inner);
    var outer := BytesField(number, EncodeFields([inner]));
    OneField(outer);
    EncodedFieldSize(outer);
    ReaderInvertsWriter([inner]);
    ReaderInvertsWriter([outer]);
  }

  lemma OneVarintIsRead()
    ensures Parsed(OneVarint(1, FEATURE_VOICE)) == Configure(FEATURE_VOICE, DeviceInfo([], [], []))
    ensures Parsed(OneVarint(40, 1)) == Start(true)
  {
    hide EncodeFields, Fields;
    OneVarintIsShort(1, FEATURE_VOICE);
    OneVarintIsShort(40, 1);
    var fs := [VarintField(1, FEATURE_VOICE)];
    assert fs[1..] == [] && FirstBytes(fs, 2) == None;
  }

  /** The next length is awaited. */
  predicate Ready(s: State) {
    s.link.stream && ReadLength(s.link.generation) in s.ops && s.inbox.length == 0 && s.inbox.shift == 0
  }

  lemma FirstLengthByte(b: Byte)
    requires b < 128
    ensures Accumulate(0, b, 0) == b
  {
    assert Pow2(0) == 1;
    AccumulateFits(0, b, 0);
  }

  lemma ShortLengthArrives(s: State, size: Byte)
    requires Ready(s) && 0 < size < 128
    ensures var t := Step(s, OnLengthByte(s.link.generation, Some(size)));
      && t.link == s.link && t.session == s.session && t.inbox.bodySize == size
      && ReadBody(s.link.generation) in t.ops
  {
    FirstLengthByte(size);
    hide Accumulate;
  }

  lemma ShortBodyArrives(s: State, m: seq<Byte>)
    requires s.link.stream && ReadBody(s.link.generation) in s.ops && |m| == s.inbox.bodySize
    ensures var t := Step(s, OnBody(s.link.generation, Some(m)));
      && Ready(t) && t.link == Digest(s, Parsed(m)).link && t.session == Digest(s, Parsed(m)).session
  {
    hide HandleMessage, Parsed, Digest;
    var u := ResetIdleTimer(Received(Take(s, ReadBody(s.link.generation)), m));
    HandledIsDigested(u, m);
    HandleMessageFrame(u, m);
    SameDigest(s, u, Parsed(m));
  }

  lemma HandledIsDigested(s: State, m: seq<Byte>)
    ensures var t := HandleMessage(s, m);
      t.link == Digest(s, Parsed(m)).link && t.session == Digest(s, Parsed(m)).session
  {
    hide QueueMessage, Parsed, Digest;
    SameDigest(s, Noted(s, m), Parsed(m));
  }

  lemma {:induction false} OneStepMore(s: State, events: seq<Event>, e: Event)
    requires Possible(s, events) && Enabled(Run(s, events), e)
    ensures Possible(s, events + [e]) && Run(s, events + [e]) == Step(Run(s, events), e)
    decreases |events|
  {
    hide Step, Enabled;
    if events == [] {
      assert events + [e] == [e] && [e][1..] == [];
    } else {
      assert (events + [e])[1..] == events[1..] + [e];
      OneStepMore(Step(s, events[0]), events[1..], e);
    }
  }

  /** A whole short message arrives. */
  lemma MessageArrives(s: State, events: seq<Event>, m: seq<Byte>) returns (more: seq<Event>)
    requires Possible(s, events) && Ready(Run(s, events)) && 0 < |m| < 128
    ensures Possible(s, more)
    ensures var before, t := Run(s, events), Run(s, more);
      Ready(t) && t.link == Digest(before, Parsed(m)).link && t.session == Digest(before, Parsed(m)).session
  {
    hide Step, Parsed, Digest;
    var before := Run(s, events);
    var g := before.link.generation;
    ShortLengthArrives(before, |m|);
    OneStepMore(s, events, OnLengthByte(g, Some(|m|)));
    var t := Step(before, OnLengthByte(g, Some(|m|)));
    ShortBodyArrives(t, m);
    SameDigest(before, t, Parsed(m));
    OneStepMore(s, events + [OnLengthByte(g, Some(|m|))], OnBody(g, Some(m)));
    more := events + [OnLengthByte(g, Some(|m|))] + [OnBody(g, Some(m))];
  }

  lemma SameDigest(s: State, t: State, m: Incoming)
    requires s.link == t.link && s.session == t.session
    ensures Digest(s, m).link == Digest(t, m).link && Digest(s, m).session == Digest(t, m).session
  {
  }

  /** The connection is made. */
  lemma ConnectionIsMade(options: Options) returns (events: seq<Event>)
    ensures Possible(Initial(options), events)
    ensures var t := Run(Initial(options), events);
      Ready(t) && t.session == Initial(options).session && t.link.connection == Connecting
  {
    var s := Initial(options);
    hide Step, Enabled, Ready;
    assert Possible(s, []) && Run(s, []) == s;
    ConnectStarts(s);
    ConnectGoesOn(Step(s, CallConnect(true)));
    hide Run, Possible, Initial;
    var g := Step(s, CallConnect(true)).link.generation;
    OneStepMore(s, [], CallConnect(true));
    events := [] + [CallConnect(true)];
    OneStepMore(s, events, OnResolved(g, true));
    events := events + [OnResolved(g, true)];
    OneStepMore(s, events, OnConnected(g, true));
    events := events + [OnConnected(g, true)];
    OneStepMore(s, events, OnHandshake(g, true));
    events := events + [OnHandshake(g, true)];
  }

  lemma ConnectStarts(s: State)
    requires s.session.voiceSession.None? && !s.session.voiceStarting
    ensures Enabled(s, CallConnect(true))
    ensures var t := Step(s, CallConnect(true));
      && t.link.stream && t.link.connection == Connecting && t.session == s.session
      && Resolve(t.link.generation) in t.ops
  {
  }

  lemma ConnectGoesOn(s: State)
    requires s.link.stream && Resolve(s.link.generation) in s.ops
    ensures Enabled(s, OnResolved(s.link.generation, true))
    ensures var g := s.link.generation;
      var t := Step(s, OnResolved(g, true));
      && Enabled(t, OnConnected(g, true))
      && var u := Step(t, OnConnected(g, true));
        && Enabled(u, OnHandshake(g, true))
        && var v := Step(u, OnHandshake(g, true));
          && Ready(v) && v.session == s.session && v.link.connection == s.link.connection
  {
  }

  /** With the voice option there is a run to a state in which voice may be started. */
  lemma VoiceCanBeStarted(options: Options) returns (events: seq<Event>)
    requires options.enableVoice
    ensures Possible(Initial(options), events) && MayStartVoice(After(options, events))
  {
    hide Run, Possible, Parsed, OneVarint, Ready, And32, HasVoice, OptionMask;
    events := ConnectionIsMade(options);
    OneVarintIsShort(1, FEATURE_VOICE);
    OneVarintIsShort(40, 1);
    OneVarintIsRead();
    VoiceIsLeft(options);
    events := MessageArrives(Initial(options), events, OneVarint(1, FEATURE_VOICE));
    events := MessageArrives(Initial(options), events, OneVarint(40, 1));
  }

  lemma VoiceIsLeft(options: Options)
    requires options.enableVoice
    ensures HasVoice(And32(OptionMask(options), FEATURE_VOICE))
  {
    hide And32, HasVoice, OptionMask, Bit;
    VoiceOption(options);
    And32OfNonNegative(OptionMask(options), FEATURE_VOICE, 3);
    assert Bit(FEATURE_VOICE, 3) by {
      BitsOfEight(8);
      EightAndEight();
    }
    HasVoiceIsBit3(And32(OptionMask(options), FEATURE_VOICE));
  }

  lemma EightAndEight()
    ensures BitAnd(8, 8) != 0
  {
  }
}
