/**
 Everything the engine sends: over a whole run, and in every generation of it,
 the messages queued are exactly those its events call for, in order.
 */
module EngineTraffic {
  import opened Wrappers
  import opened Ints
  import opened Varint
  import opened Framing
  import opened Messages
  import opened Voice
  import opened Engine
  import opened EngineSafety
  import opened EngineShape
  import opened EngineLedger
  import opened EngineReader
  import opened EngineTimers
  import opened EngineRuns

  /** A message, with the generation it is queued in. */
  datatype Sent = Sent(gen: nat, message: Outgoing)

  function Tagged(gen: nat, q: seq<Outgoing>): seq<Sent> {
    seq(|q|, i requires 0 <= i < |q| => Sent(gen, q[i]))
  }

  function SentIn(logs: seq<Log>): seq<Sent> {
    if logs == [] then []
    else SentIn(logs[..|logs| - 1]) + Tagged(|logs| - 1, logs[|logs| - 1].queued)
  }

  // ------------------------------------------------------------ what events call for

  /** The messages an event calls for while there is a stream: those of a call, or the answer to a message. */
  function QueuedBy(s: State, e: Event): seq<Outgoing>
    requires Enabled(s, e)
  {
    if !s.link.stream then [] else
    match e
    case CallSendKey(code, direction) => [Key(code, direction)]
    case CallSendText(text) => [Text(text, s.session.imeCounter, s.session.imeFieldCounter)]
    case CallLaunchApp(link) => [AppLink(link)]
    case CallStartVoice => if MayStartVoice(s) then [Key(KEYCODE_SEARCH, SHORT)] else []
    case CallSendVoiceData(pcm) =>
      if s.session.voiceSession.None? then []
      else Payloads(Utterance(s.session.voiceSession.value, Chunks(pcm)))
    case CallStopVoice =>
      if s.session.voiceSession.None? then [] else [VoiceEnd(s.session.voiceSession.value)]
    case OnBody(g, body) =>
      if g == s.link.generation && body.Some? then AsSeq(Answer(s.session, Parsed(body.value))) else []
    case _ => []
  }

  /** The message an event brings: a whole body, or the empty one with its length. */
  function HandledBy(s: State, e: Event): seq<seq<Byte>> {
    match e
    case OnBody(g, body) => if g == s.link.generation && body.Some? then [body.value] else []
    case OnLengthByte(g, input) =>
      if g == s.link.generation && input.Some? then EmptyFrame(s, input.value) else []
    case _ => []
  }

  function EmptyFrame(s: State, b: Byte): seq<seq<Byte>> {
    if !Continues(b) && Accumulate(s.inbox.length, b, s.inbox.shift) == 0 then [[]] else []
  }

  /** What the events of a run call for. */
  function CalledFor(s: State, events: seq<Event>): seq<Sent>
    requires Possible(s, events)
    decreases |events|
  {
    if events == [] then []
    else Tagged(s.link.generation, QueuedBy(s, events[0])) + CalledFor(Step(s, events[0]), events[1..])
  }

  // ------------------------------------------------------------ how histories grow

  /** What the television has said so far that the client acts on later. */
  datatype Known = Known(ime: I32, field: I32, supported: I32, active: I32, voiceEnabled: bool)

  /** The last IME batch message says the counters, every configure message takes features away. */
  function Learned(k: Known, m: Incoming): Known {
    match m
    case ImeBatchEdit(ime, field) => k.(ime := ime, field := field)
    case Configure(supported, _) =>
      var active := And32(k.active, supported);
      k.(supported := supported, active := active, voiceEnabled := HasVoice(active))
    case _ => k
  }

  function Current(s: State): Known {
    Known(s.session.imeCounter, s.session.imeFieldCounter,
          s.session.supportedFeatures, s.session.activeFeatures, s.session.voiceEnabled)
  }

  /** The voice session that is open after messages have been queued. */
  function SessionAfter(v: Option<I32>, os: seq<Outgoing>): Option<I32> {
    if os == [] then v
    else
      match os[|os| - 1]
      case VoiceBegin(session) => Some(session)
      case VoiceEnd(_) => None
      case _ => SessionAfter(v, os[..|os| - 1])
  }

  /** The history of the current generation grows by `os` and `ms`, and the generation goes on. */
  predicate GoesOn(s: State, t: State, os: seq<Outgoing>, ms: seq<seq<Byte>>) {
    && t.past == s.past && t.log.queued == s.log.queued + os && t.log.handled == s.log.handled + ms
    && t.link.generation == s.link.generation
    && t.session.voiceSession == SessionAfter(s.session.voiceSession, os)
  }

  /** It grows so, and then the generation ends. */
  predicate Ends(s: State, t: State, os: seq<Outgoing>, ms: seq<seq<Byte>>) {
    && |t.past| == |s.past| + 1 && t.past[..|s.past|] == s.past
    && t.past[|s.past|].queued == s.log.queued + os && t.past[|s.past|].handled == s.log.handled + ms
    && t.log.queued == [] && t.log.handled == []
    && t.link.generation == s.link.generation + 1 && t.session.voiceSession.None?
  }

  predicate Grows(s: State, t: State, os: seq<Outgoing>, ms: seq<seq<Byte>>) {
    && (GoesOn(s, t, os, ms) || Ends(s, t, os, ms))
    && |ms| <= 1
    && Current(t) == if ms == [] then Current(s) else Learned(Current(s), Parsed(ms[0]))
  }

  lemma NothingGrows(s: State)
    ensures Grows(s, s, [], [])
  {
  }

  lemma CloseGrows(s: State)
    ensures Grows(s, CloseStream(s), [], [])
  {
  }

  /** Only what the history is about matters. */
  lemma SameGrowth(s: State, t: State, u: State, os: seq<Outgoing>, ms: seq<seq<Byte>>)
    requires Grows(s, t, os, ms)
    requires u.past == t.past && u.log.queued == t.log.queued && u.log.handled == t.log.handled
    requires u.link.generation == t.link.generation && u.session == t.session
    ensures Grows(s, u, os, ms)
  {
    hide Parsed, SessionAfter;
  }

  lemma LossGrows(s: State, g: nat)
    ensures Grows(s, HandleConnectionLoss(s, g), [], [])
    ensures Grows(s, ConnectionFailed(s, g), [], []) && Grows(s, AuthenticationFailed(s, g), [], [])
  {
    hide CloseStream, Grows;
    NothingGrows(s);
    CloseGrows(s);
    SameGrowth(s, CloseStream(s), SetConnection(CloseStream(s), Disconnected), [], []);
    SameGrowth(s, CloseStream(s), ScheduleReconnect(CloseStream(s)), [], []);
  }

  lemma AttemptGrows(s: State, reconnecting: bool, loads: bool)
    ensures Grows(s, BeginConnect(s, reconnecting, loads), [], [])
  {
    hide CloseStream, Grows;
    NothingGrows(s);
    CloseGrows(s);
    if !s.link.userDisconnect {
      SameGrowth(s, CloseStream(s), BeginConnect(s, reconnecting, loads), [], []);
    }
  }

  lemma QueueGrows(s: State, o: Message)
    requires s.link.stream && !IsVoice(o)
    ensures Grows(s, QueueMessage(s, o), [o], [])
  {
    hide QueueMessage;
    OneMessage(s.session.voiceSession, o);
  }

  lemma OneMessage(v: Option<I32>, o: Outgoing)
    ensures SessionAfter(v, [o]) ==
      if o.VoiceBegin? then Some(o.session) else if o.VoiceEnd? then None else v
  {
    assert [o][..0] == [];
  }

  lemma {:induction false} PayloadsKeepSession(v: Option<I32>, session: I32, chunks: seq<seq<Byte>>)
    ensures SessionAfter(v, Payloads(Utterance(session, chunks))) == v
  {
    if chunks != [] {
      var os := Payloads(Utterance(session, chunks));
      assert os[..|os| - 1] == Payloads(Utterance(session, chunks[..|chunks| - 1]));
      PayloadsKeepSession(v, session, chunks[..|chunks| - 1]);
    }
  }

  lemma {:induction false} PayloadsGrow(s: State, session: I32, chunks: seq<seq<Byte>>)
    requires (forall c | c in chunks :: |c| <= CHUNK_SIZE) && s.link.stream
    ensures var t := QueuePayloads(s, session, chunks);
      t.log.queued == s.log.queued + Payloads(Utterance(session, chunks))
    decreases |chunks|
  {
    hide QueueMessage, Payloads;
    FirstPayload(session, chunks);
    if chunks == [] {
      assert s.log.queued + [] == s.log.queued;
    } else {
      var o := VoicePayload(session, chunks[0]);
      PayloadsGrow(QueueMessage(s, o), session, chunks[1..]);
      Regrouped(s.log.queued, [o], Payloads(Utterance(session, chunks[1..])));
    }
  }

  lemma FirstPayload(session: I32, chunks: seq<seq<Byte>>)
    ensures Payloads(Utterance(session, chunks)) ==
      if chunks == [] then [] else [VoicePayload(session, chunks[0])] + Payloads(Utterance(session, chunks[1..]))
  {
  }

  lemma MessageGrows(s: State, message: seq<Byte>)
    requires s.link.stream
    ensures Grows(s, HandleMessage(s, message), AsSeq(Answer(s.session, Parsed(message))), [message])
  {
    hide QueueMessage, Parsed, And32, HasVoice;
    var answer := Answer(s.session, Parsed(message));
    if answer.Some? {
      OneMessage(s.session.voiceSession, answer.value);
    }
    hide SessionAfter;
    assert SessionAfter(s.session.voiceSession, []) == s.session.voiceSession by {
      NoMessage(s.session.voiceSession);
    }
  }

  lemma NoMessage(v: Option<I32>)
    ensures SessionAfter(v, []) == v
  {
  }

  // ------------------------------------------------------------ the handlers

  lemma EmptyMessageGrows(s: State)
    requires s.link.stream
    ensures Grows(s, HandleMessage(s, []), [], [[]])
  {
    EmptyMessageIsUnknown();
    MessageGrows(s, []);
    hide HandleMessage, Grows;
  }

  lemma LengthGrows(s: State, b: Byte)
    requires s.link.stream
    ensures Grows(s, LengthByte(s, s.link.generation, b), [], EmptyFrame(s, b))
  {
    hide Accumulate, HandleMessage, HandleConnectionLoss, Grows, BeginReadLength, ReadOneLengthByte;
    var g := s.link.generation;
    var t := s.(inbox := s.inbox.(length := Accumulate(s.inbox.length, b, s.inbox.shift)));
    var longer := t.(inbox := t.inbox.(shift := t.inbox.shift + 7));
    var ended := t.(inbox := t.inbox.(bodySize := t.inbox.length));
    LossGrows(longer, g);
    LossGrows(t, g);
    ReadingGrows(longer, g);
    EmptyMessageGrows(ended);
    ReadingKeepsHistory(HandleMessage(ended, []), g);
    SameGrowth(ended, HandleMessage(ended, []), BeginReadLength(HandleMessage(ended, []), g), [], [[]]);
    PostGrows(ended, ReadBody(g));
    InboxGrows(s, LengthByte(s, g, b), t, EmptyFrame(s, b));
    InboxGrows(s, LengthByte(s, g, b), longer, EmptyFrame(s, b));
    InboxGrows(s, LengthByte(s, g, b), ended, EmptyFrame(s, b));
  }

  lemma InboxGrows(s: State, r: State, t: State, ms: seq<seq<Byte>>)
    requires t == s.(inbox := t.inbox)
    ensures Grows(t, r, [], ms) ==> Grows(s, r, [], ms)
  {
    hide Parsed, SessionAfter;
  }

  lemma PostGrows(s: State, op: Op)
    ensures Grows(s, Post(s, op), [], [])
  {
  }

  lemma ReadingKeepsHistory(s: State, g: nat)
    ensures var t := BeginReadLength(s, g);
      && t.past == s.past && t.log == s.log && t.link == s.link && t.session == s.session
  {
  }

  lemma ReadingGrows(s: State, g: nat)
    ensures Grows(s, ReadOneLengthByte(s, g), [], [])
  {
  }

  /** A handler is taken, bytes are received, the idle timer is reset: no history. */
  lemma TakenGrows(s: State, t: State, r: State, os: seq<Outgoing>, ms: seq<seq<Byte>>)
    requires Grows(t, r, os, ms)
    requires t.past == s.past && t.log.queued == s.log.queued && t.log.handled == s.log.handled
    requires t.link.generation == s.link.generation && t.session == s.session
    ensures Grows(s, r, os, ms)
  {
    hide Parsed, SessionAfter;
  }

  lemma LengthByteReadGrows(s: State, g: nat, input: Option<Byte>)
    requires g == s.link.generation ==> s.link.stream
    ensures Grows(s, LengthByteRead(s, g, input), [],
                  if g == s.link.generation && input.Some? then EmptyFrame(s, input.value) else [])
  {
    hide ConnectionFailed, LengthByte, Grows, Accumulate;
    var t := Take(s, ReadLength(g));
    NothingGrows(t);
    LossGrows(t, g);
    if g == s.link.generation && input.Some? {
      var u := Received(t, [input.value]);
      LengthGrows(u, input.value);
      TakenGrows(s, u, LengthByte(u, g, input.value), [], EmptyFrame(s, input.value));
    } else {
      TakenGrows(s, t, LengthByteRead(s, g, input), [], []);
    }
  }

  lemma BodyReadGrows(s: State, g: nat, input: Option<seq<Byte>>)
    requires g == s.link.generation ==> s.link.stream
    ensures var brings := g == s.link.generation && input.Some?;
      Grows(s, BodyRead(s, g, input), if brings then AsSeq(Answer(s.session, Parsed(input.value))) else [],
            if brings then [input.value] else [])
  {
    hide ConnectionFailed, HandleMessage, BeginReadLength, Grows, Parsed, Answer;
    var t := Take(s, ReadBody(g));
    NothingGrows(t);
    LossGrows(t, g);
    if g == s.link.generation && input.Some? {
      var u := ResetIdleTimer(Received(t, input.value));
      var os := AsSeq(Answer(s.session, Parsed(input.value)));
      MessageGrows(u, input.value);
      ReadingKeepsHistory(HandleMessage(u, input.value), g);
      SameGrowth(u, HandleMessage(u, input.value), BodyRead(s, g, input), os, [input.value]);
      TakenGrows(s, u, BodyRead(s, g, input), os, [input.value]);
    } else {
      TakenGrows(s, t, BodyRead(s, g, input), [], []);
    }
  }

  lemma WritingKeepsHistory(s: State)
    ensures var t := BeginWrite(s);
      t.past == s.past && t.log == s.log && t.link == s.link && t.session == s.session
  {
  }

  lemma WrittenGrows(s: State, g: nat, ok: bool)
    ensures Grows(s, Written(s, g, ok), [], [])
  {
    hide ConnectionFailed, BeginWrite, Grows;
    var t := Take(s, Write(g));
    var failed := t.(outbox := t.outbox.(busy := false));
    NothingGrows(t);
    LossGrows(failed, g);
    if g == s.link.generation && !ok {
      TakenGrows(s, failed, Written(s, g, ok), [], []);
    } else {
      if g == s.link.generation && s.outbox.queue != [] {
        WritingKeepsHistory(t.(outbox := t.outbox.(queue := t.outbox.queue[1..]),
                               log := t.log.(written := t.log.written + [t.outbox.queue[0]])));
      }
      SameGrowth(t, t, Written(s, g, ok), [], []);
      TakenGrows(s, t, Written(s, g, ok), [], []);
    }
  }

  lemma ResolvedGrows(s: State, g: nat, ok: bool)
    ensures Grows(s, Resolved(s, g, ok), [], [])
  {
    hide ConnectionFailed, Grows;
    var t := Take(s, Resolve(g));
    NothingGrows(t);
    LossGrows(t, g);
    PostGrows(t, Connect(g));
    TakenGrows(s, t, Resolved(s, g, ok), [], []);
  }

  lemma TcpConnectedGrows(s: State, g: nat, ok: bool)
    ensures Grows(s, TcpConnected(s, g, ok), [], [])
  {
    hide ConnectionFailed, Grows;
    var t := Take(s, Connect(g));
    NothingGrows(t);
    LossGrows(t, g);
    PostGrows(t, Handshake(g));
    TakenGrows(s, t, TcpConnected(s, g, ok), [], []);
  }

  lemma HandshakenGrows(s: State, g: nat, ok: bool)
    ensures Grows(s, Handshaken(s, g, ok), [], [])
  {
    hide AuthenticationFailed, BeginReadLength, Grows;
    var t := Take(s, Handshake(g));
    NothingGrows(t);
    LossGrows(t, g);
    ReadingKeepsHistory(ResetDelay(t), g);
    if g == s.link.generation && ok {
      SameGrowth(t, t, Handshaken(s, g, ok), [], []);
    }
    TakenGrows(s, t, Handshaken(s, g, ok), [], []);
  }

  lemma UserConnectGrows(s: State, loads: bool)
    ensures Grows(s, UserConnect(s, loads), [], [])
  {
    hide BeginConnect, Grows;
    var t := ResetDelay(s.(link := s.link.(userDisconnect := false), timers := s.timers.(reconnectArmed := false)));
    AttemptGrows(t, false, loads);
    TakenGrows(s, t, UserConnect(s, loads), [], []);
  }

  lemma UserDisconnectGrows(s: State)
    ensures Grows(s, UserDisconnect(s), [], [])
  {
    hide CloseStream, Grows;
    var t := s.(link := s.link.(userDisconnect := true),
                timers := s.timers.(reconnectArmed := false, voiceArmed := false, idleArmed := None));
    CloseGrows(t);
    SameGrowth(t, CloseStream(t), UserDisconnect(s), [], []);
    TakenGrows(s, t, UserDisconnect(s), [], []);
  }

  lemma ReconnectGrows(s: State, loads: bool)
    requires s.timers.reconnectFired > 0
    ensures Grows(s, ReconnectRuns(s, loads), [], [])
  {
    hide BeginConnect, Grows;
    var t := s.(timers := s.timers.(reconnectFired := s.timers.reconnectFired - 1));
    NothingGrows(t);
    AttemptGrows(t, true, loads);
    TakenGrows(s, t, ReconnectRuns(s, loads), [], []);
  }

  lemma IdleGrows(s: State, g: nat)
    ensures Grows(s, IdleRuns(s, g), [], [])
  {
    hide HandleConnectionLoss, Grows;
    var t := s.(timers := s.timers.(idleFired := s.timers.idleFired - multiset{g}));
    NothingGrows(t);
    LossGrows(t, g);
    TakenGrows(s, t, IdleRuns(s, g), [], []);
  }

  lemma TimersGrow(s: State, e: Event)
    requires Enabled(s, e) && (e.ReconnectExpires? || e.IdleExpires? || e.VoiceExpires? || e.OnVoiceTimer?)
    ensures Grows(s, Step(s, e), [], [])
  {
  }

  // ------------------------------------------------------------ the calls

  /** Without a stream nothing is queued. */
  lemma DroppedGrows(s: State, o: Message)
    requires !s.link.stream
    ensures Grows(s, QueueMessage(s, o), [], [])
  {
    NothingGrows(s);
    hide Grows;
  }

  lemma CommandGrows(s: State, o: Message)
    requires !IsVoice(o)
    ensures Grows(s, QueueMessage(s, o), if s.link.stream then [o] else [], [])
  {
    hide QueueMessage, Grows;
    if s.link.stream {
      QueueGrows(s, o);
    } else {
      DroppedGrows(s, o);
    }
  }

  lemma StartVoiceGrows(s: State)
    ensures Grows(s, StartVoice(s), if s.link.stream && MayStartVoice(s) then [Key(KEYCODE_SEARCH, SHORT)] else [], [])
  {
    hide QueueMessage, Grows;
    NothingGrows(s);
    if MayStartVoice(s) {
      var o := Key(KEYCODE_SEARCH, SHORT);
      var t := s.(session := s.session.(voiceStarting := true));
      CommandGrows(t, o);
      StartedGrows(s, t, if s.link.stream then [o] else []);
    }
  }

  lemma StartedGrows(s: State, t: State, os: seq<Outgoing>)
    requires t == s.(session := s.session.(voiceStarting := true))
    requires Grows(t, QueueMessage(t, Key(KEYCODE_SEARCH, SHORT)), os, [])
    requires MayStartVoice(s)
    ensures Grows(s, StartVoice(s), os, [])
  {
    hide QueueMessage, SessionAfter;
  }

  lemma StopVoiceGrows(s: State)
    requires s.session.voiceSession.Some? ==> s.link.stream
    ensures Grows(s, StopVoice(s),
                  if s.session.voiceSession.Some? then [VoiceEnd(s.session.voiceSession.value)] else [], [])
  {
    hide QueueMessage;
    if s.session.voiceSession.Some? {
      OneMessage(s.session.voiceSession, VoiceEnd(s.session.voiceSession.value));
    }
  }

  lemma SendVoiceDataGrows(s: State, pcm: seq<Byte>)
    requires s.session.voiceSession.Some? ==> s.link.stream
    ensures Grows(s, SendVoiceData(s, pcm),
                  if s.session.voiceSession.Some? then Payloads(Utterance(s.session.voiceSession.value, Chunks(pcm)))
                  else [], [])
  {
    hide QueuePayloads, Chunks, Payloads, SessionAfter;
    if s.session.voiceSession.Some? {
      ChunkSizes(pcm);
      PayloadsGrow(s, s.session.voiceSession.value, Chunks(pcm));
      PayloadsKeepSession(s.session.voiceSession, s.session.voiceSession.value, Chunks(pcm));
    } else {
      NothingGrows(s);
      hide Grows;
    }
  }

  /** A voice session is only open on a stream. */
  lemma SpeakingIsLive(s: State)
    requires Pending(s) && Shape(s)
    ensures s.session.voiceSession.Some? ==> s.link.stream
  {
  }

  // ------------------------------------------------------------ the steps

  /** Every step queues exactly what its event calls for, and handles exactly what it brings. */
  lemma StepGrows(s: State, e: Event)
    requires Pending(s) && Shape(s) && Enabled(s, e)
    ensures Grows(s, Step(s, e), QueuedBy(s, e), HandledBy(s, e))
  {
    hide Pending, Shape, Grows, Resolved, TcpConnected, Handshaken, LengthByteRead, BodyRead, Written, UserConnect,
      UserDisconnect, ReconnectRuns, IdleRuns, QueueMessage, StartVoice, StopVoice, SendVoiceData, MayStartVoice,
      Chunks, Payloads, Parsed, Answer, EmptyFrame;
    SpeakingIsLive(s);
    match e
    case CallConnect(loads) => UserConnectGrows(s, loads);
    case CallDisconnect => UserDisconnectGrows(s);
    case CallSendKey(code, direction) => CommandGrows(s, Key(code, direction));
    case CallSendText(text) => CommandGrows(s, Text(text, s.session.imeCounter, s.session.imeFieldCounter));
    case CallLaunchApp(link) => CommandGrows(s, AppLink(link));
    case CallStartVoice => StartVoiceGrows(s);
    case CallStopVoice => StopVoiceGrows(s);
    case CallSendVoiceData(pcm) => SendVoiceDataGrows(s, pcm);
    case OnResolved(g, ok) => ResolvedGrows(s, g, ok);
    case OnConnected(g, ok) => TcpConnectedGrows(s, g, ok);
    case OnHandshake(g, ok) => HandshakenGrows(s, g, ok);
    case OnLengthByte(g, input) =>
      if g == s.link.generation { CurrentMeansLive(s, ReadLength(g)); }
      LengthByteReadGrows(s, g, input);
    case OnBody(g, body) =>
      if g == s.link.generation { CurrentMeansLive(s, ReadBody(g)); }
      BodyReadGrows(s, g, body);
    case OnWritten(g, ok) => WrittenGrows(s, g, ok);
    case OnReconnect(loads) => ReconnectGrows(s, loads);
    case OnIdle(g) => IdleGrows(s, g);
    case _ => TimersGrow(s, e); hide Step;
  }

  // ------------------------------------------------------------ the runs

  lemma PastIsGeneration(s: State)
    requires Pending(s)
    ensures |s.past| == s.link.generation
  {
  }

  lemma SentOfLogs(s: State)
    ensures SentIn(Logs(s)) == SentIn(s.past) + Tagged(|s.past|, s.log.queued)
  {
    assert Logs(s)[..|s.past|] == s.past;
  }

  lemma TaggedConcat(gen: nat, q: seq<Outgoing>, os: seq<Outgoing>)
    ensures Tagged(gen, q + os) == Tagged(gen, q) + Tagged(gen, os)
  {
  }

  /** What was sent grows by what a step queues, whether the generation goes on or ends. */
  lemma SentGrows(s: State, t: State, os: seq<Outgoing>, ms: seq<seq<Byte>>)
    requires Grows(s, t, os, ms) && |s.past| == s.link.generation
    ensures SentIn(Logs(t)) == SentIn(Logs(s)) + Tagged(s.link.generation, os)
  {
    SentOfLogs(s);
    SentOfLogs(t);
    TaggedConcat(|s.past|, s.log.queued, os);
    hide Logs, Parsed, SessionAfter, Tagged;
    Regrouped(SentIn(s.past), Tagged(|s.past|, s.log.queued), Tagged(|s.past|, os));
    if t.past != s.past {
      assert t.past[..|t.past| - 1] == s.past;
      NothingTagged(|t.past|);
    }
  }

  lemma Regrouped<T>(a: seq<T>, b: seq<T>, c: seq<T>)
    ensures a + (b + c) == a + b + c && a + [] == a
  {
  }

  lemma NothingTagged(gen: nat)
    ensures Tagged(gen, []) == []
  {
  }

  lemma InvariantParts(s: State)
    requires Invariant(s)
    ensures Pending(s) && Shape(s) && |s.past| == s.link.generation
  {
    PastIsGeneration(s);
  }

  lemma {:induction false} RunSends(s: State, events: seq<Event>)
    requires Invariant(s) && Possible(s, events)
    ensures SentIn(Logs(Run(s, events))) == SentIn(Logs(s)) + CalledFor(s, events)
    decreases |events|
  {
    hide Step, Enabled, Invariant, SentIn, Logs, QueuedBy, HandledBy, Tagged, Grows, Pending, Shape;
    if events == [] {
      assert SentIn(Logs(s)) + [] == SentIn(Logs(s));
    } else {
      var t := Step(s, events[0]);
      InvariantParts(s);
      StepKeepsInvariant(s, events[0]);
      StepGrows(s, events[0]);
      SentGrows(s, t, QueuedBy(s, events[0]), HandledBy(s, events[0]));
      RunSends(t, events[1..]);
      Regrouped(SentIn(Logs(s)), Tagged(s.link.generation, QueuedBy(s, events[0])), CalledFor(t, events[1..]));
    }
  }

  /**
   Over a whole run, and in every generation of it, the messages queued are exactly
   those the events call for, in order: the commands and voice data of calls, and
   the answers to messages.
   */
  lemma WhatIsCalledForIsSent(options: Options, events: seq<Event>)
    requires Possible(Initial(options), events)
    ensures SentIn(Logs(After(options, events))) == CalledFor(Initial(options), events)
  {
    InitialInvariant(options);
    NothingSentAtFirst(options);
    RunSends(Initial(options), events);
    hide Invariant, Initial, SentIn, Logs, CalledFor;
  }

  lemma NothingSentAtFirst(options: Options)
    ensures SentIn(Logs(Initial(options))) == []
  {
    var s := Initial(options);
    SentOfLogs(s);
    NothingTagged(0);
    assert SentIn(s.past) == [];
  }
}
