/**
 What the messages of each generation have to do with each other: what was
 queued with what was written, the replies with the messages they answer, and
 the voice messages among themselves.
 */
module EngineLedger {
  import opened Wrappers
  import opened Ints
  import opened Varint
  import opened Framing
  import opened Messages
  import opened Voice
  import opened Engine
  import opened EngineSafety
  import opened EngineShape

  function Frames(q: seq<Message>): seq<seq<Byte>> {
    seq(|q|, i requires 0 <= i < |q| => Frame(Encode(q[i])))
  }

  // ------------------------------------------------------------ replies

  /** The features left after a sequence of messages: every configure message may take some away. */
  function FeaturesAfter(features: I32, handled: seq<seq<Byte>>): I32 {
    if handled == [] then features
    else
      Restricted(FeaturesAfter(features, handled[..|handled| - 1]), Parsed(handled[|handled| - 1]))
  }

  function Restricted(features: I32, m: Incoming): I32 {
    match m
    case Configure(supported, _) => And32(features, supported)
    case _ => features
  }

  function AsSeq(o: Option<Message>): seq<Outgoing> {
    match o case None => [] case Some(m) => [m]
  }

  /** The replies a sequence of messages is owed. */
  function Owed(features: I32, handled: seq<seq<Byte>>): seq<Outgoing> {
    if handled == [] then []
    else
      var before := handled[..|handled| - 1];
      Owed(features, before) + AsSeq(Reply(FeaturesAfter(features, before), Parsed(handled[|handled| - 1])))
  }

  predicate IsReply(o: Outgoing) {
    o.ConfigureReply? || o.SetActiveReply? || o.PingReply?
  }

  function Replies(q: seq<Outgoing>): seq<Outgoing> {
    if q == [] then []
    else Replies(q[..|q| - 1]) + if IsReply(q[|q| - 1]) then [q[|q| - 1]] else []
  }

  lemma RepliesOfOneMore(q: seq<Outgoing>, o: Outgoing)
    ensures Replies(q + [o]) == Replies(q) + if IsReply(o) then [o] else []
  {
    assert (q + [o])[..|q|] == q;
  }

  lemma OwedForOneMore(features: I32, handled: seq<seq<Byte>>, m: seq<Byte>)
    ensures FeaturesAfter(features, handled + [m]) == Restricted(FeaturesAfter(features, handled), Parsed(m))
    ensures Owed(features, handled + [m]) ==
      Owed(features, handled) + AsSeq(Reply(FeaturesAfter(features, handled), Parsed(m)))
  {
    hide Parsed;
    assert (handled + [m])[..|handled|] == handled;
  }

  lemma {:induction false} FeaturesInParts(features: I32, a: seq<seq<Byte>>, b: seq<seq<Byte>>)
    ensures FeaturesAfter(features, a + b) == FeaturesAfter(FeaturesAfter(features, a), b)
  {
    hide Parsed;
    if b == [] {
      assert a + b == a;
    } else {
      assert (a + b)[..|a + b| - 1] == a + b[..|b| - 1];
      FeaturesInParts(features, a, b[..|b| - 1]);
    }
  }

  /** Everything handled in a sequence of generations. */
  function HandledIn(logs: seq<Log>): seq<seq<Byte>> {
    if logs == [] then [] else HandledIn(logs[..|logs| - 1]) + logs[|logs| - 1].handled
  }

  // ------------------------------------------------------------ the ledger

  /**
   A generation that may be over: what was written is a prefix of what was
   queued, frame by frame; the replies queued are exactly those owed; the
   voice messages are in order.
   */
  ghost predicate Balanced(log: Log) {
    && log.written <= Frames(log.queued)
    && Replies(log.queued) == Owed(log.features, log.handled)
    && ProgressOf(log.queued) != Broken
  }

  /** The current generation: besides, what is not written is still in the queue. */
  ghost predicate Books(options: Options, activeFeatures: I32, voiceSession: Option<I32>,
                        queue: seq<seq<Byte>>, log: Log, past: seq<Log>)
  {
    && Frames(log.queued) == log.written + queue
    && Replies(log.queued) == Owed(log.features, log.handled)
    && ProgressOf(log.queued) == (if voiceSession.Some? then Open(voiceSession.value) else Closed)
    && activeFeatures == FeaturesAfter(log.features, log.handled)
    && log.features == FeaturesAfter(OptionMask(options), HandledIn(past))
    && (forall l | l in past :: Balanced(l))
  }

  ghost predicate Ledger(s: State) {
    && Books(s.options, s.session.activeFeatures, s.session.voiceSession, s.outbox.queue, s.log, s.past)
    && (s.session.voiceEnabled ==> HasVoice(s.session.activeFeatures))
  }

  lemma BooksAreBalanced(options: Options, activeFeatures: I32, voiceSession: Option<I32>,
                         queue: seq<seq<Byte>>, log: Log, past: seq<Log>)
    requires Books(options, activeFeatures, voiceSession, queue, log, past)
    ensures Balanced(log)
  {
    hide Frames, Replies, ProgressOf, Owed, FeaturesAfter, HandledIn;
  }

  lemma HandledOfOneMore(past: seq<Log>, log: Log)
    ensures HandledIn(past + [log]) == HandledIn(past) + log.handled
  {
    assert (past + [log])[..|past|] == past;
  }

  lemma EmptyBooks(features: I32)
    ensures Frames([]) == [] && Replies([]) == [] && ProgressOf([]) == Closed
    ensures Owed(features, []) == [] && FeaturesAfter(features, []) == features
  {
  }

  lemma CloseStreamBalances(s: State)
    requires Ledger(s)
    ensures Ledger(CloseStream(s))
  {
    hide OptionMask, FeaturesAfter, Balanced, Frames, Owed, Replies, ProgressOf, HasVoice, HandledIn;
    BooksAreBalanced(s.options, s.session.activeFeatures, s.session.voiceSession, s.outbox.queue, s.log, s.past);
    HandledOfOneMore(s.past, s.log);
    FeaturesInParts(OptionMask(s.options), HandledIn(s.past), s.log.handled);
    EmptyBooks(s.session.activeFeatures);
  }

  lemma BeginConnectBalances(s: State, reconnecting: bool, loads: bool)
    requires Ledger(s)
    ensures Ledger(BeginConnect(s, reconnecting, loads))
  {
    CloseStreamBalances(s);
    hide Books;
  }

  lemma LossBalances(s: State, gen: nat)
    requires Ledger(s)
    ensures Ledger(HandleConnectionLoss(s, gen))
    ensures Ledger(ConnectionFailed(s, gen))
    ensures Ledger(AuthenticationFailed(s, gen))
  {
    CloseStreamBalances(s);
    hide Books;
  }

  /** Keys, texts and links are neither replies nor voice messages. */
  predicate IsPlain(o: Outgoing) {
    !IsReply(o) && !IsVoice(o)
  }

  lemma FramesOfOneMore(q: seq<Message>, o: Message)
    ensures Frames(q + [o]) == Frames(q) + [Frame(Encode(o))]
  {
    hide Frame, Encode;
  }

  /** Queueing a message that is no reply keeps the books, with the voice session it leads to. */
  lemma QueueMessageBalances(s: State, o: Message, session: Option<I32>)
    requires Ledger(s) && s.link.stream && !IsReply(o)
    requires Advance(ProgressOf(s.log.queued), o) == if session.Some? then Open(session.value) else Closed
    ensures var r := QueueMessage(s, o);
      Books(r.options, r.session.activeFeatures, session, r.outbox.queue, r.log, r.past)
  {
    FramesOfOneMore(s.log.queued, o);
    RepliesOfOneMore(s.log.queued, o);
    ProgressOfOneMore(s.log.queued, o);
    LastMovedIn(s.log.written, s.outbox.queue, Frame(Encode(o)));
    hide QueueMessage, Frames, Replies, ProgressOf, Owed, FeaturesAfter, Encode, Frame, Balanced;
  }

  lemma PlainMessageBalances(s: State, o: Message)
    requires Ledger(s) && IsPlain(o)
    ensures Ledger(QueueMessage(s, o))
  {
    if s.link.stream {
      QueueMessageBalances(s, o, s.session.voiceSession);
    }
    hide QueueMessage, Replies, ProgressOf, Owed, Frames, FeaturesAfter, Balanced;
  }

  lemma {:induction false} QueuePayloadsBalances(s: State, session: I32, chunks: seq<seq<Byte>>)
    requires forall c | c in chunks :: |c| <= CHUNK_SIZE
    requires Ledger(s) && s.link.stream && s.session.voiceSession == Some(session)
    ensures Ledger(QueuePayloads(s, session, chunks))
    decreases |chunks|
  {
    if chunks != [] {
      QueueMessageBalances(s, VoicePayload(session, chunks[0]), Some(session));
      hide QueueMessage, Books;
      QueuePayloadsBalances(QueueMessage(s, VoicePayload(session, chunks[0])), session, chunks[1..]);
    }
  }

  // ------------------------------------------------------------ messages

  /** What handling a message with a reply comes to. */
  lemma ReplyFrame(s: State, message: seq<Byte>)
    requires s.link.stream && Reply(s.session.activeFeatures, Parsed(message)).Some?
    ensures var m := Parsed(message);
      var o := Reply(s.session.activeFeatures, m).value;
      var r := HandleMessage(s, message);
      && r.options == s.options && r.past == s.past && r.session.voiceSession == s.session.voiceSession
      && r.session.activeFeatures == Restricted(s.session.activeFeatures, m)
      && (r.session.voiceEnabled ==>
          if m.Configure? then HasVoice(r.session.activeFeatures) else r.session == s.session)
      && r.outbox.queue == s.outbox.queue + [Frame(Encode(o))]
      && r.log == s.log.(queued := s.log.queued + [o], handled := s.log.handled + [message])
      && IsReply(o) && !IsVoice(o)
  {
    hide Parsed, Frame, Encode, And32, HasVoice, QueueMessage;
  }

  /** Handling a message with a reply: the reply is owed, and it is queued. */
  lemma ReplyBalances(s: State, message: seq<Byte>)
    requires Ledger(s) && s.link.stream && Reply(s.session.activeFeatures, Parsed(message)).Some?
    ensures Ledger(HandleMessage(s, message))
  {
    hide Parsed, Frame, Encode, OptionMask, HandledIn, Balanced, And32, HasVoice, HandleMessage, Reply, Restricted,
      Frames, Replies, ProgressOf, Owed, FeaturesAfter;
    ReplyFrame(s, message);
    var o := Reply(s.session.activeFeatures, Parsed(message)).value;
    FramesOfOneMore(s.log.queued, o);
    RepliesOfOneMore(s.log.queued, o);
    ProgressOfOneMore(s.log.queued, o);
    OwedForOneMore(s.log.features, s.log.handled, message);
    LastMovedIn(s.log.written, s.outbox.queue, Frame(Encode(o)));
  }

  /** A message that is owed no reply. */
  lemma NotedBalances(s: State, message: seq<Byte>)
    requires Ledger(s) && Reply(s.session.activeFeatures, Parsed(message)).None?
    ensures Ledger(Noted(s, message))
  {
    hide Parsed, OptionMask, HandledIn, Balanced, And32, HasVoice;
    OwedForOneMore(s.log.features, s.log.handled, message);
    assert Owed(s.log.features, s.log.handled + [message]) == Owed(s.log.features, s.log.handled);
    hide Frames, Replies, ProgressOf, Owed, FeaturesAfter;
  }

  lemma VoiceBeginBalances(s: State, session: I32)
    requires Ledger(s) && s.link.stream && s.session.voiceSession.None?
    ensures Ledger(QueueMessage(s.(session := s.session.(voiceStarting := false, voiceSession := Some(session)),
                                   timers := s.timers.(voiceArmed := false)),
                                VoiceBegin(session)))
  {
    hide HasVoice, QueueMessage, Frames, Replies, Owed, FeaturesAfter, HandledIn, Balanced;
    var t := s.(timers := s.timers.(voiceArmed := false));
    QueueMessageBalances(t, VoiceBegin(session), Some(session));
    hide ProgressOf;
  }

  lemma OtherDigestBalances(s: State, m: Incoming)
    requires Ledger(s) && !m.Configure? && !(m.VoiceStarted? && s.session.voiceStarting)
    ensures Ledger(Digest(s, m))
  {
    hide Books, HasVoice;
  }

  /** A message without an answer is digested. */
  lemma UnansweredIsDigested(s: State, message: seq<Byte>)
    requires Answer(s.session, Parsed(message)).None?
    ensures HandleMessage(s, message) == Digest(Noted(s, message), Parsed(message))
  {
    hide Parsed, Digest, Noted, Answer;
  }

  lemma SilentBalances(s: State, message: seq<Byte>)
    requires Ledger(s) && s.link.stream && Reply(s.session.activeFeatures, Parsed(message)).None?
    requires VoiceExclusive(s)
    ensures Ledger(HandleMessage(s, message))
  {
    hide Parsed, QueueMessage, Ledger, Digest;
    NotedBalances(s, message);
    var m := Parsed(message);
    if m.VoiceStarted? && s.session.voiceStarting {
      VoiceAnswerBalances(s, message);
    } else {
      UnansweredIsDigested(s, message);
      OtherDigestBalances(Noted(s, message), m);
      hide HandleMessage;
    }
  }

  lemma VoiceAnswerBalances(s: State, message: seq<Byte>)
    requires Ledger(Noted(s, message)) && s.link.stream && VoiceExclusive(s)
    requires Parsed(message).VoiceStarted? && s.session.voiceStarting
    ensures Ledger(HandleMessage(s, message))
  {
    hide Parsed, QueueMessage, Ledger;
    VoiceBeginBalances(Noted(s, message), Parsed(message).session);
  }

  /** While a voice session is being started there is none. */
  predicate VoiceExclusive(s: State) {
    !(s.session.voiceStarting && s.session.voiceSession.Some?)
  }

  lemma HandleMessageBalances(s: State, message: seq<Byte>)
    requires Ledger(s) && s.link.stream && VoiceExclusive(s)
    ensures Ledger(HandleMessage(s, message))
  {
    hide HandleMessage, Ledger;
    if Reply(s.session.activeFeatures, Parsed(message)).Some? {
      ReplyBalances(s, message);
    } else {
      SilentBalances(s, message);
    }
  }

  // ------------------------------------------------------------ the steps

  lemma LengthByteBalances(s: State, b: Byte)
    requires Ledger(s) && s.link.stream && VoiceExclusive(s)
    ensures Ledger(LengthByte(s, s.link.generation, b))
  {
    hide Accumulate, HandleConnectionLoss, HandleMessage, Books;
    var t := s.(inbox := s.inbox.(length := Accumulate(s.inbox.length, b, s.inbox.shift)));
    if Continues(b) {
      LossBalances(t.(inbox := t.inbox.(shift := t.inbox.shift + 7)), s.link.generation);
    } else {
      LossBalances(t, s.link.generation);
      HandleMessageBalances(t.(inbox := t.inbox.(bodySize := t.inbox.length)), []);
    }
  }

  lemma LengthByteReadBalances(s: State, g: nat, input: Option<Byte>)
    requires Pending(s) && Shape(s) && Ledger(s) && ReadLength(g) in s.ops
    ensures Ledger(LengthByteRead(s, g, input))
  {
    var t := Take(s, ReadLength(g));
    hide ConnectionFailed, LengthByte, Books;
    LossBalances(t, g);
    if g == s.link.generation && input.Some? {
      ReceivedBalances(t, [input.value]);
      LengthByteBalances(Received(t, [input.value]), input.value);
    }
  }

  lemma BodyReadBalances(s: State, g: nat, input: Option<seq<Byte>>)
    requires Pending(s) && Shape(s) && Ledger(s) && ReadBody(g) in s.ops
    ensures Ledger(BodyRead(s, g, input))
  {
    var t := Take(s, ReadBody(g));
    hide ConnectionFailed, HandleMessage, Books;
    LossBalances(t, g);
    if g == s.link.generation && input.Some? {
      ReceivedBalances(t, input.value);
      HandleMessageBalances(ResetIdleTimer(Received(t, input.value)), input.value);
    }
  }

  lemma ReceivedBalances(s: State, bytes: seq<Byte>)
    requires Ledger(s)
    ensures Ledger(Received(s, bytes)) && Ledger(ResetIdleTimer(Received(s, bytes)))
  {
    hide Frames, Replies, ProgressOf, Owed, FeaturesAfter, Balanced, HandledIn;
  }

  lemma PopBalances(s: State)
    requires Ledger(s) && s.outbox.queue != []
    ensures Ledger(s.(outbox := s.outbox.(queue := s.outbox.queue[1..]),
                      log := s.log.(written := s.log.written + [s.outbox.queue[0]])))
  {
    hide HasVoice;
    PopBooks(s.options, s.session.activeFeatures, s.session.voiceSession, s.outbox.queue, s.log, s.past);
    hide Books;
  }

  lemma PopBooks(options: Options, activeFeatures: I32, voiceSession: Option<I32>,
                 queue: seq<seq<Byte>>, log: Log, past: seq<Log>)
    requires Books(options, activeFeatures, voiceSession, queue, log, past) && queue != []
    ensures Books(options, activeFeatures, voiceSession, queue[1..],
                  log.(written := log.written + [queue[0]]), past)
  {
    hide Frames, Replies, ProgressOf, Owed, FeaturesAfter, Balanced, HandledIn, OptionMask;
    MovedOver(log.written, queue);
  }

  lemma LastMovedIn(written: seq<seq<Byte>>, queue: seq<seq<Byte>>, frame: seq<Byte>)
    ensures written + (queue + [frame]) == (written + queue) + [frame]
  {
  }

  lemma MovedOver(written: seq<seq<Byte>>, queue: seq<seq<Byte>>)
    requires queue != []
    ensures written + queue == (written + [queue[0]]) + queue[1..]
  {
  }

  lemma WrittenBalances(s: State, g: nat, ok: bool)
    requires Ledger(s)
    ensures Ledger(Written(s, g, ok))
  {
    var t := Take(s, Write(g));
    hide Books, ConnectionFailed;
    LossBalances(t.(outbox := t.outbox.(busy := false)), g);
    if s.outbox.queue != [] {
      PopBalances(t);
    }
  }

  lemma ResolvedBalances(s: State, g: nat, ok: bool)
    requires Ledger(s)
    ensures Ledger(Resolved(s, g, ok))
  {
    hide Books, ConnectionFailed;
    LossBalances(Take(s, Resolve(g)), g);
  }

  lemma TcpConnectedBalances(s: State, g: nat, ok: bool)
    requires Ledger(s)
    ensures Ledger(TcpConnected(s, g, ok))
  {
    hide Books, ConnectionFailed;
    LossBalances(Take(s, Connect(g)), g);
  }

  lemma HandshakenBalances(s: State, g: nat, ok: bool)
    requires Ledger(s)
    ensures Ledger(Handshaken(s, g, ok))
  {
    hide Books, AuthenticationFailed;
    LossBalances(Take(s, Handshake(g)), g);
  }

  lemma UserConnectBalances(s: State, loads: bool)
    requires Ledger(s)
    ensures Ledger(UserConnect(s, loads))
  {
    hide Books, BeginConnect;
    BeginConnectBalances(ResetDelay(s.(link := s.link.(userDisconnect := false),
                                       timers := s.timers.(reconnectArmed := false))), false, loads);
  }

  lemma UserDisconnectBalances(s: State)
    requires Ledger(s)
    ensures Ledger(UserDisconnect(s))
  {
    hide Books, CloseStream;
    CloseStreamBalances(s.(link := s.link.(userDisconnect := true),
                           timers := s.timers.(reconnectArmed := false, voiceArmed := false, idleArmed := None)));
  }

  lemma ReconnectBalances(s: State, loads: bool)
    requires Ledger(s) && s.timers.reconnectFired > 0
    ensures Ledger(ReconnectRuns(s, loads))
  {
    hide Books, BeginConnect;
    BeginConnectBalances(s.(timers := s.timers.(reconnectFired := s.timers.reconnectFired - 1)), true, loads);
  }

  lemma IdleBalances(s: State, g: nat)
    requires Ledger(s)
    ensures Ledger(IdleRuns(s, g))
  {
    hide Books, HandleConnectionLoss;
    LossBalances(s.(timers := s.timers.(idleFired := s.timers.idleFired - multiset{g})), g);
  }

  lemma TimersBalance(s: State, e: Event)
    requires Ledger(s) && Enabled(s, e)
    requires e.ReconnectExpires? || e.IdleExpires? || e.VoiceExpires? || e.OnVoiceTimer?
    ensures Ledger(Step(s, e))
  {
    hide Books;
  }

  lemma StartVoiceBalances(s: State)
    requires Ledger(s)
    ensures Ledger(StartVoice(s))
  {
    var t := s.(session := s.session.(voiceStarting := true));
    hide QueueMessage, Books;
    PlainMessageBalances(t, Key(KEYCODE_SEARCH, SHORT));
  }

  lemma StopVoiceBalances(s: State)
    requires Pending(s) && Shape(s) && Ledger(s)
    ensures Ledger(StopVoice(s))
  {
    var t := s.(timers := s.timers.(voiceArmed := false), session := s.session.(voiceStarting := false));
    assert s.session.voiceSession.Some? ==> s.link.stream;
    hide QueueMessage, Books, Pending, Shape;
    if s.session.voiceSession.Some? {
      OpenSession(t);
      QueueMessageBalances(t, VoiceEnd(s.session.voiceSession.value), None);
    }
  }

  lemma OpenSession(s: State)
    requires Ledger(s) && s.session.voiceSession.Some?
    ensures ProgressOf(s.log.queued) == Open(s.session.voiceSession.value)
  {
  }

  lemma SendVoiceDataBalances(s: State, pcm: seq<Byte>)
    requires Pending(s) && Shape(s) && Ledger(s)
    ensures Ledger(SendVoiceData(s, pcm))
  {
    hide QueuePayloads, Chunks, Books;
    if s.session.voiceSession.Some? {
      ChunkSizes(pcm);
      QueuePayloadsBalances(s, s.session.voiceSession.value, Chunks(pcm));
    }
  }

  lemma StepKeepsLedger(s: State, e: Event)
    requires Pending(s) && Shape(s) && Ledger(s) && Enabled(s, e)
    ensures Ledger(Step(s, e))
  {
    hide Ledger, Pending, Shape, Resolved, TcpConnected, Handshaken, LengthByteRead, BodyRead, Written, UserConnect,
      UserDisconnect, ReconnectRuns, IdleRuns, QueueMessage, StartVoice, StopVoice, SendVoiceData;
    match e
    case CallConnect(loads) => UserConnectBalances(s, loads);
    case CallDisconnect => UserDisconnectBalances(s);
    case CallSendKey(code, direction) => PlainMessageBalances(s, Key(code, direction));
    case CallSendText(text) =>
      PlainMessageBalances(s, Text(text, s.session.imeCounter, s.session.imeFieldCounter));
    case CallLaunchApp(link) => PlainMessageBalances(s, AppLink(link));
    case CallStartVoice => StartVoiceBalances(s);
    case CallStopVoice => StopVoiceBalances(s);
    case CallSendVoiceData(pcm) => SendVoiceDataBalances(s, pcm);
    case OnResolved(g, ok) => ResolvedBalances(s, g, ok);
    case OnConnected(g, ok) => TcpConnectedBalances(s, g, ok);
    case OnHandshake(g, ok) => HandshakenBalances(s, g, ok);
    case OnLengthByte(g, input) => LengthByteReadBalances(s, g, input);
    case OnBody(g, body) => BodyReadBalances(s, g, body);
    case OnWritten(g, ok) => WrittenBalances(s, g, ok);
    case OnReconnect(loads) => ReconnectBalances(s, loads);
    case OnIdle(g) => IdleBalances(s, g);
    case _ => TimersBalance(s, e); hide Step;
  }
}
