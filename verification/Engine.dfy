/**
 The connection engine (`AndroidTvRemote::Impl`, src/android_tv_remote.cpp) as
 a state machine: one function per member function, one step per posted call
 or completion handler that runs on the I/O thread.

 Beside its own fields a state holds the handlers that are pending, and a
 history that nothing reads: the messages of each generation.
 */
module Engine {
  import opened Wrappers
  import opened Ints
  import opened Varint
  import opened Framing
  import opened Messages
  import opened Voice

  const FIRST_DELAY := 100
  const LONGEST_DELAY := 30000

  const FEATURE_VOICE := 8
  const FEATURE_IME := 4
  /** Ping, key, power, volume and app link: bits 0, 1, 5, 6 and 9. */
  const BASE_FEATURES := 1 + 2 + 32 + 64 + 512

  datatype Connection = Disconnected | Connecting | Connected | Reconnecting

  datatype Options = Options(enableIme: bool, enableVoice: bool, autoReconnect: bool)

  /** A completion handler that waits for the network, with the generation it captured. */
  datatype Op =
    | Resolve(gen: nat)
    | Connect(gen: nat)
    | Handshake(gen: nat)
    | ReadLength(gen: nat)
    | ReadBody(gen: nat)
    | Write(gen: nat)

  /**
   The waits on the three timers. `armed` is the wait that `cancel` and
   `expires_after` still reach; a wait that has expired is `fired`: its handler
   is queued with success and runs sooner or later, whatever is cancelled.
   */
  datatype Timers = Timers(
    reconnectArmed: bool, reconnectFired: nat,
    idleArmed: Option<nat>, idleFired: multiset<nat>,
    voiceArmed: bool, voiceFired: nat)

  /**
   The history of one generation: the features it began with, the messages
   queued, the frames completely written, the bytes received and the
   messages handled.
   */
  datatype Log = Log(
    features: I32,
    queued: seq<Message>, written: seq<seq<Byte>>,
    received: seq<Byte>, handled: seq<seq<Byte>>)

  /**
   The connection and what is known of the user's wish for it. `context` is the
   TLS context, once it exists: whether the client's identity was loaded into it.
   */
  datatype Link = Link(
    userDisconnect: bool, connection: Connection, stream: bool, context: Option<bool>,
    generation: nat, reconnectDelay: nat)

  datatype Session = Session(
    activeFeatures: I32, supportedFeatures: I32, voiceEnabled: bool,
    imeCounter: I32, imeFieldCounter: I32,
    voiceStarting: bool, voiceSession: Option<I32>)

  /** `readLength_`, `readShift_` and the size of `readBody_`. */
  datatype Inbox = Inbox(length: U64, shift: nat, bodySize: nat)

  /** `writeQueue_` and `writeInProgress_`. */
  datatype Outbox = Outbox(queue: seq<seq<Byte>>, busy: bool)

  datatype State = State(
    options: Options, link: Link, session: Session, inbox: Inbox, outbox: Outbox,
    // the pending handlers
    ops: multiset<Op>, timers: Timers,
    // the history: delays scheduled since the delay was reset, this and earlier generations
    delays: seq<nat>, log: Log, past: seq<Log>)

  function OptionMask(options: Options): (mask: I32)
    ensures mask >= 0
  {
    BASE_FEATURES + (if options.enableIme then FEATURE_IME else 0)
      + if options.enableVoice then FEATURE_VOICE else 0
  }

  function EmptyLog(features: I32): Log {
    Log(features, [], [], [], [])
  }

  function Initial(options: Options): State {
    var mask := OptionMask(options);
    State(options, Link(true, Disconnected, false, None, 0, FIRST_DELAY),
          Session(mask, 0, false, 0, 0, false, None), Inbox(0, 0, 0), Outbox([], false),
          multiset{}, Timers(false, 0, None, multiset{}, false, 0),
          [], EmptyLog(mask), [])
  }

  // --------------------------------------------------------- member functions

  function SetConnection(s: State, c: Connection): State {
    s.(link := s.link.(connection := c))
  }

  /** A handler becomes pending. */
  function Post(s: State, op: Op): State {
    s.(ops := s.ops + multiset{op})
  }

  /** A pending handler runs. */
  function Take(s: State, op: Op): State {
    s.(ops := s.ops - multiset{op})
  }

  function CloseStream(s: State): State {
    s.(link := s.link.(generation := s.link.generation + 1, stream := false),
       session := s.session.(voiceStarting := false, voiceSession := None),
       inbox := s.inbox.(length := 0, shift := 0),
       outbox := Outbox([], false),
       log := EmptyLog(s.session.activeFeatures), past := s.past + [s.log])
  }

  /**
   `ensureSslContext`: the context is made first and then loaded, so it stays
   when loading fails, and is never loaded again.
   */
  function EnsureContext(s: State, loads: bool): State {
    if s.link.context.Some? then s else s.(link := s.link.(context := Some(loads)))
  }

  /** `loads` tells whether the certificate and key can be loaded, if it comes to that. */
  function BeginConnect(s: State, reconnecting: bool, loads: bool): State {
    if s.link.userDisconnect then s else
    var c := EnsureContext(CloseStream(s), loads);
    if s.link.context.None? && !loads then SetConnection(c, Disconnected)
    else
      Post(c.(link := c.link.(stream := true, connection := if reconnecting then Reconnecting else Connecting)),
           Resolve(c.link.generation))
  }

  function NextDelay(delay: nat): nat {
    Min(delay * 2, LONGEST_DELAY)
  }

  function ScheduleReconnect(s: State): State {
    s.(link := s.link.(connection := Reconnecting, reconnectDelay := NextDelay(s.link.reconnectDelay)),
       timers := s.timers.(reconnectArmed := true),
       delays := s.delays + [s.link.reconnectDelay])
  }

  function HandleConnectionLoss(s: State, gen: nat): State {
    if gen != s.link.generation then s else
    var c := CloseStream(s);
    if c.options.autoReconnect && !c.link.userDisconnect then ScheduleReconnect(c)
    else SetConnection(c, Disconnected)
  }

  function ConnectionFailed(s: State, gen: nat): State {
    if gen != s.link.generation || s.link.userDisconnect then s else HandleConnectionLoss(s, gen)
  }

  function AuthenticationFailed(s: State, gen: nat): State {
    if gen != s.link.generation || s.link.userDisconnect then s
    else SetConnection(CloseStream(s), Disconnected)
  }

  function ReadOneLengthByte(s: State, gen: nat): State {
    if !s.link.stream || gen != s.link.generation then s else Post(s, ReadLength(gen))
  }

  function BeginReadLength(s: State, gen: nat): State {
    if !s.link.stream || gen != s.link.generation then s
    else ReadOneLengthByte(s.(inbox := s.inbox.(length := 0, shift := 0)), gen)
  }

  function ResetIdleTimer(s: State): State {
    s.(timers := s.timers.(idleArmed := Some(s.link.generation)))
  }

  function BeginWrite(s: State): State {
    if !s.link.stream || s.outbox.queue == [] then s.(outbox := s.outbox.(busy := false))
    else Post(s.(outbox := s.outbox.(busy := true)), Write(s.link.generation))
  }

  /** Only `stream_` is looked at: a message can be queued before the handshake is over. */
  function QueueMessage(s: State, o: Message): (r: State)
    ensures s.link.stream ==> r == s.(timers := ResetIdleTimer(s).timers,
      outbox := Outbox(s.outbox.queue + [Frame(Encode(o))], true),
      ops := if s.outbox.busy then s.ops else s.ops + multiset{Write(s.link.generation)},
      log := s.log.(queued := s.log.queued + [o]))
    ensures !s.link.stream ==> r == s
  {
    if !s.link.stream then s else
    var q := ResetIdleTimer(s);
    var q := q.(outbox := q.outbox.(queue := q.outbox.queue + [Frame(Encode(o))]),
                log := q.log.(queued := q.log.queued + [o]));
    if !q.outbox.busy then BeginWrite(q) else q
  }

  /** The payloads of one `sendVoiceData` call. */
  function QueuePayloads(s: State, session: I32, chunks: seq<seq<Byte>>): (r: State)
    requires forall c | c in chunks :: |c| <= CHUNK_SIZE
    ensures r == s.(timers := r.timers, outbox := r.outbox, ops := r.ops, log := r.log)
    ensures r.log == s.log.(queued := r.log.queued)
    ensures r.timers == s.timers.(idleArmed := r.timers.idleArmed)
    decreases |chunks|
  {
    if chunks == [] then s
    else QueuePayloads(QueueMessage(s, VoicePayload(session, chunks[0])), session, chunks[1..])
  }

  function HasVoice(features: I32): bool {
    And32(features, FEATURE_VOICE) != 0
  }

  /** What a message changes, apart from the reply. */
  function Digest(s: State, m: Incoming): State {
    match m
    case Configure(supported, _) =>
      var active := And32(s.session.activeFeatures, supported);
      s.(session := s.session.(supportedFeatures := supported, activeFeatures := active,
                               voiceEnabled := HasVoice(active)))
    case ImeBatchEdit(ime, field) => s.(session := s.session.(imeCounter := ime, imeFieldCounter := field))
    case Start(_) => SetConnection(s, Connected)
    case VoiceStarted(session) =>
      if !s.session.voiceStarting then s
      else s.(session := s.session.(voiceStarting := false, voiceSession := Some(session)),
              timers := s.timers.(voiceArmed := false))
    case _ => s
  }

  /** What configure, set-active and ping messages are always answered with. */
  function Reply(activeFeatures: I32, m: Incoming): Option<Message> {
    match m
    case Configure(supported, _) => Some(ConfigureReply(And32(activeFeatures, supported)))
    case SetActive => Some(SetActiveReply(activeFeatures))
    case Ping(value) => Some(PingReply(value))
    case _ => None
  }

  /** A voice-begin message is answered only while a voice session is being started. */
  function Answer(s: Session, m: Incoming): Option<Message> {
    match m
    case VoiceStarted(session) => if s.voiceStarting then Some(VoiceBegin(session)) else None
    case _ => Reply(s.activeFeatures, m)
  }

  function Noted(s: State, message: seq<Byte>): State {
    s.(log := s.log.(handled := s.log.handled + [message]))
  }

  function HandleMessage(s: State, message: seq<Byte>): State {
    var m := Parsed(message);
    var d := Digest(Noted(s, message), m);
    match Answer(s.session, m)
    case None => d
    case Some(o) => QueueMessage(d, o)
  }

  // ----------------------------------------------------- completion handlers

  function Resolved(s: State, gen: nat, ok: bool): State {
    var s := Take(s, Resolve(gen));
    if gen != s.link.generation then s
    else if !ok then ConnectionFailed(s, gen)
    else Post(s, Connect(gen))
  }

  function TcpConnected(s: State, gen: nat, ok: bool): State {
    var s := Take(s, Connect(gen));
    if gen != s.link.generation then s
    else if !ok then ConnectionFailed(s, gen)
    else Post(s, Handshake(gen))
  }

  function ResetDelay(s: State): State {
    s.(link := s.link.(reconnectDelay := FIRST_DELAY), delays := [])
  }

  function Handshaken(s: State, gen: nat, ok: bool): State {
    var s := Take(s, Handshake(gen));
    if gen != s.link.generation then s
    else if !ok then AuthenticationFailed(s, gen)
    else ResetIdleTimer(BeginReadLength(ResetDelay(s), gen))
  }

  function Received(s: State, bytes: seq<Byte>): State {
    s.(log := s.log.(received := s.log.received + bytes))
  }

  /** One byte of a length, or an error. */
  function LengthByteRead(s: State, gen: nat, input: Option<Byte>): State {
    var s := Take(s, ReadLength(gen));
    if gen != s.link.generation then s
    else match input
      case None => ConnectionFailed(s, gen)
      case Some(b) => LengthByte(Received(s, [b]), gen, b)
  }

  function LengthByte(s: State, gen: nat, b: Byte): State {
    var s := s.(inbox := s.inbox.(length := Accumulate(s.inbox.length, b, s.inbox.shift)));
    if Continues(b) then LengthGoesOn(s, gen) else LengthEnds(s, gen)
  }

  function LengthGoesOn(s: State, gen: nat): State {
    var s := s.(inbox := s.inbox.(shift := s.inbox.shift + 7));
    if s.inbox.shift > 63 then HandleConnectionLoss(s, gen) else ReadOneLengthByte(s, gen)
  }

  function LengthEnds(s: State, gen: nat): State {
    if s.inbox.length > MAX_FRAME_SIZE then HandleConnectionLoss(s, gen)
    else
      var s := s.(inbox := s.inbox.(bodySize := s.inbox.length));
      if s.inbox.bodySize == 0 then BeginReadLength(HandleMessage(s, []), gen)
      else Post(s, ReadBody(gen))
  }

  /** The whole body, or an error. */
  function BodyRead(s: State, gen: nat, input: Option<seq<Byte>>): State {
    var s := Take(s, ReadBody(gen));
    if gen != s.link.generation then s
    else match input
      case None => ConnectionFailed(s, gen)
      case Some(body) => BeginReadLength(HandleMessage(ResetIdleTimer(Received(s, body)), body), gen)
  }

  function Written(s: State, gen: nat, ok: bool): State {
    var s := Take(s, Write(gen));
    if gen != s.link.generation then s
    else if !ok then ConnectionFailed(s.(outbox := s.outbox.(busy := false)), gen)
    else if s.outbox.queue == [] then s
    else BeginWrite(s.(outbox := s.outbox.(queue := s.outbox.queue[1..]),
                       log := s.log.(written := s.log.written + [s.outbox.queue[0]])))
  }

  function ReconnectRuns(s: State, loads: bool): State
    requires s.timers.reconnectFired > 0
  {
    var s := s.(timers := s.timers.(reconnectFired := s.timers.reconnectFired - 1));
    if s.link.userDisconnect then s else BeginConnect(s, true, loads)
  }

  function IdleRuns(s: State, gen: nat): State {
    var s := s.(timers := s.timers.(idleFired := s.timers.idleFired - multiset{gen}));
    if s.link.userDisconnect || gen != s.link.generation then s else HandleConnectionLoss(s, gen)
  }

  function VoiceTimerRuns(s: State): State
    requires s.timers.voiceFired > 0
  {
    s.(timers := s.timers.(voiceFired := s.timers.voiceFired - 1),
       session := s.session.(voiceStarting := false))
  }

  // ------------------------------------------------------------ posted calls

  function UserConnect(s: State, loads: bool): State {
    BeginConnect(ResetDelay(s.(link := s.link.(userDisconnect := false),
                               timers := s.timers.(reconnectArmed := false))),
                 false, loads)
  }

  /** `disconnect` and `disconnectAndWait`: they differ in a callback only. */
  function UserDisconnect(s: State): State {
    var c := CloseStream(s.(link := s.link.(userDisconnect := true),
                            timers := s.timers.(reconnectArmed := false, voiceArmed := false, idleArmed := None)));
    SetConnection(c, Disconnected)
  }

  const KEYCODE_SEARCH: I32 := 84
  const SHORT: Direction := 3

  predicate MayStartVoice(s: State) {
    && s.session.voiceEnabled && !s.session.voiceStarting && s.session.voiceSession.None?
    && s.link.connection == Connected
  }

  function StartVoice(s: State): State {
    if !MayStartVoice(s) then s
    else
      var s := QueueMessage(s.(session := s.session.(voiceStarting := true)), Key(KEYCODE_SEARCH, SHORT));
      s.(timers := s.timers.(voiceArmed := true))
  }

  function SendVoiceData(s: State, pcm: seq<Byte>): State {
    if s.session.voiceSession.None? then s
    else ChunkSizes(pcm); QueuePayloads(s, s.session.voiceSession.value, Chunks(pcm))
  }

  function StopVoice(s: State): State {
    var s := s.(timers := s.timers.(voiceArmed := false), session := s.session.(voiceStarting := false));
    match s.session.voiceSession
    case None => s
    case Some(session) =>
      var s := QueueMessage(s, VoiceEnd(session));
      s.(session := s.session.(voiceSession := None))
  }

  // ------------------------------------------------------------ runs

  datatype Event =
    // posted calls
    | CallConnect(loads: bool)
    | CallDisconnect
    | CallSendKey(code: I32, direction: Direction)
    | CallSendText(text: seq<Byte>)
    | CallLaunchApp(link: seq<Byte>)
    | CallStartVoice
    | CallSendVoiceData(pcm: seq<Byte>)
    | CallStopVoice
    // completions
    | OnResolved(gen: nat, ok: bool)
    | OnConnected(gen: nat, ok: bool)
    | OnHandshake(gen: nat, ok: bool)
    | OnLengthByte(gen: nat, byte: Option<Byte>)
    | OnBody(gen: nat, body: Option<seq<Byte>>)
    | OnWritten(gen: nat, ok: bool)
    // a timer expires; later the handler of the wait runs
    | ReconnectExpires
    | IdleExpires
    | VoiceExpires
    | OnReconnect(loads: bool)
    | OnIdle(gen: nat)
    | OnVoiceTimer

  /** An operation on the network completes. */
  predicate IsCompletion(e: Event) {
    e.OnResolved? || e.OnConnected? || e.OnHandshake? || e.OnLengthByte? || e.OnBody? || e.OnWritten?
  }

  /** A timer expires, or the handler of an expired wait runs. */
  predicate IsTimer(e: Event) {
    e.ReconnectExpires? || e.IdleExpires? || e.VoiceExpires? || e.OnReconnect? || e.OnIdle? || e.OnVoiceTimer?
  }

  predicate Enabled(s: State, e: Event) {
    match e
    case CallSendText(text) => text != [] && CursorFits(text)
    case CallLaunchApp(link) => |link| < TWO63
    case OnResolved(g, _) => Resolve(g) in s.ops
    case OnConnected(g, _) => Connect(g) in s.ops
    case OnHandshake(g, _) => Handshake(g) in s.ops
    case OnLengthByte(g, _) => ReadLength(g) in s.ops
    case OnBody(g, body) =>
      ReadBody(g) in s.ops && (g == s.link.generation && body.Some? ==> |body.value| == s.inbox.bodySize)
    case OnWritten(g, _) => Write(g) in s.ops
    case ReconnectExpires => s.timers.reconnectArmed
    case IdleExpires => s.timers.idleArmed.Some?
    case VoiceExpires => s.timers.voiceArmed
    case OnReconnect(_) => s.timers.reconnectFired > 0
    case OnIdle(g) => g in s.timers.idleFired
    case OnVoiceTimer => s.timers.voiceFired > 0
    case _ => true
  }

  function Step(s: State, e: Event): State
    requires Enabled(s, e)
  {
    match e
    case CallConnect(loads) => UserConnect(s, loads)
    case CallDisconnect => UserDisconnect(s)
    case CallSendKey(code, direction) => QueueMessage(s, Key(code, direction))
    case CallSendText(text) => QueueMessage(s, Text(text, s.session.imeCounter, s.session.imeFieldCounter))
    case CallLaunchApp(link) => QueueMessage(s, AppLink(link))
    case CallStartVoice => StartVoice(s)
    case CallSendVoiceData(pcm) => SendVoiceData(s, pcm)
    case CallStopVoice => StopVoice(s)
    case OnResolved(g, ok) => Resolved(s, g, ok)
    case OnConnected(g, ok) => TcpConnected(s, g, ok)
    case OnHandshake(g, ok) => Handshaken(s, g, ok)
    case OnLengthByte(g, b) => LengthByteRead(s, g, b)
    case OnBody(g, body) => BodyRead(s, g, body)
    case OnWritten(g, ok) => Written(s, g, ok)
    case ReconnectExpires =>
      s.(timers := s.timers.(reconnectArmed := false, reconnectFired := s.timers.reconnectFired + 1))
    case IdleExpires =>
      s.(timers := s.timers.(idleArmed := None,
                             idleFired := s.timers.idleFired + multiset{s.timers.idleArmed.value}))
    case VoiceExpires =>
      s.(timers := s.timers.(voiceArmed := false, voiceFired := s.timers.voiceFired + 1))
    case OnReconnect(loads) => ReconnectRuns(s, loads)
    case OnIdle(g) => IdleRuns(s, g)
    case OnVoiceTimer => VoiceTimerRuns(s)
  }

  /** The events can happen one after the other. */
  predicate Possible(s: State, events: seq<Event>)
    decreases |events|
  {
    events == [] || (Enabled(s, events[0]) && Possible(Step(s, events[0]), events[1..]))
  }

  function Run(s: State, events: seq<Event>): State
    requires Possible(s, events)
    decreases |events|
  {
    if events == [] then s else Run(Step(s, events[0]), events[1..])
  }

  /** Part of a run is a run, and the rest continues it. */
  lemma {:induction false} RunInParts(s: State, events: seq<Event>, i: nat)
    requires i <= |events| && Possible(s, events)
    ensures Possible(s, events[..i]) && Possible(Run(s, events[..i]), events[i..])
    ensures Run(Run(s, events[..i]), events[i..]) == Run(s, events)
    decreases |events|
  {
    hide Step, Enabled;
    if i == 0 {
      assert events[..0] == [] && events[0..] == events;
    } else {
      RunInParts(Step(s, events[0]), events[1..], i - 1);
      assert events[..i][0] == events[0];
      assert events[1..][..i - 1] == events[..i][1..];
      assert events[1..][i - 1..] == events[i..];
    }
  }
}
