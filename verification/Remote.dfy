/**
 The connection engine in its own form: the object with the fields of
 `AndroidTvRemote::Impl` whose member functions update them, each proved to do
 what the function of the same name in `Engine` says.

 Starting an asynchronous operation adds its handler to the ghost set of
 pending ones; the methods named `On...` are those handlers. A callback of the
 user is not represented.
 */
module Remote {
  import opened Wrappers
  import opened Ints
  import opened Varint
  import opened Framing
  import opened Messages
  import opened Builders
  import opened Voice
  import E = Engine
  import opened EngineSafety
  import opened EngineRuns

  class Impl {
    const options: E.Options

    // The fields of the original, grouped.
    var link: E.Link
    var session: E.Session
    var inbox: E.Inbox
    var outbox: E.Outbox

    // What is pending, and what has happened.
    ghost var ops: multiset<E.Op>
    ghost var timers: E.Timers
    ghost var delays: seq<nat>
    ghost var log: E.Log
    ghost var past: seq<E.Log>

    ghost function View(): E.State
      reads this
    {
      E.State(options, link, session, inbox, outbox, ops, timers, delays, log, past)
    }

    ghost predicate Valid()
      reads this
    {
      Invariant(View())
    }

    constructor (options: E.Options)
      ensures Valid() && View() == E.Initial(options)
    {
      this.options := options;
      var features := E.BASE_FEATURES;
      if options.enableIme {
        features := features + E.FEATURE_IME;
      }
      if options.enableVoice {
        features := features + E.FEATURE_VOICE;
      }
      link := E.Link(true, E.Disconnected, false, None, 0, E.FIRST_DELAY);
      session := E.Session(features, 0, false, 0, 0, false, None);
      inbox, outbox := E.Inbox(0, 0, 0), E.Outbox([], false);
      ops, timers := multiset{}, E.Timers(false, 0, None, multiset{}, false, 0);
      delays, log, past := [], E.EmptyLog(features), [];
      new;
      InitialInvariant(options);
    }

    // ------------------------------------------------------ member functions

    method CloseStream()
      modifies this
      ensures View() == E.CloseStream(old(View()))
    {
      link := link.(generation := link.generation + 1);
      session := session.(voiceStarting := false, voiceSession := None);
      outbox := E.Outbox([], false);
      inbox := inbox.(length := 0, shift := 0);
      link := link.(stream := false);
      past, log := past + [log], E.EmptyLog(session.activeFeatures);
    }

    /** `loads` stands for the outcome of loading the certificate and key files, when they are. */
    method EnsureSslContext(loads: bool) returns (thrown: bool)
      modifies this
      ensures View() == E.EnsureContext(old(View()), loads)
      ensures thrown <==> old(link.context).None? && !loads
    {
      if link.context.Some? {
        return false;
      }
      link := link.(context := Some(false));
      if !loads {
        return true;
      }
      link := link.(context := Some(true));
      return false;
    }

    method BeginConnect(reconnecting: bool, loads: bool)
      modifies this
      ensures View() == E.BeginConnect(old(View()), reconnecting, loads)
    {
      if link.userDisconnect {
        return;
      }
      CloseStream();
      var thrown := EnsureSslContext(loads);
      if thrown {
        link := link.(connection := E.Disconnected);
        return;
      }
      link := link.(connection := if reconnecting then E.Reconnecting else E.Connecting);
      link := link.(stream := true);
      ops := ops + multiset{E.Resolve(link.generation)};
    }

    method AuthenticationFailed(gen: nat)
      modifies this
      ensures View() == E.AuthenticationFailed(old(View()), gen)
    {
      if gen != link.generation || link.userDisconnect {
        return;
      }
      CloseStream();
      link := link.(connection := E.Disconnected);
    }

    method ConnectionFailed(gen: nat)
      modifies this
      ensures View() == E.ConnectionFailed(old(View()), gen)
    {
      if gen != link.generation || link.userDisconnect {
        return;
      }
      HandleConnectionLoss(gen);
    }

    method HandleConnectionLoss(gen: nat)
      modifies this
      ensures View() == E.HandleConnectionLoss(old(View()), gen)
    {
      if gen != link.generation {
        return;
      }
      CloseStream();
      if options.autoReconnect && !link.userDisconnect {
        link := link.(connection := E.Reconnecting);
        timers := timers.(reconnectArmed := true);
        delays := delays + [link.reconnectDelay];
        link := link.(reconnectDelay := Min(link.reconnectDelay * 2, E.LONGEST_DELAY));
      } else {
        link := link.(connection := E.Disconnected);
      }
    }

    method BeginReadLength(gen: nat)
      modifies this
      ensures View() == E.BeginReadLength(old(View()), gen)
    {
      if !link.stream || gen != link.generation {
        return;
      }
      inbox := inbox.(length := 0);
      inbox := inbox.(shift := 0);
      ReadOneLengthByte(gen);
    }

    method ReadOneLengthByte(gen: nat)
      modifies this
      ensures View() == E.ReadOneLengthByte(old(View()), gen)
    {
      if !link.stream || gen != link.generation {
        return;
      }
      ops := ops + multiset{E.ReadLength(gen)};
    }

    method ResetIdleTimer()
      modifies this
      ensures View() == E.ResetIdleTimer(old(View()))
    {
      timers := timers.(idleArmed := Some(link.generation));
    }

    method BeginWrite()
      modifies this
      ensures View() == E.BeginWrite(old(View()))
    {
      if !link.stream || outbox.queue == [] {
        outbox := outbox.(busy := false);
        return;
      }
      outbox := outbox.(busy := true);
      ops := ops + multiset{E.Write(link.generation)};
    }

    method QueueMessage(payload: seq<Byte>, ghost o: Message)
      requires payload == Encode(o)
      modifies this
      ensures View() == E.QueueMessage(old(View()), o)
    {
      hide Encode, Frame;
      if !link.stream {
        return;
      }
      ResetIdleTimer();
      EncodeFits(o);
      var framed := MakeFrame(payload);
      outbox := outbox.(queue := outbox.queue + [framed]);
      log := log.(queued := log.queued + [o]);
      if !outbox.busy {
        BeginWrite();
      }
    }

    /** The case of a configure message. */
    method HandleConfigure(supported: I32)
      modifies this
      ensures var s := old(View());
        var active := And32(s.session.activeFeatures, supported);
        View() == E.QueueMessage(s.(session := s.session.(supportedFeatures := supported, activeFeatures := active,
                                                          voiceEnabled := E.HasVoice(active))),
                                 ConfigureReply(active))
    {
      hide Encode, And32, E.HasVoice, E.QueueMessage;
      session := session.(supportedFeatures := supported);
      session := session.(activeFeatures := And32(session.activeFeatures, session.supportedFeatures));
      session := session.(voiceEnabled := E.HasVoice(session.activeFeatures));
      var reply := RemoteConfigureResponse(session.activeFeatures);
      QueueMessage(reply, ConfigureReply(session.activeFeatures));
    }

    /** The case of a voice-begin message, while a voice session is being started. */
    method HandleVoiceBegin(id: I32)
      modifies this
      ensures var s := old(View());
        View() == E.QueueMessage(s.(session := s.session.(voiceStarting := false, voiceSession := Some(id)),
                                    timers := s.timers.(voiceArmed := false)),
                                 VoiceBegin(id))
    {
      hide Encode, E.QueueMessage;
      session := session.(voiceStarting := false);
      timers := timers.(voiceArmed := false);
      session := session.(voiceSession := Some(id));
      var reply := RemoteVoiceBegin(id);
      QueueMessage(reply, VoiceBegin(id));
    }

    method HandleMessage(message: seq<Byte>)
      modifies this
      ensures View() == E.HandleMessage(old(View()), message)
    {
      hide Encode, Parsed, And32, E.HasVoice, E.QueueMessage, E.HandleMessage, E.Noted;
      ghost var was := View();
      var incoming := ParseRemote(message);
      log := log.(handled := log.handled + [message]);
      NotedOnly(was, View(), message);
      match incoming {
        case Configure(supported, _) =>
          HandledConfigure(was, message);
          HandleConfigure(supported);
        case SetActive =>
          var reply := RemoteSetActiveResponse(session.activeFeatures);
          HandledSetActive(was, message);
          QueueMessage(reply, SetActiveReply(session.activeFeatures));
        case ImeBatchEdit(ime, field) =>
          session := session.(imeCounter := ime, imeFieldCounter := field);
          HandledSilently(was, message);
        case Start(_) =>
          link := link.(connection := E.Connected);
          HandledSilently(was, message);
        case Ping(value) =>
          var reply := RemotePingResponse(value);
          HandledPing(was, message);
          QueueMessage(reply, PingReply(value));
        case VoiceStarted(id) =>
          if session.voiceStarting {
            HandledVoiceBegin(was, message);
            HandleVoiceBegin(id);
          } else {
            HandledSilently(was, message);
          }
        case _ =>
          HandledSilently(was, message);
      }
    }

    // ---------------------------------------------------- completion handlers

    method OnResolved(gen: nat, ok: bool)
      requires gen == link.generation ==> link.stream
      modifies this
      ensures View() == E.Resolved(old(View()), gen, ok)
    {
      ops := ops - multiset{E.Resolve(gen)};
      if gen != link.generation {
        return;
      }
      if !ok {
        ConnectionFailed(gen);
        return;
      }
      assert link.stream;
      ops := ops + multiset{E.Connect(gen)};
    }

    method OnConnected(gen: nat, ok: bool)
      requires gen == link.generation ==> link.stream
      modifies this
      ensures View() == E.TcpConnected(old(View()), gen, ok)
    {
      ops := ops - multiset{E.Connect(gen)};
      if gen != link.generation {
        return;
      }
      if !ok {
        ConnectionFailed(gen);
        return;
      }
      assert link.stream;
      ops := ops + multiset{E.Handshake(gen)};
    }

    method OnHandshake(gen: nat, ok: bool)
      modifies this
      ensures View() == E.Handshaken(old(View()), gen, ok)
    {
      ops := ops - multiset{E.Handshake(gen)};
      if gen != link.generation {
        return;
      }
      if !ok {
        AuthenticationFailed(gen);
        return;
      }
      link := link.(reconnectDelay := E.FIRST_DELAY);
      delays := [];
      BeginReadLength(gen);
      ResetIdleTimer();
    }

    /** The handler of `readOneLengthByte`; `input` is the byte read, or nothing on an error. */
    method OnLengthByte(gen: nat, input: Option<Byte>)
      requires gen == link.generation ==> link.stream
      modifies this
      ensures View() == E.LengthByteRead(old(View()), gen, input)
    {
      hide E.LengthByte, E.ConnectionFailed;
      ops := ops - multiset{E.ReadLength(gen)};
      if gen != link.generation {
        return;
      }
      if input.None? {
        ConnectionFailed(gen);
        return;
      }
      TakeLengthByte(gen, input.value);
    }

    /** What the handler does with a byte of a length. */
    method TakeLengthByte(gen: nat, lengthByte: Byte)
      requires gen == link.generation && link.stream
      modifies this
      ensures View() == E.LengthByte(E.Received(old(View()), [lengthByte]), gen, lengthByte)
    {
      hide E.HandleMessage, E.HandleConnectionLoss, E.BeginReadLength, Accumulate;
      log := log.(received := log.received + [lengthByte]);
      inbox := inbox.(length := Accumulate(inbox.length, lengthByte, inbox.shift));
      if lengthByte >= 128 {
        inbox := inbox.(shift := inbox.shift + 7);
        if inbox.shift > 63 {
          HandleConnectionLoss(gen);
          return;
        }
        ReadOneLengthByte(gen);
        return;
      }
      if inbox.length > MAX_FRAME_SIZE {
        HandleConnectionLoss(gen);
        return;
      }
      inbox := inbox.(bodySize := inbox.length);
      if inbox.bodySize == 0 {
        HandleMessage([]);
        BeginReadLength(gen);
        return;
      }
      assert link.stream;
      ops := ops + multiset{E.ReadBody(gen)};
    }

    /** The handler of the body read; `input` is the filled body, or nothing on an error. */
    method OnBody(gen: nat, input: Option<seq<Byte>>)
      modifies this
      ensures View() == E.BodyRead(old(View()), gen, input)
    {
      hide E.HandleMessage, E.BeginReadLength;
      ops := ops - multiset{E.ReadBody(gen)};
      if gen != link.generation {
        return;
      }
      if input.None? {
        ConnectionFailed(gen);
        return;
      }
      log := log.(received := log.received + input.value);
      ResetIdleTimer();
      HandleMessage(input.value);
      BeginReadLength(gen);
    }

    method OnWritten(gen: nat, ok: bool)
      requires gen == link.generation ==> link.stream && outbox.queue != []
      modifies this
      ensures View() == E.Written(old(View()), gen, ok)
    {
      ops := ops - multiset{E.Write(gen)};
      if gen != link.generation {
        return;
      }
      if !ok {
        outbox := outbox.(busy := false);
        ConnectionFailed(gen);
        return;
      }
      log := log.(written := log.written + [outbox.queue[0]]);
      outbox := outbox.(queue := outbox.queue[1..]);
      BeginWrite();
    }

    /** The handler of the reconnect timer, its wait expired. */
    method OnReconnect(loads: bool)
      requires timers.reconnectFired > 0
      modifies this
      ensures View() == E.ReconnectRuns(old(View()), loads)
    {
      timers := timers.(reconnectFired := timers.reconnectFired - 1);
      if !link.userDisconnect {
        BeginConnect(true, loads);
      }
    }

    method OnIdle(gen: nat)
      modifies this
      ensures View() == E.IdleRuns(old(View()), gen)
    {
      timers := timers.(idleFired := timers.idleFired - multiset{gen});
      if !link.userDisconnect && gen == link.generation {
        HandleConnectionLoss(gen);
      }
    }

    method OnVoiceTimer()
      requires timers.voiceFired > 0
      modifies this
      ensures View() == E.VoiceTimerRuns(old(View()))
    {
      timers := timers.(voiceFired := timers.voiceFired - 1);
      if session.voiceStarting {
        session := session.(voiceStarting := false);
      }
    }

    // ------------------------------------------------------------ posted calls

    method Connect(loads: bool)
      modifies this
      ensures View() == E.UserConnect(old(View()), loads)
    {
      link := link.(userDisconnect := false);
      timers := timers.(reconnectArmed := false);
      link := link.(reconnectDelay := E.FIRST_DELAY);
      delays := [];
      BeginConnect(false, loads);
    }

    /** What `disconnect` posts, and `disconnectAndWait`. */
    method Disconnect()
      modifies this
      ensures View() == E.UserDisconnect(old(View()))
    {
      link := link.(userDisconnect := true);
      timers := timers.(reconnectArmed := false);
      timers := timers.(voiceArmed := false);
      timers := timers.(idleArmed := None);
      CloseStream();
      link := link.(connection := E.Disconnected);
    }

    method SendKey(key: I32, direction: Direction)
      modifies this
      ensures View() == E.QueueMessage(old(View()), Key(key, direction))
    {
      hide Encode;
      var payload := RemoteKey(key, direction);
      QueueMessage(payload, Key(key, direction));
    }

    /** The empty text is refused with an exception, before anything is posted. */
    method SendText(text: seq<Byte>) returns (accepted: bool)
      requires CursorFits(text)
      modifies this
      ensures accepted <==> text != []
      ensures View() == if !accepted then old(View()) else
        E.QueueMessage(old(View()), Text(text, old(session.imeCounter), old(session.imeFieldCounter)))
    {
      hide Encode, E.QueueMessage;
      if text == [] {
        return false;
      }
      var payload := RemoteText(text, session.imeCounter, session.imeFieldCounter);
      QueueMessage(payload, Text(text, session.imeCounter, session.imeFieldCounter));
      return true;
    }

    method LaunchApp(appLink: seq<Byte>)
      requires |appLink| < TWO63
      modifies this
      ensures View() == E.QueueMessage(old(View()), AppLink(appLink))
    {
      hide Encode;
      var payload := RemoteAppLink(appLink);
      QueueMessage(payload, AppLink(appLink));
    }

    method StartVoice()
      modifies this
      ensures View() == E.StartVoice(old(View()))
    {
      hide Encode, E.QueueMessage;
      if !session.voiceEnabled {
        return;
      }
      if session.voiceStarting || session.voiceSession.Some? {
        return;
      }
      if link.connection != E.Connected {
        return;
      }
      session := session.(voiceStarting := true);
      var payload := RemoteKey(E.KEYCODE_SEARCH, E.SHORT);
      QueueMessage(payload, Key(E.KEYCODE_SEARCH, E.SHORT));
      timers := timers.(voiceArmed := true);
    }

    method SendVoiceData(data: seq<Byte>)
      modifies this
      ensures View() == E.SendVoiceData(old(View()), data)
    {
      hide Encode, E.QueueMessage, Padded, Chunks, E.QueuePayloads;
      if session.voiceSession.None? {
        return;
      }
      ghost var id := session.voiceSession.value;
      var offset := 0;
      NothingQueued(View(), id, data);
      while offset < |data|
        invariant 0 <= offset && session.voiceSession == Some(id)
        invariant ChunksLeft(View(), id, data, offset) == ChunksLeft(old(View()), id, data, 0)
      {
        var length := Min(CHUNK_SIZE, |data| - offset);
        var chunk := data[offset..offset + length];
        NextChunk(View(), id, data, offset);
        chunk := Pad(chunk);
        var payload := RemoteVoicePayload(session.voiceSession.value, chunk);
        QueueMessage(payload, VoicePayload(session.voiceSession.value, chunk));
        offset := offset + CHUNK_SIZE;
      }
      AllQueued(View(), id, data, offset);
    }

    /** A chunk that is too short is filled up with zeros. */
    static method Pad(piece: seq<Byte>) returns (chunk: seq<Byte>)
      ensures chunk == Padded(piece)
    {
      chunk := piece;
      if |chunk| < MINIMUM_CHUNK_SIZE {
        chunk := chunk + Zeros(MINIMUM_CHUNK_SIZE - |chunk|);
      }
    }

    method StopVoice()
      modifies this
      ensures View() == E.StopVoice(old(View()))
    {
      hide Encode, E.QueueMessage;
      timers := timers.(voiceArmed := false);
      session := session.(voiceStarting := false);
      if session.voiceSession.Some? {
        var payload := RemoteVoiceEnd(session.voiceSession.value);
        QueueMessage(payload, VoiceEnd(session.voiceSession.value));
        session := session.(voiceSession := None);
      }
    }

    // ------------------------------------------------------------ the I/O thread

    /** A posted call runs. */
    method RunCall(e: E.Event)
      requires E.Enabled(View(), e)
      requires !E.IsCompletion(e) && !E.IsTimer(e)
      modifies this
      ensures View() == E.Step(old(View()), e)
    {
      hide E.UserConnect, E.UserDisconnect, E.QueueMessage, E.StartVoice, E.SendVoiceData, E.StopVoice;
      match e {
        case CallConnect(loads) => Connect(loads);
        case CallDisconnect => Disconnect();
        case CallSendKey(code, direction) => SendKey(code, direction);
        case CallSendText(text) => var _ := SendText(text);
        case CallLaunchApp(appLink) => LaunchApp(appLink);
        case CallStartVoice => StartVoice();
        case CallSendVoiceData(pcm) => SendVoiceData(pcm);
        case CallStopVoice => StopVoice();
      }
    }

    /** A network operation completes. */
    method RunCompletion(e: E.Event)
      requires E.Enabled(View(), e)
      requires E.IsCompletion(e)
      requires e.gen == link.generation ==> link.stream
      requires e.OnWritten? && e.gen == link.generation ==> outbox.queue != []
      modifies this
      ensures View() == E.Step(old(View()), e)
    {
      hide E.Resolved, E.TcpConnected, E.Handshaken, E.LengthByteRead, E.BodyRead, E.Written;
      match e {
        case OnResolved(gen, ok) => OnResolved(gen, ok);
        case OnConnected(gen, ok) => OnConnected(gen, ok);
        case OnHandshake(gen, ok) => OnHandshake(gen, ok);
        case OnLengthByte(gen, input) => OnLengthByte(gen, input);
        case OnBody(gen, input) => OnBody(gen, input);
        case OnWritten(gen, ok) => OnWritten(gen, ok);
      }
    }

    /** A timer expires, or the handler of a wait that has expired runs. */
    method RunTimer(e: E.Event)
      requires E.Enabled(View(), e)
      requires E.IsTimer(e)
      modifies this
      ensures View() == E.Step(old(View()), e)
    {
      hide E.ReconnectRuns, E.IdleRuns, E.VoiceTimerRuns;
      match e {
        case OnReconnect(loads) => OnReconnect(loads);
        case OnIdle(gen) => OnIdle(gen);
        case OnVoiceTimer => OnVoiceTimer();
        case ReconnectExpires =>
          timers := timers.(reconnectArmed := false, reconnectFired := timers.reconnectFired + 1);
        case IdleExpires =>
          timers := timers.(idleArmed := None, idleFired := timers.idleFired + multiset{timers.idleArmed.value});
        case VoiceExpires =>
          timers := timers.(voiceArmed := false, voiceFired := timers.voiceFired + 1);
      }
    }

    /**
     One event on the I/O thread. Every handler finds what it relies on,
     whatever has happened before, and every one keeps the invariant.
     */
    method Dispatch(e: E.Event)
      requires Valid() && E.Enabled(View(), e)
      modifies this
      ensures Valid() && View() == E.Step(old(View()), e)
    {
      StepKeepsInvariant(View(), e);
      HandlersFindTheirs(View(), e);
      hide Invariant, E.Step, E.Enabled;
      if E.IsCompletion(e) {
        RunCompletion(e);
      } else if E.IsTimer(e) {
        RunTimer(e);
      } else {
        RunCall(e);
      }
    }

    /** The I/O thread runs whatever comes, one event after the other. */
    method RunAll(events: seq<E.Event>)
      requires Valid() && E.Possible(View(), events)
      modifies this
      ensures Valid() && View() == E.Run(old(View()), events)
    {
      hide Invariant, E.Step, E.Enabled;
      var i := 0;
      while i < |events|
        invariant 0 <= i <= |events| && Valid() && E.Possible(View(), events[i..])
        invariant E.Run(View(), events[i..]) == E.Run(old(View()), events)
      {
        assert events[i..][1..] == events[i + 1..];
        Dispatch(events[i]);
        i := i + 1;
      }
    }
  }

  // ------------------------------------------------------------ the cases of a message

  lemma NotedOnly(s: E.State, t: E.State, message: seq<Byte>)
    requires t == s.(log := s.log.(handled := s.log.handled + [message]))
    ensures t == E.Noted(s, message)
  {
  }

  lemma HandledConfigure(s: E.State, message: seq<Byte>)
    requires Parsed(message).Configure?
    ensures var supported := Parsed(message).supported;
      var active := And32(s.session.activeFeatures, supported);
      var n := E.Noted(s, message);
      E.HandleMessage(s, message) ==
        E.QueueMessage(n.(session := n.session.(supportedFeatures := supported, activeFeatures := active,
                                                voiceEnabled := E.HasVoice(active))),
                       ConfigureReply(active))
  {
    hide E.QueueMessage, Parsed, And32, E.HasVoice;
  }

  lemma HandledSetActive(s: E.State, message: seq<Byte>)
    requires Parsed(message).SetActive?
    ensures E.HandleMessage(s, message) ==
      E.QueueMessage(E.Noted(s, message), SetActiveReply(s.session.activeFeatures))
  {
    hide E.QueueMessage, Parsed;
  }

  lemma HandledPing(s: E.State, message: seq<Byte>)
    requires Parsed(message).Ping?
    ensures E.HandleMessage(s, message) == E.QueueMessage(E.Noted(s, message), PingReply(Parsed(message).value))
  {
    hide E.QueueMessage, Parsed;
  }

  lemma HandledVoiceBegin(s: E.State, message: seq<Byte>)
    requires Parsed(message).VoiceStarted? && s.session.voiceStarting
    ensures var id := Parsed(message).session;
      var n := E.Noted(s, message);
      E.HandleMessage(s, message) ==
        E.QueueMessage(n.(session := n.session.(voiceStarting := false, voiceSession := Some(id)),
                          timers := n.timers.(voiceArmed := false)),
                       VoiceBegin(id))
  {
    hide E.QueueMessage, Parsed;
  }

  lemma HandledSilently(s: E.State, message: seq<Byte>)
    requires E.Answer(s.session, Parsed(message)).None?
    ensures E.HandleMessage(s, message) == E.Digest(E.Noted(s, message), Parsed(message))
  {
    hide Parsed, E.Digest, E.Noted, E.Answer;
  }

  /** What the handlers rely on: the stream, and for a write the frame being written. */
  lemma HandlersFindTheirs(s: E.State, e: E.Event)
    requires Invariant(s) && E.Enabled(s, e)
    ensures E.IsCompletion(e) && e.gen == s.link.generation ==> s.link.stream
    ensures e.OnWritten? && e.gen == s.link.generation ==> s.outbox.queue != []
  {
  }

  /** The data from an offset on, which may lie beyond its end. */
  function RestFrom(data: seq<Byte>, offset: nat): seq<Byte> {
    if offset < |data| then data[offset..] else []
  }

  /** What is left to queue of the data from an offset on. */
  function ChunksLeft(s: E.State, session: I32, data: seq<Byte>, offset: nat): E.State {
    ChunkSizes(RestFrom(data, offset));
    E.QueuePayloads(s, session, Chunks(RestFrom(data, offset)))
  }

  lemma NothingQueued(s: E.State, session: I32, data: seq<Byte>)
    requires s.session.voiceSession == Some(session)
    ensures ChunksLeft(s, session, data, 0) == E.SendVoiceData(s, data)
  {
    hide E.QueuePayloads, Chunks;
    assert RestFrom(data, 0) == data;
  }

  lemma AllQueued(s: E.State, session: I32, data: seq<Byte>, offset: nat)
    requires offset >= |data|
    ensures ChunksLeft(s, session, data, offset) == s
  {
  }

  lemma RestAfterChunk(data: seq<Byte>, offset: nat)
    requires offset < |data|
    ensures var rest := RestFrom(data, offset);
      var n := Min(CHUNK_SIZE, |rest|);
      && rest != [] && n == Min(CHUNK_SIZE, |data| - offset)
      && rest[..n] == data[offset..offset + n] && rest[n..] == RestFrom(data, offset + CHUNK_SIZE)
  {
  }

  lemma NextChunk(s: E.State, session: I32, data: seq<Byte>, offset: nat)
    requires offset < |data|
    ensures var chunk := Padded(data[offset..offset + Min(CHUNK_SIZE, |data| - offset)]);
      && |chunk| <= CHUNK_SIZE
      && ChunksLeft(s, session, data, offset) ==
          ChunksLeft(E.QueueMessage(s, VoicePayload(session, chunk)), session, data, offset + CHUNK_SIZE)
  {
    hide E.QueueMessage, Padded, Chunks, E.QueuePayloads, RestFrom, Min, ChunksLeft;
    var chunks := Chunks(RestFrom(data, offset));
    ChunksFrom(data, offset);
    ChunksLeftIs(s, session, data, offset);
    PayloadsOneByOne(s, session, chunks);
    ChunksLeftIs(E.QueueMessage(s, VoicePayload(session, chunks[0])), session, data, offset + CHUNK_SIZE);
  }

  lemma ChunksFrom(data: seq<Byte>, offset: nat)
    requires offset < |data|
    ensures var chunks := Chunks(RestFrom(data, offset));
      && chunks != [] && chunks[0] == Padded(data[offset..offset + Min(CHUNK_SIZE, |data| - offset)])
      && |chunks[0]| <= CHUNK_SIZE && chunks[1..] == Chunks(RestFrom(data, offset + CHUNK_SIZE))
  {
    hide Padded, Chunks, RestFrom, Min;
    var rest := RestFrom(data, offset);
    RestAfterChunk(data, offset);
    ChunkSizes(rest);
    FirstChunk(rest);
    assert Chunks(rest)[0] in Chunks(rest);
  }

  lemma ChunksLeftIs(s: E.State, session: I32, data: seq<Byte>, offset: nat)
    ensures forall c | c in Chunks(RestFrom(data, offset)) :: |c| <= CHUNK_SIZE
    ensures ChunksLeft(s, session, data, offset) == E.QueuePayloads(s, session, Chunks(RestFrom(data, offset)))
  {
    hide E.QueuePayloads, Chunks, RestFrom;
    ChunkSizes(RestFrom(data, offset));
  }

  lemma PayloadsOneByOne(s: E.State, session: I32, chunks: seq<seq<Byte>>)
    requires chunks != [] && forall c | c in chunks :: |c| <= CHUNK_SIZE
    ensures E.QueuePayloads(s, session, chunks) ==
      E.QueuePayloads(E.QueueMessage(s, VoicePayload(session, chunks[0])), session, chunks[1..])
  {
    hide E.QueueMessage;
  }
}
