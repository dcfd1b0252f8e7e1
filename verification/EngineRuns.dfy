/**
 What holds in every state the connection engine can reach, whatever calls are
 made, whatever the network answers, and in whatever order handlers run.
 */
module EngineRuns {
  import opened Wrappers
  import opened Ints
  import opened Varint
  import opened Framing
  import opened Messages
  import opened Voice
  import opened Engine
  import opened EngineSafety
  import opened EngineShape
  import opened EngineLedger
  import opened EngineReader
  import opened EngineTimers

  ghost predicate Invariant(s: State) {
    && Pending(s) && Shape(s) && Ledger(s) && Aligned(s) && Delays(s) && IdleBound(s)
  }

  lemma InitialInvariant(options: Options)
    ensures Invariant(Initial(options))
    ensures Exact(Initial(options))
  {
    var s := Initial(options);
    assert Frames([]) == [];
    assert Pow2(0) == 1;
  }

  lemma StepKeepsInvariant(s: State, e: Event)
    requires Invariant(s) && Enabled(s, e)
    ensures Invariant(Step(s, e))
  {
    hide Step, Enabled, Pending, Shape, Ledger, Aligned, Delays, IdleBound;
    StepKeepsPending(s, e);
    StepKeepsShape(s, e);
    StepKeepsLedger(s, e);
    StepKeepsReader(s, e);
    StepKeepsDelays(s, e);
    StepKeepsIdleBound(s, e);
  }

  lemma {:induction false} RunKeepsInvariant(s: State, events: seq<Event>)
    requires Invariant(s) && Possible(s, events)
    ensures Invariant(Run(s, events))
    decreases |events|
  {
    hide Step, Enabled, Invariant;
    if events != [] {
      StepKeepsInvariant(s, events[0]);
      RunKeepsInvariant(Step(s, events[0]), events[1..]);
    }
  }

  lemma {:induction false} RunKeepsOptions(s: State, events: seq<Event>)
    requires Possible(s, events)
    ensures Run(s, events).options == s.options
    decreases |events|
  {
    hide Step, Enabled;
    if events != [] {
      StepMovesDelay(s, events[0]);
      RunKeepsOptions(Step(s, events[0]), events[1..]);
    }
  }

  /** The state after a run from the start. */
  function After(options: Options, events: seq<Event>): State
    requires Possible(Initial(options), events)
  {
    Run(Initial(options), events)
  }

  lemma AfterIsInvariant(options: Options, events: seq<Event>)
    requires Possible(Initial(options), events)
    ensures Invariant(After(options, events))
  {
    hide Invariant, Run, Possible;
    InitialInvariant(options);
    RunKeepsInvariant(Initial(options), events);
  }

  // ------------------------------------------------------------ generations

  /**
   Every pending completion of the current generation finds its stream. A live
   stream has exactly one pending operation of the connect-and-read chain, and
   exactly one write when the queue is not empty; without a stream there is none.
   */
  lemma GenerationSafety(options: Options, events: seq<Event>)
    requires Possible(Initial(options), events)
    ensures var s := After(options, events);
      && (forall op | op in s.ops && op.gen >= s.link.generation :: s.link.stream && op.gen == s.link.generation)
      && Chain(s.ops, s.link.generation) == (if s.link.stream then 1 else 0)
      && s.ops[Write(s.link.generation)] == (if s.outbox.queue != [] then 1 else 0)
      && (s.outbox.busy <==> s.outbox.queue != [])
      && (s.outbox.queue != [] ==> s.link.stream)
  {
    AfterIsInvariant(options, events);
    hide After, Possible, Shape, Ledger, Aligned, Delays, IdleBound;
  }

  /** The pending handler a completion runs. */
  function OpOf(e: Event): Op
    requires IsCompletion(e)
  {
    match e
    case OnResolved(g, _) => Resolve(g)
    case OnConnected(g, _) => Connect(g)
    case OnHandshake(g, _) => Handshake(g)
    case OnLengthByte(g, _) => ReadLength(g)
    case OnBody(g, _) => ReadBody(g)
    case OnWritten(g, _) => Write(g)
  }

  /** A completion that captured an older generation changes nothing; it is just no longer pending. */
  lemma StaleCompletionIsIgnored(s: State, e: Event)
    requires Enabled(s, e)
    requires IsCompletion(e)
    requires e.gen != s.link.generation
    ensures Step(s, e) == Take(s, OpOf(e))
  {
    hide HandleMessage, LengthByte, ConnectionFailed, AuthenticationFailed, BeginReadLength, BeginWrite;
  }

  // ------------------------------------------------------------ the shapes

  /** Never stuck: disconnected, live, or reconnecting with a reconnect wait pending. */
  lemma ThreeShapes(options: Options, events: seq<Event>)
    requires Possible(Initial(options), events)
    ensures var s := After(options, events);
      || (s.link.connection == Disconnected && !s.link.stream)
      || (s.link.connection != Disconnected && s.link.stream && !s.link.userDisconnect)
      || (s.link.connection == Reconnecting && !s.link.stream && !s.link.userDisconnect && ReconnectWaits(s) > 0)
  {
    AfterIsInvariant(options, events);
    hide After, Possible, Ledger, Aligned, Delays, IdleBound;
  }

  /**
   Connected means a live stream past its handshake, whose idle timer runs for
   its own generation; no connect step of it is pending any more.
   */
  lemma ConnectedIsWatched(options: Options, events: seq<Event>)
    requires Possible(Initial(options), events)
    ensures var s := After(options, events);
      && (s.link.connection == Connected ==> Reading(s))
      && (Reading(s) ==> s.link.stream && IdlePending(s))
      && (Reading(s) ==> Resolve(s.link.generation) !in s.ops && Connect(s.link.generation) !in s.ops)
      && (Reading(s) ==> Handshake(s.link.generation) !in s.ops)
  {
    AfterIsInvariant(options, events);
    hide After, Possible, Ledger, Aligned, Delays, IdleBound;
  }

  /**
   What a step breaks exactly when it is a bad one holds throughout a run
   exactly when the run has no bad step.
   */
  lemma {:induction false} HoldsIffNeverBroken(good: State -> bool, bad: (State, Event) -> bool,
                                               s: State, events: seq<Event>)
    requires forall t: State, e: Event | Invariant(t) && good(t) && Enabled(t, e) :: good(Step(t, e)) <==> !bad(t, e)
    requires Invariant(s) && good(s) && Possible(s, events)
    ensures (forall i | 0 <= i <= |events| :: good(StateAt(s, events, i))) <==>
            (forall i | 0 <= i < |events| :: !bad(StateAt(s, events, i), events[i]))
    decreases |events|
  {
    hide Step, Enabled, Invariant;
    if events == [] {
      assert StateAt(s, events, 0) == s;
    } else {
      var t := Step(s, events[0]);
      StepKeepsInvariant(s, events[0]);
      assert good(t) <==> !bad(s, events[0]);
      assert StateAt(s, events, 0) == s && StateAt(s, events, 1) == t by {
        StateAtNext(s, events, 0);
      }
      if good(t) {
        HoldsIffNeverBroken(good, bad, t, events[1..]);
        forall i | 0 <= i <= |events| - 1 ensures StateAt(s, events, i + 1) == StateAt(t, events[1..], i) {
          StateAtNext(s, events, i);
        }
        assert forall i | 0 < i <= |events| :: StateAt(s, events, i) == StateAt(t, events[1..], i - 1);
        assert forall i | 0 <= i <= |events| - 1 :: StateAt(t, events[1..], i) == StateAt(s, events, i + 1);
      }
    }
  }

  /** The state after the first i events of a run. */
  function StateAt(s: State, events: seq<Event>, i: nat): State
    requires i <= |events| && Possible(s, events)
  {
    RunInParts(s, events, i);
    Run(s, events[..i])
  }

  lemma StateAtNext(s: State, events: seq<Event>, i: nat)
    requires i < |events| && Possible(s, events)
    ensures StateAt(s, events, i + 1) == StateAt(Step(s, events[0]), events[1..], i)
  {
    hide Step, Enabled;
    RunInParts(s, events, i + 1);
    assert events[..i + 1][1..] == events[1..][..i];
  }

  // ------------------------------------------------------------ reading

  /** The generations so far, the current one last. */
  function Logs(s: State): seq<Log> {
    s.past + [s.log]
  }

  /**
   In every generation the messages handled are exactly the whole frames of the
   bytes received, in order, up to the first length that is refused.
   */
  lemma ReceivedIsHandled(options: Options, events: seq<Event>)
    requires Possible(Initial(options), events)
    ensures forall l | l in Logs(After(options, events)) ::
      l.handled == Deframe(l.received, MAX_FRAME_SIZE).frames
  {
    AfterIsInvariant(options, events);
    ReaderIsFaithful(After(options, events));
    hide After, Possible, Pending, Shape, Ledger, Delays, IdleBound, Deframe;
  }

  /**
   From a peer that sends whole frames of at most 4 MiB, a prefix of its payloads
   has been handled. Once every byte has arrived all of them have, and the
   reader of a connection past its handshake is back where it began: at the first
   byte of a length.
   */
  lemma FramedPeerIsUnderstood(options: Options, events: seq<Event>, l: Log,
                               payloads: seq<seq<Byte>>, more: seq<Byte>)
    requires Possible(Initial(options), events) && l in Logs(After(options, events))
    requires forall p | p in payloads :: |p| <= MAX_FRAME_SIZE
    requires l.received + more == FrameAll(payloads)
    ensures l.handled <= payloads
    ensures more == [] ==> l.handled == payloads
    ensures var s := After(options, events);
      more == [] && l == s.log && Reading(s) ==>
        ReadLength(s.link.generation) in s.ops && s.inbox.length == 0 && s.inbox.shift == 0
  {
    hide After, Possible, Reading;
    ReceivedIsHandled(options, events);
    PartOfFramedStream(l.received, more, payloads, MAX_FRAME_SIZE);
    if more == [] {
      assert l.received == FrameAll(payloads);
      DeframeInvertsFrameAll(payloads, MAX_FRAME_SIZE);
      var s := After(options, events);
      if l == s.log && Reading(s) {
        AfterIsInvariant(options, events);
        NothingUnreadMeansLength(s);
      }
    }
  }

  lemma NothingUnreadMeansLength(s: State)
    requires Invariant(s) && Reading(s) && Unread(s.log) == Partial([])
    ensures ReadLength(s.link.generation) in s.ops && s.inbox.length == 0 && s.inbox.shift == 0
  {
    hide Deframe, Pending, Shape, Ledger, Delays, IdleBound;
    assert ReadVarint([]) == None;
    assert Groups([]) == 0;
  }

  /** A body is only ever waited for in a buffer of at most 4 MiB. */
  lemma BodyIsBounded(options: Options, events: seq<Event>)
    requires Possible(Initial(options), events)
    ensures var s := After(options, events);
      ReadBody(s.link.generation) in s.ops ==> 0 < s.inbox.bodySize <= MAX_FRAME_SIZE
  {
    AfterIsInvariant(options, events);
    hide After, Possible, Pending, Shape, Ledger, Delays, IdleBound;
  }

  /** A byte of a length ends the connection exactly when it makes the length one that is refused. */
  lemma LossExactlyWhenRefused(s: State, b: Byte)
    requires Invariant(s) && Enabled(s, OnLengthByte(s.link.generation, Some(b)))
    ensures var t := Step(s, OnLengthByte(s.link.generation, Some(b)));
      t.link.generation != s.link.generation <==>
        Deframe(s.log.received + [b], MAX_FRAME_SIZE).rest.Refused?
  {
    hide Deframe, Consumed, LengthByte, Pending, Shape, Ledger, Delays, IdleBound, Accumulate;
    var g := s.link.generation;
    assert AwaitsLength(s.log, s.inbox);
    ByteOfLength(s.log.received, Unread(s.log).bytes, s.inbox.length, b);
    CurrentMeansLive(s, ReadLength(g));
    LengthByteGeneration(Received(Take(s, ReadLength(g)), [b]), b);
  }

  lemma LengthByteGeneration(s: State, b: Byte)
    requires s.link.stream
    ensures var v := Accumulate(s.inbox.length, b, s.inbox.shift);
      LengthByte(s, s.link.generation, b).link.generation != s.link.generation <==>
        if Continues(b) then s.inbox.shift + 7 > 63 else v > MAX_FRAME_SIZE
  {
    var t := s.(inbox := s.inbox.(length := Accumulate(s.inbox.length, b, s.inbox.shift)));
    HandleMessageFrame(t.(inbox := t.inbox.(bodySize := t.inbox.length)), []);
    hide Accumulate, HandleMessage;
  }

  // ------------------------------------------------------------ writing

  /**
   Nothing queued is lost, reordered or written in another generation: in each
   the frames written are a prefix of those of the messages queued in it, and
   what is missing of the current one's is its queue.
   */
  lemma QueuedIsWritten(options: Options, events: seq<Event>)
    requires Possible(Initial(options), events)
    ensures var s := After(options, events);
      && (forall l | l in Logs(s) :: l.written <= Frames(l.queued))
      && Frames(s.log.queued) == s.log.written + s.outbox.queue
  {
    hide After, Possible, Pending, Shape, Aligned, Delays, IdleBound, Frames, Replies, Owed, ProgressOf, FeaturesAfter,
      HandledIn, OptionMask, HasVoice;
    AfterIsInvariant(options, events);
  }

  // ------------------------------------------------------------ replies

  /**
   Whatever else is queued, the configure, set-active and ping replies of a
   generation are determined by the messages handled in it: one for one, in
   order, with the features left at that point.
   */
  lemma RepliesAreOwed(options: Options, events: seq<Event>)
    requires Possible(Initial(options), events)
    ensures forall l | l in Logs(After(options, events)) :: Replies(l.queued) == Owed(l.features, l.handled)
  {
    hide After, Possible, Pending, Shape, Aligned, Delays, IdleBound, Frames, Replies, Owed, ProgressOf, FeaturesAfter,
      HandledIn, OptionMask, HasVoice;
    AfterIsInvariant(options, events);
  }

  /** The values of the pings among the messages handled. */
  function Pings(handled: seq<seq<Byte>>): seq<I32> {
    if handled == [] then []
    else
      var m := Parsed(handled[|handled| - 1]);
      Pings(handled[..|handled| - 1]) + if m.Ping? then [m.value] else []
  }

  function Pongs(q: seq<Outgoing>): seq<I32> {
    if q == [] then []
    else
      var o := q[|q| - 1];
      Pongs(q[..|q| - 1]) + if o.PingReply? then [o.value] else []
  }

  lemma {:induction false} PongsAreReplies(q: seq<Outgoing>)
    ensures Pongs(Replies(q)) == Pongs(q)
  {
    if q != [] {
      var before, o := q[..|q| - 1], q[|q| - 1];
      PongsAreReplies(before);
      if IsReply(o) {
        assert Replies(q)[..|Replies(q)| - 1] == Replies(before);
      } else {
        assert Replies(q) == Replies(before);
      }
    }
  }

  lemma {:induction false} PongsOwed(features: I32, handled: seq<seq<Byte>>)
    ensures Pongs(Owed(features, handled)) == Pings(handled)
  {
    hide Parsed;
    if handled != [] {
      var before, m := handled[..|handled| - 1], Parsed(handled[|handled| - 1]);
      PongsOwed(features, before);
      var o := Reply(FeaturesAfter(features, before), m);
      var owed := Owed(features, handled);
      if o.Some? {
        assert owed[..|owed| - 1] == Owed(features, before);
      } else {
        assert owed == Owed(features, before);
      }
    }
  }

  /** Every ping handled is answered once, in order, with its own value. */
  lemma PingsAreAnswered(options: Options, events: seq<Event>)
    requires Possible(Initial(options), events)
    ensures forall l | l in Logs(After(options, events)) :: Pongs(l.queued) == Pings(l.handled)
  {
    RepliesAreOwed(options, events);
    forall l | l in Logs(After(options, events)) ensures Pongs(l.queued) == Pings(l.handled) {
      PongsAreReplies(l.queued);
      PongsOwed(l.features, l.handled);
    }
    hide After, Possible;
  }

  // ------------------------------------------------------------ voice

  /** In every generation the voice messages are whole utterances, then at most one not finished. */
  lemma VoiceIsGrammatical(options: Options, events: seq<Event>)
    requires Possible(Initial(options), events)
    ensures var s := After(options, events);
      && (forall l | l in Logs(s) :: Grammatical(l.queued))
      && ProgressOf(s.log.queued) ==
          (if s.session.voiceSession.Some? then Open(s.session.voiceSession.value) else Closed)
  {
    hide After, Possible, Pending, Shape, Aligned, Delays, IdleBound, Frames, Replies, Owed, ProgressOf, Grammatical,
      FeaturesAfter, HandledIn, OptionMask, HasVoice;
    AfterIsInvariant(options, events);
    var s := After(options, events);
    forall l | l in Logs(s) ensures Grammatical(l.queued) {
      NotBrokenIsGrammatical(l.queued);
    }
  }

  /** Starting and speaking exclude each other, need a connection, and starting is timed. */
  lemma VoiceNeedsAConnection(options: Options, events: seq<Event>)
    requires Possible(Initial(options), events)
    ensures var s := After(options, events);
      && !(s.session.voiceStarting && s.session.voiceSession.Some?)
      && (s.session.voiceStarting || s.session.voiceSession.Some? ==> s.link.connection == Connected && s.link.stream)
      && (s.session.voiceStarting ==> VoiceTimeoutPending(s))
  {
    AfterIsInvariant(options, events);
    hide After, Possible, Pending, Ledger, Aligned, Delays, IdleBound;
  }

  // ------------------------------------------------------------ features

  /** The configure messages among those handled that do not support feature bit k. */
  predicate Denies(message: seq<Byte>, k: nat) {
    var m := Parsed(message); m.Configure? && !Bit(AsU32(m.supported), k)
  }

  lemma {:induction false} FeaturesAreTheCommonOnes(features: I32, handled: seq<seq<Byte>>, k: nat)
    requires features >= 0
    ensures 0 <= FeaturesAfter(features, handled) <= features
    ensures Bit(FeaturesAfter(features, handled), k) <==>
      Bit(features, k) && forall m | m in handled :: !Denies(m, k)
  {
    hide Parsed, Bit, And32;
    if handled != [] {
      var before, last := handled[..|handled| - 1], handled[|handled| - 1];
      FeaturesAreTheCommonOnes(features, before, k);
      assert handled == before + [last];
      var m := Parsed(last);
      assert last in handled && (!m.Configure? ==> !Denies(last, k));
      if m.Configure? {
        And32OfNonNegative(FeaturesAfter(features, before), m.supported, k);
      }
    }
  }

  /** Feature k is among the options and no configure message of `handled` lacked it. */
  predicate Common(options: Options, handled: seq<seq<Byte>>, k: nat) {
    Bit(OptionMask(options), k) && forall m | m in handled :: !Denies(m, k)
  }

  /**
   After any run, across reconnects, a feature is active exactly when it is
   among the options and no configure message handled so far lacked it. The
   features only shrink and are never negative.
   */
  lemma ActiveFeatures(options: Options, events: seq<Event>, k: nat)
    requires Possible(Initial(options), events)
    ensures var s := After(options, events);
      && 0 <= s.session.activeFeatures <= OptionMask(options)
      && SignExtended(s.session.activeFeatures) == ZeroExtended(s.session.activeFeatures)
      && (Bit(s.session.activeFeatures, k) <==> Common(options, HandledIn(Logs(s)), k))
  {
    AfterIsInvariant(options, events);
    RunKeepsOptions(Initial(options), events);
    var s := After(options, events);
    assert HandledIn(Logs(s)) == HandledIn(s.past) + s.log.handled by {
      assert Logs(s)[..|s.past|] == s.past;
    }
    FeaturesInParts(OptionMask(options), HandledIn(s.past), s.log.handled);
    FeaturesAreTheCommonOnes(OptionMask(options), HandledIn(Logs(s)), k);
    hide After, Possible, Pending, Shape, Aligned, Delays, IdleBound, FeaturesAfter, Bit, Denies, HandledIn;
  }

  lemma HasVoiceIsBit3(features: I32)
    requires features >= 0
    ensures HasVoice(features) <==> Bit(features, 3)
  {
    And32IsBitAnd(features, FEATURE_VOICE);
    BitsOfEight(features);
  }

  lemma VoiceOption(options: Options)
    ensures Bit(OptionMask(options), 3) <==> options.enableVoice
  {
    var n := OptionMask(options);
    assert n / 8 % 2 == if options.enableVoice then 1 else 0;
    assert Bit(n, 3) == Bit(n / 2, 2) == Bit(n / 4, 1) == Bit(n / 8, 0);
  }

  /** Voice is enabled only if the options ask for it. */
  lemma VoiceIsAnOption(options: Options, events: seq<Event>)
    requires Possible(Initial(options), events)
    ensures After(options, events).session.voiceEnabled ==> options.enableVoice
  {
    AfterIsInvariant(options, events);
    ActiveFeatures(options, events, 3);
    VoiceOption(options);
    var s := After(options, events);
    HasVoiceIsBit3(s.session.activeFeatures);
    hide After, Possible, Pending, Shape, Aligned, Delays, IdleBound, Books, Bit, HasVoice, OptionMask;
  }

  /**
   Reply p that a sequence of messages is owed answers one message j, the replies
   before it the messages before j; unless it answers a ping, it advertises the
   features left after j.
   */
  lemma {:induction false} AdvertisedFeatures(features: I32, handled: seq<seq<Byte>>, p: nat) returns (j: nat)
    requires p < |Owed(features, handled)|
    ensures j < |handled| && p == |Owed(features, handled[..j])|
    ensures var o := Owed(features, handled)[p];
      && Reply(FeaturesAfter(features, handled[..j]), Parsed(handled[j])) == Some(o)
      && (!o.PingReply? ==>
          && (o.ConfigureReply? || o.SetActiveReply?)
          && o.features == FeaturesAfter(features, handled[..j + 1]))
  {
    hide Parsed, And32;
    var n := |handled|;
    var before := handled[..n - 1];
    if p < |Owed(features, before)| {
      j := AdvertisedFeatures(features, before, p);
      assert before[..j] == handled[..j] && before[..j + 1] == handled[..j + 1];
    } else {
      j := n - 1;
      assert handled[..n] == handled;
    }
  }

  /**
   Every reply queued in the current generation, at any moment of a run, answers
   one message j of it, in order; and unless it answers a ping, it advertises
   exactly the features common to the options and to every configure message
   handled so far, in this and earlier generations, message j included.
   */
  lemma RepliesAdvertiseTheActive(options: Options, events: seq<Event>, p: nat) returns (j: nat)
    requires Possible(Initial(options), events)
    requires p < |Replies(After(options, events).log.queued)|
    ensures var s := After(options, events);
      var o := Replies(s.log.queued)[p];
      && j < |s.log.handled| && p == |Owed(s.log.features, s.log.handled[..j])|
      && (o.PingReply? <==> Parsed(s.log.handled[j]).Ping?)
      && (o.ConfigureReply? <==> Parsed(s.log.handled[j]).Configure?)
      && (o.SetActiveReply? <==> Parsed(s.log.handled[j]).SetActive?)
      && (!o.PingReply? ==> (o.ConfigureReply? || o.SetActiveReply?) && 0 <= o.features <= OptionMask(options))
      && (!o.PingReply? ==>
          forall k: nat :: Bit(o.features, k) <==> Common(options, HandledIn(s.past) + s.log.handled[..j + 1], k))
  {
    RepliesAreOwed(options, events);
    FeaturesOfGeneration(options, events);
    hide After, Possible, Parsed, Denies, FeaturesAfter, Bit, HandledIn, Owed, Replies, OptionMask, Logs;
    var s := After(options, events);
    CurrentIsALog(s);
    j := AdvertisedFeatures(s.log.features, s.log.handled, p);
    var sofar := s.log.handled[..j + 1];
    FeaturesInParts(OptionMask(options), HandledIn(s.past), sofar);
    forall k: nat ensures 0 <= FeaturesAfter(OptionMask(options), HandledIn(s.past) + sofar) <= OptionMask(options)
      ensures Bit(FeaturesAfter(OptionMask(options), HandledIn(s.past) + sofar), k) <==>
        Common(options, HandledIn(s.past) + sofar, k)
    {
      FeaturesAreTheCommonOnes(OptionMask(options), HandledIn(s.past) + sofar, k);
    }
    FeaturesAreTheCommonOnes(OptionMask(options), HandledIn(s.past) + sofar, 0);
  }

  /** A generation begins with the features all earlier ones left. */
  lemma FeaturesOfGeneration(options: Options, events: seq<Event>)
    requires Possible(Initial(options), events)
    ensures var s := After(options, events);
      s.log.features == FeaturesAfter(OptionMask(options), HandledIn(s.past))
  {
    AfterIsInvariant(options, events);
    RunKeepsOptions(Initial(options), events);
    hide After, Possible, Pending, Shape, Aligned, Delays, IdleBound, FeaturesAfter, HandledIn, Owed, Replies,
      Frames, OptionMask, ProgressOf;
  }

  lemma CurrentIsALog(s: State)
    ensures s.log in Logs(s)
  {
  }

  // ------------------------------------------------------------ the delay

  /**
   After k losses in a row the next delay is min(100 * 2^k, 30000) ms, and the
   waiting scheduled for them adds up as `TotalWait` says.
   */
  lemma DelayIsBackoff(options: Options, events: seq<Event>)
    requires Possible(Initial(options), events)
    ensures var s := After(options, events);
      var k := |s.delays|;
      && s.link.reconnectDelay == Min(100 * Pow2(k), 30000)
      && Total(s.delays) == if k <= 9 then 100 * (Pow2(k) - 1) else 51100 + 30000 * (k - 9)
  {
    AfterIsInvariant(options, events);
    TotalWait(After(options, events).delays);
    hide After, Possible, Pending, Shape, Ledger, Aligned, IdleBound, Total;
  }

  // ------------------------------------------------------------ quiescence

  predicate Quiet(s: State) {
    s.link.userDisconnect && s.link.connection == Disconnected && !s.link.stream
  }

  function QueuedIn(logs: seq<Log>): seq<Message> {
    if logs == [] then [] else QueuedIn(logs[..|logs| - 1]) + logs[|logs| - 1].queued
  }

  function WrittenIn(logs: seq<Log>): seq<seq<Byte>> {
    if logs == [] then [] else WrittenIn(logs[..|logs| - 1]) + logs[|logs| - 1].written
  }

  /** Nothing more was queued, written or handled. */
  predicate SameHistory(s: State, t: State) {
    && QueuedIn(Logs(s)) == QueuedIn(Logs(t))
    && WrittenIn(Logs(s)) == WrittenIn(Logs(t))
    && HandledIn(Logs(s)) == HandledIn(Logs(t))
  }

  lemma ClosingAddsNoHistory(s: State)
    ensures SameHistory(s, CloseStream(s))
  {
    var t := CloseStream(s);
    assert Logs(t)[..|Logs(t)| - 1] == Logs(s);
  }

  lemma CallsStayQuiet(s: State, e: Event)
    requires Invariant(s) && Quiet(s) && Enabled(s, e)
    requires e.CallStartVoice? || e.CallStopVoice? || e.CallSendVoiceData? || e.CallSendKey? || e.CallSendText?
      || e.CallLaunchApp?
    ensures Quiet(Step(s, e)) && Logs(Step(s, e)) == Logs(s)
  {
    hide QueueMessage, QueuePayloads, Chunks, Pending, Ledger, Aligned, Delays, IdleBound;
  }

  lemma StaysQuiet(s: State, e: Event)
    requires Invariant(s) && Quiet(s) && Enabled(s, e) && !e.CallConnect?
    ensures Quiet(Step(s, e)) && SameHistory(s, Step(s, e))
  {
    hide SameHistory;
    match e
    case CallConnect(_) =>
    case CallDisconnect =>
      var t := s.(link := s.link.(userDisconnect := true),
                  timers := s.timers.(reconnectArmed := false, voiceArmed := false, idleArmed := None));
      ClosingAddsNoHistory(t);
      SameLogs(s, t, Step(s, e));
      hide CloseStream;
    case ReconnectExpires => SameLogs(s, s, Step(s, e));
    case IdleExpires => SameLogs(s, s, Step(s, e));
    case VoiceExpires => SameLogs(s, s, Step(s, e));
    case OnReconnect(_) => SameLogs(s, s, Step(s, e));
    case OnIdle(_) => SameLogs(s, s, Step(s, e));
    case OnVoiceTimer => SameLogs(s, s, Step(s, e));
    case OnResolved(_, _) => CompletionStaysQuiet(s, e);
    case OnConnected(_, _) => CompletionStaysQuiet(s, e);
    case OnHandshake(_, _) => CompletionStaysQuiet(s, e);
    case OnLengthByte(_, _) => CompletionStaysQuiet(s, e);
    case OnBody(_, _) => CompletionStaysQuiet(s, e);
    case OnWritten(_, _) => CompletionStaysQuiet(s, e);
    case _ =>
      CallsStayQuiet(s, e);
      SameLogs(s, s, Step(s, e));
      hide Step;
  }

  lemma NoStreamNoCompletion(s: State, e: Event)
    requires Pending(s) && !s.link.stream && Enabled(s, e) && IsCompletion(e)
    ensures e.gen != s.link.generation
  {
  }

  lemma CompletionStaysQuiet(s: State, e: Event)
    requires Invariant(s) && Quiet(s) && Enabled(s, e)
    requires IsCompletion(e)
    ensures Quiet(Step(s, e)) && SameHistory(s, Step(s, e))
  {
    NoStreamNoCompletion(s, e);
    StaleCompletionIsIgnored(s, e);
    hide Step;
  }

  lemma SameLogs(s: State, t: State, u: State)
    requires Logs(s) == Logs(t)
    requires Logs(t) == Logs(u) || (u == SetConnection(CloseStream(t), u.link.connection))
    ensures SameHistory(s, u)
  {
    if Logs(t) != Logs(u) {
      ClosingAddsNoHistory(t);
    }
  }

  lemma {:induction false} RunStaysQuiet(s: State, events: seq<Event>)
    requires Invariant(s) && Quiet(s) && Possible(s, events)
    requires forall e | e in events :: !e.CallConnect?
    ensures Quiet(Run(s, events)) && SameHistory(s, Run(s, events))
    decreases |events|
  {
    hide Step, Enabled, Invariant, QueuedIn, WrittenIn, HandledIn, Logs;
    if events != [] {
      StaysQuiet(s, events[0]);
      StepKeepsInvariant(s, events[0]);
      RunStaysQuiet(Step(s, events[0]), events[1..]);
    }
  }

  /**
   After any run, once `disconnect` has run and until the next `connect`,
   whatever is still pending fires: disconnected, no stream, nothing queued,
   written or handled.
   */
  lemma QuietAfterDisconnect(options: Options, before: seq<Event>, after: seq<Event>)
    requires Possible(Initial(options), before)
    requires Possible(UserDisconnect(After(options, before)), after)
    requires forall e | e in after :: !e.CallConnect?
    ensures var s := UserDisconnect(After(options, before));
      Quiet(Run(s, after)) && SameHistory(s, Run(s, after))
  {
    AfterIsInvariant(options, before);
    StepKeepsInvariant(After(options, before), CallDisconnect);
    RunStaysQuiet(UserDisconnect(After(options, before)), after);
    hide After, Possible, Invariant;
  }
}
