/**
 What the client makes of the features a television supports, and what it answers.
 */
module EngineFeatures {
  import opened Wrappers
  import opened Ints
  import opened Varint
  import opened Framing
  import opened Messages
  import opened Voice
  import opened Engine
  import opened EngineSafety
  import opened EngineShape
  import opened EngineLedger
  import opened EngineReader
  import opened EngineTimers
  import opened EngineRuns
  import opened EngineTraffic
  import opened EngineCommands
  import opened EngineLoss

  // ------------------------------------------------------------ the options

  /** The number with these bits, the lowest first. */
  function FromBits(bits: seq<bool>): nat {
    if bits == [] then 0 else (if bits[0] then 1 else 0) + 2 * FromBits(bits[1..])
  }

  lemma {:induction false} BitsOfFromBits(bits: seq<bool>, k: nat)
    ensures Bit(FromBits(bits), k) <==> k < |bits| && bits[k]
  {
    if bits == [] {
      NoBits(k);
    } else if k != 0 {
      BitsOfFromBits(bits[1..], k - 1);
      HalfOf(if bits[0] then 1 else 0, FromBits(bits[1..]));
    }
  }

  lemma HalfOf(r: nat, q: nat)
    requires r < 2
    ensures (r + 2 * q) / 2 == q
  {
  }

  lemma OneBitMore(a: bool, more: seq<bool>)
    ensures FromBits([a] + more) == (if a then 1 else 0) + 2 * FromBits(more)
  {
    assert ([a] + more)[1..] == more;
  }

  lemma FourBits(a: bool, b: bool, c: bool, d: bool, more: seq<bool>)
    ensures FromBits([a, b, c, d] + more) ==
      (if a then 1 else 0) + (if b then 2 else 0) + (if c then 4 else 0) + (if d then 8 else 0) + 16 * FromBits(more)
  {
    hide FromBits;
    OneBitMore(d, more);
    OneBitMore(c, [d] + more);
    OneBitMore(b, [c] + ([d] + more));
    OneBitMore(a, [b] + ([c] + ([d] + more)));
    assert [a] + ([b] + ([c] + ([d] + more))) == [a, b, c, d] + more;
  }

  /**
   A client offers ping (0), key (1), power (5), volume (6) and app link (9), IME (2)
   and voice (3) if the options ask for them, and nothing else.
   */
  lemma OptionBits(options: Options, k: nat)
    ensures Bit(OptionMask(options), k) <==>
      k in {0, 1, 5, 6, 9} || (k == 2 && options.enableIme) || (k == 3 && options.enableVoice)
  {
    hide Bit, FromBits;
    var top := [false, true, false, false];
    var high := [false, true, true, false] + top;
    var bits := [true, true, options.enableIme, options.enableVoice] + high;
    FourBits(true, true, options.enableIme, options.enableVoice, high);
    FourBits(false, true, true, false, top);
    FourBits(false, true, false, false, []);
    assert top + [] == top;
    NoBitsSet();
    assert FromBits(high) == 38 && FromBits(bits) == OptionMask(options);
    BitsOfFromBits(bits, k);
    assert bits == [true, true, options.enableIme, options.enableVoice, false, true, true, false, false, true, false,
      false];
  }

  lemma NoBitsSet()
    ensures FromBits([]) == 0
  {
  }

  // ------------------------------------------------------------ voice enabled

  predicate SaysConfigure(ms: seq<seq<Byte>>) {
    exists m :: m in ms && Parsed(m).Configure?
  }

  /** What is known of the features is what the configure messages say. */
  lemma {:induction false} KnownFeatures(options: Options, handled: seq<seq<Byte>>)
    ensures var k := KnownAfter(options, handled);
      && k.active == FeaturesAfter(OptionMask(options), handled)
      && (k.voiceEnabled <==> SaysConfigure(handled) && HasVoice(k.active))
  {
    hide Parsed, HasVoice, And32;
    if handled != [] {
      var before, last := handled[..|handled| - 1], handled[|handled| - 1];
      KnownFeatures(options, before);
      assert handled == before + [last];
      assert forall m :: m in handled <==> m in before || m == last;
    }
  }

  lemma {:induction false} RunKeepsKnown(s: State, events: seq<Event>)
    requires Invariant(s) && KnowsRight(s) && Possible(s, events)
    ensures KnowsRight(Run(s, events))
    decreases |events|
  {
    hide Step, Enabled, Invariant, KnowsRight, Pending, Shape;
    if events != [] {
      InvariantParts(s);
      StepKeepsInvariant(s, events[0]);
      StepKeepsKnowledge(s, events[0]);
      RunKeepsKnown(Step(s, events[0]), events[1..]);
    }
  }

  lemma AfterKnows(options: Options, events: seq<Event>)
    requires Possible(Initial(options), events)
    ensures Current(After(options, events)) == KnownAfter(options, HandledIn(Logs(After(options, events))))
  {
    InitialInvariant(options);
    KnowsRightAtFirst(options);
    RunKeepsKnown(Initial(options), events);
    RunKeepsOptions(Initial(options), events);
    hide Invariant, KnownAfter, HandledIn, Logs, Run, Possible;
  }

  /** Every configure message so far supports voice, bit 3 of its features. */
  predicate AllSupportVoice(ms: seq<seq<Byte>>) {
    forall m :: m in ms && Parsed(m).Configure? ==> Bit(AsU32(Parsed(m).supported), 3)
  }

  /**
   After any run voice is enabled if and only if the options ask for it, and at
   least one configure message was handled, and all of them supported voice.
   */
  lemma VoiceEnabledIff(options: Options, events: seq<Event>)
    requires Possible(Initial(options), events)
    ensures var s := After(options, events);
      var handled := HandledIn(Logs(s));
      s.session.voiceEnabled <==> options.enableVoice && SaysConfigure(handled) && AllSupportVoice(handled)
  {
    AfterKnows(options, events);
    hide After, Possible, KnownAfter, FeaturesAfter, HandledIn, Logs, HasVoice, Bit, OptionMask, Parsed;
    var handled := HandledIn(Logs(After(options, events)));
    KnownFeatures(options, handled);
    FeaturesAreTheCommonOnes(OptionMask(options), handled, 3);
    OptionBits(options, 3);
    HasVoiceIsBit3(FeaturesAfter(OptionMask(options), handled));
  }

  /**
   After any run `startVoice` starts a session if and only if voice is enabled as
   above, the engine is connected, and no session is open or being started;
   otherwise it changes nothing.
   */
  lemma VoiceStartsIff(options: Options, events: seq<Event>)
    requires Possible(Initial(options), events)
    ensures var s := After(options, events);
      var t := Step(s, CallStartVoice);
      var handled := HandledIn(Logs(s));
      if && options.enableVoice && SaysConfigure(handled) && AllSupportVoice(handled)
         && s.link.stream && SaysStart(s.log.handled)
         && !s.session.voiceStarting && s.session.voiceSession.None?
      then t.session == s.session.(voiceStarting := true) && t.timers.voiceArmed
        && t.log.queued == s.log.queued + [Key(84, 3)]
      else t == s
  {
    VoiceEnabledIff(options, events);
    ConnectedRightAfter(options, events);
    var s := After(options, events);
    hide After, Possible, HandledIn, Logs, SaysConfigure, AllSupportVoice, SaysStart;
    StartVoiceQueues(s);
  }

  lemma StartVoiceQueues(s: State)
    ensures var t := StartVoice(s);
      if s.session.voiceEnabled && !s.session.voiceStarting && s.session.voiceSession.None?
         && s.link.connection == Connected
      then t.session == s.session.(voiceStarting := true) && t.timers.voiceArmed
        && (s.link.stream ==> t.log.queued == s.log.queued + [Key(84, 3)])
      else t == s
  {
    hide QueueMessage;
  }

  // ------------------------------------------------------------ one answer each

  /** The number of the reply a message asks for. */
  function Asks(m: Incoming): seq<nat> {
    if m.Configure? then [1] else if m.SetActive? then [2] else if m.Ping? then [9] else []
  }

  function Answers(o: Outgoing): seq<nat> {
    if o.ConfigureReply? then [1] else if o.SetActiveReply? then [2] else if o.PingReply? then [9] else []
  }

  function AllAsked(ms: seq<seq<Byte>>): seq<nat> {
    if ms == [] then [] else AllAsked(ms[..|ms| - 1]) + Asks(Parsed(ms[|ms| - 1]))
  }

  function AllAnswered(q: seq<Outgoing>): seq<nat> {
    if q == [] then [] else AllAnswered(q[..|q| - 1]) + Answers(q[|q| - 1])
  }

  lemma AnsweredAlso(q: seq<Outgoing>, o: Option<Message>)
    ensures AllAnswered(q + AsSeq(o)) == AllAnswered(q) + if o.Some? then Answers(o.value) else []
  {
    hide Answers;
    if o.Some? {
      assert (q + [o.value])[..|q|] == q;
    } else {
      assert q + [] == q;
    }
  }

  lemma ReplyAnswers(features: I32, m: Incoming)
    ensures var o := Reply(features, m); (if o.Some? then Answers(o.value) else []) == Asks(m)
  {
    hide And32;
  }

  lemma {:induction false} OwedAreAsked(features: I32, handled: seq<seq<Byte>>)
    ensures AllAnswered(Owed(features, handled)) == AllAsked(handled)
  {
    hide Parsed, FeaturesAfter, Reply, Answers, Asks, AsSeq, AllAnswered;
    if handled == [] {
      NothingAnswered();
    } else {
      var before, m := handled[..|handled| - 1], Parsed(handled[|handled| - 1]);
      OwedAreAsked(features, before);
      AnsweredAlso(Owed(features, before), Reply(FeaturesAfter(features, before), m));
      ReplyAnswers(FeaturesAfter(features, before), m);
    }
  }

  lemma NothingAnswered()
    ensures AllAnswered([]) == []
  {
  }

  lemma {:induction false} RepliesAnswer(q: seq<Outgoing>)
    ensures AllAnswered(Replies(q)) == AllAnswered(q)
  {
    if q != [] {
      var before, o := q[..|q| - 1], q[|q| - 1];
      RepliesAnswer(before);
      if IsReply(o) {
        assert Replies(q)[..|Replies(q)| - 1] == Replies(before);
      } else {
        assert Replies(q) == Replies(before);
      }
    }
  }

  /**
   In every generation each configure, set-active and ping message handled is
   answered by one reply of its kind, in order, and nothing else is.
   */
  lemma EachIsAnsweredOnce(options: Options, events: seq<Event>)
    requires Possible(Initial(options), events)
    ensures forall l | l in Logs(After(options, events)) :: AllAnswered(l.queued) == AllAsked(l.handled)
  {
    RepliesAreOwed(options, events);
    forall l | l in Logs(After(options, events)) ensures AllAnswered(l.queued) == AllAsked(l.handled) {
      RepliesAnswer(l.queued);
      OwedAreAsked(l.features, l.handled);
    }
    hide After, Possible;
  }
}
