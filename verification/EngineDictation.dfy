/**
 Voice over a whole run: the voice messages queued in every generation are, in
 order, the utterances of the sessions confirmed in it, each with the chunks of
 the data sent while its session was open.
 */
module EngineDictation {
  import opened Wrappers
  import opened Ints
  import opened Varint
  import opened Framing
  import opened Messages
  import opened Voice
  import opened Engine
  import opened EngineSafety
  import opened EngineShape
  import opened EngineLedger
  import opened EngineReader
  import opened EngineTimers
  import opened EngineRuns
  import opened EngineTraffic

  /** One voice session: the data of the `sendVoiceData` calls made while it was open. */
  datatype Dictation = Dictation(gen: nat, session: I32, pcms: seq<seq<Byte>>, ended: bool)

  function AllChunks(pcms: seq<seq<Byte>>): seq<seq<Byte>> {
    if pcms == [] then [] else AllChunks(pcms[..|pcms| - 1]) + Chunks(pcms[|pcms| - 1])
  }

  /** What is to be sent of a session. */
  function Rendered(d: Dictation): seq<Outgoing> {
    [VoiceBegin(d.session)] + Payloads(Utterance(d.session, AllChunks(d.pcms)))
      + if d.ended then [VoiceEnd(d.session)] else []
  }

  function RenderedAll(ds: seq<Dictation>): seq<Sent> {
    if ds == [] then []
    else RenderedAll(ds[..|ds| - 1]) + Tagged(ds[|ds| - 1].gen, Rendered(ds[|ds| - 1]))
  }

  predicate IsOpen(ds: seq<Dictation>, gen: nat) {
    ds != [] && ds[|ds| - 1].gen == gen && !ds[|ds| - 1].ended
  }

  /** The sessions after one more event: one is confirmed, spoken to or ended. */
  function Dictated(ds: seq<Dictation>, s: State, e: Event): seq<Dictation> {
    var g, n := s.link.generation, |ds|;
    match e
    case CallSendVoiceData(pcm) =>
      if IsOpen(ds, g) then ds[..n - 1] + [ds[n - 1].(pcms := ds[n - 1].pcms + [pcm])] else ds
    case CallStopVoice =>
      if IsOpen(ds, g) then ds[..n - 1] + [ds[n - 1].(ended := true)] else ds
    case OnBody(gen, body) =>
      if gen == g && body.Some? && s.session.voiceStarting && Parsed(body.value).VoiceStarted?
      then ds + [Dictation(g, Parsed(body.value).session, [], false)] else ds
    case _ => ds
  }

  /** The sessions of a run. */
  function Dictations(ds: seq<Dictation>, s: State, events: seq<Event>): seq<Dictation>
    requires Possible(s, events)
    decreases |events|
  {
    if events == [] then ds else Dictations(Dictated(ds, s, events[0]), Step(s, events[0]), events[1..])
  }

  /** The voice messages among messages sent. */
  function Speech(cs: seq<Sent>): seq<Sent> {
    if cs == [] then []
    else (if IsVoice(cs[0].message) then [cs[0]] else []) + Speech(cs[1..])
  }

  /** The engine's session is the one that is open; none is of a later generation. */
  predicate InStep(s: State, ds: seq<Dictation>) {
    && s.session.voiceSession ==
        (if IsOpen(ds, s.link.generation) then Some(ds[|ds| - 1].session) else None)
    && (ds != [] ==> ds[|ds| - 1].gen <= s.link.generation)
  }

  // ------------------------------------------------------------ speech

  lemma {:induction false} SpeechOfConcat(cs: seq<Sent>, ds: seq<Sent>)
    ensures Speech(cs + ds) == Speech(cs) + Speech(ds)
  {
    hide IsVoice;
    if cs == [] {
      assert cs + ds == ds;
    } else {
      assert (cs + ds)[1..] == cs[1..] + ds;
      SpeechOfConcat(cs[1..], ds);
      Regrouped(if IsVoice(cs[0].message) then [cs[0]] else [], Speech(cs[1..]), Speech(ds));
    }
  }

  lemma {:induction false} SpeechOfVoice(gen: nat, os: seq<Outgoing>)
    requires forall o | o in os :: IsVoice(o)
    ensures Speech(Tagged(gen, os)) == Tagged(gen, os)
  {
    hide IsVoice;
    if os != [] {
      var cs := Tagged(gen, os);
      assert cs[1..] == Tagged(gen, os[1..]) && cs == [cs[0]] + cs[1..];
      SpeechOfVoice(gen, os[1..]);
    }
  }

  lemma SpeechOfOne(gen: nat, os: seq<Outgoing>)
    requires |os| <= 1
    ensures Speech(Tagged(gen, os)) == if os != [] && IsVoice(os[0]) then Tagged(gen, os) else []
  {
    hide IsVoice;
    if os != [] {
      assert Tagged(gen, os) == [Sent(gen, os[0])];
      assert [Sent(gen, os[0])][1..] == [];
    }
  }

  // ------------------------------------------------------------ renderings

  lemma RenderedOfOneMore(ds: seq<Dictation>, d: Dictation)
    ensures RenderedAll(ds + [d]) == RenderedAll(ds) + Tagged(d.gen, Rendered(d))
  {
    hide Rendered;
    assert (ds + [d])[..|ds|] == ds;
  }

  /** The last session goes on: what is to be sent of it grows. */
  lemma RenderedGrows(ds: seq<Dictation>, d: Dictation, os: seq<Outgoing>)
    requires ds != [] && d.gen == ds[|ds| - 1].gen && Rendered(d) == Rendered(ds[|ds| - 1]) + os
    ensures RenderedAll(ds[..|ds| - 1] + [d]) == RenderedAll(ds) + Tagged(d.gen, os)
  {
    hide Rendered;
    var before, last := ds[..|ds| - 1], ds[|ds| - 1];
    assert ds == before + [last];
    RenderedOfOneMore(before, last);
    RenderedOfOneMore(before, d);
    TaggedConcat(d.gen, Rendered(last), os);
    Regrouped(RenderedAll(before), Tagged(d.gen, Rendered(last)), Tagged(d.gen, os));
    hide RenderedAll, Tagged;
  }

  lemma RenderedBegin(d: Dictation)
    requires d.pcms == [] && !d.ended
    ensures Rendered(d) == [VoiceBegin(d.session)]
  {
    assert AllChunks([]) == [] && Payloads(Utterance(d.session, [])) == [];
  }

  lemma RenderedMore(d: Dictation, pcm: seq<Byte>)
    requires !d.ended
    ensures Rendered(d.(pcms := d.pcms + [pcm])) == Rendered(d) + Payloads(Utterance(d.session, Chunks(pcm)))
  {
    hide Chunks;
    assert (d.pcms + [pcm])[..|d.pcms|] == d.pcms;
    var a, b := AllChunks(d.pcms), Chunks(pcm);
    hide AllChunks;
    PayloadsOfConcat(d.session, a, b);
    hide Payloads;
    Regrouped([VoiceBegin(d.session)], Payloads(Utterance(d.session, a)), Payloads(Utterance(d.session, b)));
  }

  lemma PayloadsOfConcat(session: I32, a: seq<seq<Byte>>, b: seq<seq<Byte>>)
    ensures Payloads(Utterance(session, a + b)) == Payloads(Utterance(session, a)) + Payloads(Utterance(session, b))
  {
  }

  lemma RenderedEnd(d: Dictation)
    requires !d.ended
    ensures Rendered(d.(ended := true)) == Rendered(d) + [VoiceEnd(d.session)]
  {
    hide AllChunks, Payloads;
  }

  // ------------------------------------------------------------ the steps

  /** Each event speaks exactly what it adds to the sessions. */
  lemma StepSpeaks(s: State, e: Event, ds: seq<Dictation>)
    requires Enabled(s, e) && InStep(s, ds) && Pending(s) && Shape(s)
    ensures RenderedAll(Dictated(ds, s, e)) == RenderedAll(ds) + Speech(Tagged(s.link.generation, QueuedBy(s, e)))
  {
    hide RenderedAll, Rendered, Speech, Tagged, Parsed, Pending, Shape, Chunks, Payloads;
    var g := s.link.generation;
    SpeakingIsLive(s);
    if e.CallSendVoiceData? && IsOpen(ds, g) {
      var last := ds[|ds| - 1];
      var os := Payloads(Utterance(last.session, Chunks(e.pcm)));
      RenderedMore(last, e.pcm);
      RenderedGrows(ds, last.(pcms := last.pcms + [e.pcm]), os);
      PayloadsAreVoice(last.session, Chunks(e.pcm));
      SpeechOfVoice(g, os);
    } else if e.CallStopVoice? && IsOpen(ds, g) {
      var last := ds[|ds| - 1];
      RenderedEnd(last);
      RenderedGrows(ds, last.(ended := true), [VoiceEnd(last.session)]);
      SpeechOfOne(g, [VoiceEnd(last.session)]);
    } else if e.OnBody? {
      AnswerSpeaks(s, e, ds);
    } else {
      SpeechOfOne(g, QueuedBy(s, e));
      Regrouped(RenderedAll(ds), [], []);
    }
  }

  lemma PayloadsAreVoice(session: I32, chunks: seq<seq<Byte>>)
    ensures forall o | o in Payloads(Utterance(session, chunks)) :: IsVoice(o)
  {
  }

  lemma AnswerSpeaks(s: State, e: Event, ds: seq<Dictation>)
    requires Enabled(s, e) && e.OnBody? && Pending(s)
    ensures RenderedAll(Dictated(ds, s, e)) == RenderedAll(ds) + Speech(Tagged(s.link.generation, QueuedBy(s, e)))
  {
    hide RenderedAll, Rendered, Speech, Tagged, Parsed, Pending;
    var g := s.link.generation;
    SpeechOfOne(g, QueuedBy(s, e));
    Regrouped(RenderedAll(ds), [], []);
    if e.gen == g && e.body.Some? {
      CurrentMeansLive(s, ReadBody(g));
      if s.session.voiceStarting && Parsed(e.body.value).VoiceStarted? {
        var d := Dictation(g, Parsed(e.body.value).session, [], false);
        RenderedBegin(d);
        RenderedOfOneMore(ds, d);
      }
    }
  }

  lemma StepStaysInStep(s: State, e: Event, ds: seq<Dictation>)
    requires Enabled(s, e) && InStep(s, ds) && Pending(s) && Shape(s)
    ensures InStep(Step(s, e), Dictated(ds, s, e))
  {
    hide Step, Parsed, Pending, Shape, Chunks, Payloads, SessionAfter, HandledBy;
    StepGrows(s, e);
    SpeakingIsLive(s);
    var os := QueuedBy(s, e);
    if e.CallSendVoiceData? && s.session.voiceSession.Some? {
      PayloadsKeepSession(s.session.voiceSession, s.session.voiceSession.value, Chunks(e.pcm));
    } else if os == [] {
      NoMessage(s.session.voiceSession);
    } else {
      OneMessage(s.session.voiceSession, os[0]);
      assert os == [os[0]];
    }
    if e.OnBody? && e.gen == s.link.generation {
      CurrentMeansLive(s, ReadBody(e.gen));
    }
  }

  lemma {:induction false} RunDictates(s: State, events: seq<Event>, ds: seq<Dictation>)
    requires Invariant(s) && InStep(s, ds) && Possible(s, events)
    ensures RenderedAll(Dictations(ds, s, events)) == RenderedAll(ds) + Speech(CalledFor(s, events))
    decreases |events|
  {
    hide Step, Enabled, Invariant, InStep, RenderedAll, Speech, Tagged, QueuedBy, Dictated, Pending, Shape;
    if events == [] {
      SpeechOfNothing();
      Regrouped(RenderedAll(ds), [], []);
    } else {
      var t := Step(s, events[0]);
      var first := Tagged(s.link.generation, QueuedBy(s, events[0]));
      InvariantParts(s);
      StepKeepsInvariant(s, events[0]);
      StepSpeaks(s, events[0], ds);
      StepStaysInStep(s, events[0], ds);
      RunDictates(t, events[1..], Dictated(ds, s, events[0]));
      SpeechOfConcat(first, CalledFor(t, events[1..]));
      Regrouped(RenderedAll(ds), Speech(first), Speech(CalledFor(t, events[1..])));
    }
  }

  lemma SpeechOfNothing()
    ensures Speech([]) == []
  {
  }

  /**
   Over a whole run the voice messages queued in every generation are exactly the
   utterances of the sessions confirmed in it, in order: begin, the chunks of every
   `sendVoiceData` call made while the session was open, call by call, and end if
   it was stopped.
   */
  lemma VoiceIsDictated(options: Options, events: seq<Event>)
    requires Possible(Initial(options), events)
    ensures Speech(SentIn(Logs(After(options, events)))) == RenderedAll(Dictations([], Initial(options), events))
  {
    InitialInvariant(options);
    WhatIsCalledForIsSent(options, events);
    assert InStep(Initial(options), []);
    RunDictates(Initial(options), events, []);
    assert RenderedAll([]) == [];
    hide Invariant, Initial, RenderedAll, Speech, SentIn, Logs, CalledFor, Dictations;
  }

  /** What a listener makes of data that is padded call by call. */
  function PaddedCalls(pcms: seq<seq<Byte>>): seq<Byte> {
    if pcms == [] then []
    else
      var pcm := pcms[|pcms| - 1];
      PaddedCalls(pcms[..|pcms| - 1]) + pcm + Zeros(PaddingOf(|pcm|))
  }

  lemma {:induction false} ConcatOfConcat(a: seq<seq<Byte>>, b: seq<seq<Byte>>)
    ensures Concat(a + b) == Concat(a) + Concat(b)
  {
    if a == [] {
      assert a + b == b;
    } else {
      assert (a + b)[1..] == a[1..] + b;
      ConcatOfConcat(a[1..], b);
      Regrouped(a[0], Concat(a[1..]), Concat(b));
    }
  }

  /** The payloads of a session carry the data of all its calls, each followed by its padding. */
  lemma {:induction false} DictationCarriesTheData(pcms: seq<seq<Byte>>)
    ensures Concat(AllChunks(pcms)) == PaddedCalls(pcms)
  {
    hide Chunks, Concat, Zeros, PaddingOf;
    if pcms == [] {
      assert Concat([]) == [] by { NothingConcatenated(); }
    } else {
      var before, pcm := pcms[..|pcms| - 1], pcms[|pcms| - 1];
      DictationCarriesTheData(before);
      ChunksCarryTheData(pcm);
      ConcatOfConcat(AllChunks(before), Chunks(pcm));
      Regrouped(PaddedCalls(before), pcm, Zeros(PaddingOf(|pcm|)));
    }
  }

  lemma NothingConcatenated()
    ensures Concat([]) == []
  {
  }
}
