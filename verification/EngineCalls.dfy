/**
 From calls to the wire: what a television that reads frames and fields makes of
 the bytes is exactly what the calls and its own messages called for.
 */
module EngineCalls {
  import opened Wrappers
  import opened Ints
  import opened Varint
  import opened Framing
  import opened Messages
  import opened Television
  import opened Voice
  import opened Engine
  import opened EngineSafety
  import opened EngineLedger
  import opened EngineRuns
  import opened EngineTraffic
  import opened EngineCommands
  import opened EngineWire

  /** What the television understands, message by message; what it does not is left out. */
  function AllUnderstood(ms: seq<seq<Byte>>): seq<Outgoing> {
    if ms == [] then []
    else AllUnderstood(ms[..|ms| - 1]) + OneOrNothing(Understood(ms[|ms| - 1]))
  }

  function OneOrNothing(o: Option<Outgoing>): seq<Outgoing> {
    match o case None => [] case Some(m) => [m]
  }

  /** The messages of one generation. */
  function Within(cs: seq<Sent>, gen: nat): seq<Outgoing> {
    if cs == [] then []
    else Within(cs[..|cs| - 1], gen) + if cs[|cs| - 1].gen == gen then [cs[|cs| - 1].message] else []
  }

  lemma {:induction false} EncodingsAreUnderstood(q: seq<Message>)
    ensures AllUnderstood(Encodings(q)) == q
  {
    hide Encode, Understood;
    if q != [] {
      var before := q[..|q| - 1];
      EncodingsAreUnderstood(before);
      SentIsUnderstood(q[|q| - 1]);
      assert Encodings(q)[..|q| - 1] == Encodings(before);
      assert before + [q[|q| - 1]] == q;
    }
  }

  // ------------------------------------------------------------ one generation

  lemma {:induction false} WithinConcat(cs: seq<Sent>, ds: seq<Sent>, gen: nat)
    ensures Within(cs + ds, gen) == Within(cs, gen) + Within(ds, gen)
  {
    if ds == [] {
      assert cs + ds == cs;
    } else {
      var n := |ds| - 1;
      assert (cs + ds)[..|cs + ds| - 1] == cs + ds[..n];
      WithinConcat(cs, ds[..n], gen);
      Regrouped(Within(cs, gen), Within(ds[..n], gen), if ds[n].gen == gen then [ds[n].message] else []);
    }
  }

  lemma {:induction false} WithinTagged(g: nat, q: seq<Outgoing>, gen: nat)
    ensures Within(Tagged(g, q), gen) == if g == gen then q else []
  {
    if q != [] {
      var n := |q| - 1;
      WithinTagged(g, q[..n], gen);
      assert Tagged(g, q)[..n] == Tagged(g, q[..n]);
      assert q[..n] + [q[n]] == q;
    }
  }

  /** Generation g of what was sent is what was queued in it. */
  lemma {:induction false} WithinSent(logs: seq<Log>, gen: nat)
    ensures Within(SentIn(logs), gen) == if gen < |logs| then logs[gen].queued else []
  {
    hide Within, Tagged;
    if logs == [] {
      NothingWithin(gen);
    } else {
      var n := |logs| - 1;
      WithinSent(logs[..n], gen);
      WithinConcat(SentIn(logs[..n]), Tagged(n, logs[n].queued), gen);
      WithinTagged(n, logs[n].queued, gen);
    }
  }

  lemma NothingWithin(gen: nat)
    ensures Within([], gen) == []
  {
  }

  // ------------------------------------------------------------ the wire

  /**
   Bytes to meaning: whatever part of a generation's frames is on the wire, the
   television understands the first messages its calls and answers called for, each
   whole and in order: all of them once every byte is there.
   */
  lemma WireSaysWhatWasCalledFor(options: Options, events: seq<Event>, gen: nat, wire: seq<Byte>)
    requires Possible(Initial(options), events) && gen < |Logs(After(options, events))|
    requires OnTheWire(Logs(After(options, events))[gen], wire)
    ensures var called := Within(CalledFor(Initial(options), events), gen);
      var l := Logs(After(options, events))[gen];
      && AllUnderstood(ReadBack(wire)) <= called
      && |l.written| <= |AllUnderstood(ReadBack(wire))|
      && (wire == Joined(Frames(l.queued)) ==> AllUnderstood(ReadBack(wire)) == called)
  {
    hide After, Possible, ReadBack, Deframe, Encode, OnTheWire, AllUnderstood, Within, SentIn, CalledFor, Joined, Logs;
    var logs := Logs(After(options, events));
    var l := logs[gen];
    PeerReadsWhatWasQueued(options, events, l, wire);
    WhatIsCalledForIsSent(options, events);
    WithinSent(logs, gen);
    FramesAreAsMany(l.queued);
    var k := |ReadBack(wire)|;
    assert ReadBack(wire) == Encodings(l.queued)[..k] == Encodings(l.queued[..k]);
    EncodingsAreUnderstood(l.queued[..k]);
    assert k == |l.queued| ==> l.queued[..k] == l.queued;
  }

  // ------------------------------------------------------------ keys

  /** The keys among messages, each with its direction. */
  function Keys(q: seq<Outgoing>): seq<(I32, Direction)> {
    if q == [] then []
    else Keys(q[..|q| - 1]) + if q[|q| - 1].Key? then [(q[|q| - 1].code, q[|q| - 1].direction)] else []
  }

  /**
   The keys pressed in one generation: those of the calls made with a stream, and
   the search key (84, short) for each start of voice.
   */
  function Pressed(s: State, events: seq<Event>, gen: nat): seq<(I32, Direction)>
    requires Possible(s, events)
    decreases |events|
  {
    if events == [] then []
    else PressedBy(s, events[0], gen) + Pressed(Step(s, events[0]), events[1..], gen)
  }

  function PressedBy(s: State, e: Event, gen: nat): seq<(I32, Direction)> {
    if !s.link.stream || s.link.generation != gen then []
    else match e
      case CallSendKey(code, direction) => [(code, direction)]
      case CallStartVoice => if MayStartVoice(s) then [(84, 3)] else []
      case _ => []
  }

  lemma {:induction false} KeysConcat(a: seq<Outgoing>, b: seq<Outgoing>)
    ensures Keys(a + b) == Keys(a) + Keys(b)
  {
    if b == [] {
      assert a + b == a;
    } else {
      var n := |b| - 1;
      assert (a + b)[..|a + b| - 1] == a + b[..n];
      KeysConcat(a, b[..n]);
      Regrouped(Keys(a), Keys(b[..n]), if b[n].Key? then [(b[n].code, b[n].direction)] else []);
    }
  }

  lemma {:induction false} NoKeys(q: seq<Outgoing>)
    requires forall o | o in q :: !o.Key?
    ensures Keys(q) == []
  {
    if q != [] {
      NoKeys(q[..|q| - 1]);
    }
  }

  lemma OneKey(o: Outgoing)
    ensures Keys([o]) == if o.Key? then [(o.code, o.direction)] else []
  {
    assert [o][..0] == [];
  }

  lemma StepPresses(s: State, e: Event, gen: nat)
    requires Enabled(s, e)
    ensures Keys(Within(Tagged(s.link.generation, QueuedBy(s, e)), gen)) == PressedBy(s, e, gen)
  {
    hide Keys, Within, Tagged, MayStartVoice, Chunks;
    var os := QueuedBy(s, e);
    WithinTagged(s.link.generation, os, gen);
    NoKeys([]);
    if e.CallSendVoiceData? {
      NoKeys(os);
    } else if os != [] {
      OneKey(os[0]);
      assert os == [os[0]];
    }
  }

  lemma {:induction false} RunPresses(s: State, events: seq<Event>, gen: nat)
    requires Possible(s, events)
    ensures Keys(Within(CalledFor(s, events), gen)) == Pressed(s, events, gen)
    decreases |events|
  {
    hide Step, Enabled, Keys, Within, Tagged, QueuedBy, PressedBy;
    if events == [] {
      NothingWithin(gen);
      NoKeys([]);
    } else {
      var t, first := Step(s, events[0]), Tagged(s.link.generation, QueuedBy(s, events[0]));
      StepPresses(s, events[0], gen);
      RunPresses(t, events[1..], gen);
      WithinConcat(first, CalledFor(t, events[1..]), gen);
      KeysConcat(Within(first, gen), Within(CalledFor(t, events[1..]), gen));
    }
  }

  lemma {:induction false} KeysOfPrefix(q: seq<Outgoing>, r: seq<Outgoing>)
    requires q <= r
    ensures Keys(q) <= Keys(r)
  {
    KeysConcat(q, r[|q|..]);
    assert q + r[|q|..] == r;
  }

  /**
   The keys a television reads off the wire of a generation are, in order, those of
   the calls made in it, code and direction; all of them once every byte is there.
   */
  lemma KeysComeOut(options: Options, events: seq<Event>, gen: nat, wire: seq<Byte>)
    requires Possible(Initial(options), events) && gen < |Logs(After(options, events))|
    requires OnTheWire(Logs(After(options, events))[gen], wire)
    ensures var pressed := Pressed(Initial(options), events, gen);
      var l := Logs(After(options, events))[gen];
      && Keys(AllUnderstood(ReadBack(wire))) <= pressed
      && (wire == Joined(Frames(l.queued)) ==> Keys(AllUnderstood(ReadBack(wire))) == pressed)
  {
    hide After, Possible, ReadBack, OnTheWire, AllUnderstood, Within, CalledFor, Joined, Logs, Keys, Pressed, Initial;
    WireSaysWhatWasCalledFor(options, events, gen, wire);
    RunPresses(Initial(options), events, gen);
    KeysOfPrefix(AllUnderstood(ReadBack(wire)), Within(CalledFor(Initial(options), events), gen));
  }
}
