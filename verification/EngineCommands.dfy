/**
 The user's commands and what becomes of them: over a whole run, exactly the
 keys, texts and links of the calls made are queued, each in the generation
 it was made in, in the order of the calls.
 */
module EngineCommands {
  import opened Wrappers
  import opened Ints
  import opened Varint
  import opened Framing
  import opened Messages
  import opened Voice
  import opened Engine
  import opened EngineSafety
  import opened EngineShape
  import opened EngineLedger
  import opened EngineReader
  import opened EngineTimers
  import opened EngineRuns
  import opened EngineTraffic

  /** The keys, texts and links among messages sent. */
  function Commands(cs: seq<Sent>): seq<Sent> {
    if cs == [] then []
    else (if IsPlain(cs[0].message) then [cs[0]] else []) + Commands(cs[1..])
  }

  /** What is known after a sequence of messages. */
  function KnownAfter(options: Options, handled: seq<seq<Byte>>): Known {
    if handled == [] then Known(0, 0, 0, OptionMask(options), false)
    else Learned(KnownAfter(options, handled[..|handled| - 1]), Parsed(handled[|handled| - 1]))
  }

  predicate KnowsRight(s: State) {
    Current(s) == KnownAfter(s.options, HandledIn(Logs(s)))
  }

  /**
   What a call commands: nothing without a stream. A text carries the counters
   of the last IME batch message handled in any generation; starting voice is
   a press of the search key.
   */
  function CommandedBy(s: State, e: Event): seq<Sent>
    requires Enabled(s, e)
  {
    if !s.link.stream then [] else
    match e
    case CallSendKey(code, direction) => [Sent(s.link.generation, Key(code, direction))]
    case CallSendText(text) =>
      var c := KnownAfter(s.options, HandledIn(Logs(s)));
      [Sent(s.link.generation, Text(text, c.ime, c.field))]
    case CallLaunchApp(link) => [Sent(s.link.generation, AppLink(link))]
    case CallStartVoice => if MayStartVoice(s) then [Sent(s.link.generation, Key(84, 3))] else []
    case _ => []
  }

  function Commanded(s: State, events: seq<Event>): seq<Sent>
    requires Possible(s, events)
    decreases |events|
  {
    if events == [] then [] else CommandedBy(s, events[0]) + Commanded(Step(s, events[0]), events[1..])
  }

  // ------------------------------------------------------------ what is known

  lemma HandledOfLogs(s: State)
    ensures HandledIn(Logs(s)) == HandledIn(s.past) + s.log.handled
  {
    assert Logs(s)[..|s.past|] == s.past;
  }

  lemma KnownOfOneMore(options: Options, h: seq<seq<Byte>>, ms: seq<seq<Byte>>)
    requires |ms| <= 1
    ensures KnownAfter(options, h + ms) ==
      if ms == [] then KnownAfter(options, h) else Learned(KnownAfter(options, h), Parsed(ms[0]))
  {
    hide Parsed, Learned;
    if ms == [] {
      assert h + ms == h;
    } else {
      assert (h + ms)[..|h|] == h;
    }
  }

  lemma HandledGrows(s: State, t: State, os: seq<Outgoing>, ms: seq<seq<Byte>>)
    requires Grows(s, t, os, ms)
    ensures HandledIn(Logs(t)) == HandledIn(Logs(s)) + ms
  {
    HandledOfLogs(s);
    HandledOfLogs(t);
    hide Logs, Parsed, SessionAfter, Learned;
    Regrouped(HandledIn(s.past), s.log.handled, ms);
    if t.past != s.past {
      assert t.past[..|t.past| - 1] == s.past;
    }
  }

  lemma StepKeepsKnowledge(s: State, e: Event)
    requires Pending(s) && Shape(s) && KnowsRight(s) && Enabled(s, e)
    ensures KnowsRight(Step(s, e))
  {
    hide Step, Pending, Shape, QueuedBy, HandledBy, Logs, HandledIn, KnownAfter;
    StepGrows(s, e);
    StepMovesDelay(s, e);
    HandledGrows(s, Step(s, e), QueuedBy(s, e), HandledBy(s, e));
    KnownOfOneMore(s.options, HandledIn(Logs(s)), HandledBy(s, e));
  }

  /** A text says what the last IME batch message said: the first counter first, the second second. */
  lemma {:induction false} CountersAreTheLast(options: Options, before: seq<seq<Byte>>, m: seq<Byte>,
                                              after: seq<seq<Byte>>)
    requires Parsed(m).ImeBatchEdit? && forall l | l in after :: !Parsed(l).ImeBatchEdit?
    ensures var k := KnownAfter(options, before + [m] + after);
      k.ime == Parsed(m).imeCounter && k.field == Parsed(m).fieldCounter
  {
    hide Parsed, And32, HasVoice;
    var all := before + [m] + after;
    if after == [] {
      assert all == before + [m] && all[..|all| - 1] == before;
    } else {
      var n := |after| - 1;
      assert all[..|all| - 1] == before + [m] + after[..n] && all[|all| - 1] == after[n];
      CountersAreTheLast(options, before, m, after[..n]);
    }
  }

  lemma {:induction false} NoBatchNoCounters(options: Options, handled: seq<seq<Byte>>)
    requires forall l | l in handled :: !Parsed(l).ImeBatchEdit?
    ensures KnownAfter(options, handled).ime == 0 && KnownAfter(options, handled).field == 0
  {
    hide Parsed, And32, HasVoice;
    if handled != [] {
      NoBatchNoCounters(options, handled[..|handled| - 1]);
    }
  }

  // ------------------------------------------------------------ the commands

  lemma {:induction false} CommandsOfConcat(cs: seq<Sent>, ds: seq<Sent>)
    ensures Commands(cs + ds) == Commands(cs) + Commands(ds)
  {
    hide IsPlain;
    if cs == [] {
      assert cs + ds == ds;
    } else {
      assert (cs + ds)[1..] == cs[1..] + ds;
      CommandsOfConcat(cs[1..], ds);
      Regrouped(if IsPlain(cs[0].message) then [cs[0]] else [], Commands(cs[1..]), Commands(ds));
    }
  }

  lemma {:induction false} NoCommands(cs: seq<Sent>)
    requires forall c | c in cs :: !IsPlain(c.message)
    ensures Commands(cs) == []
  {
    if cs != [] {
      NoCommands(cs[1..]);
    }
  }

  lemma OneOrNone(gen: nat, os: seq<Outgoing>)
    requires |os| <= 1
    ensures Commands(Tagged(gen, os)) == if os != [] && IsPlain(os[0]) then [Sent(gen, os[0])] else []
  {
    hide IsPlain;
    if os != [] {
      assert Tagged(gen, os) == [Sent(gen, os[0])];
      assert [Sent(gen, os[0])][1..] == [];
    }
  }

  /** Of what an event calls for, the commands are those of calls. */
  lemma StepCommands(s: State, e: Event)
    requires KnowsRight(s) && Enabled(s, e)
    ensures Commands(Tagged(s.link.generation, QueuedBy(s, e))) == CommandedBy(s, e)
  {
    hide Commands, Logs, HandledIn, KnownAfter, Parsed, Chunks;
    var os := QueuedBy(s, e);
    if e.CallSendVoiceData? {
      NoCommands(Tagged(s.link.generation, os));
    } else {
      OneOrNone(s.link.generation, os);
    }
    hide Tagged;
  }

  lemma {:induction false} RunCommands(s: State, events: seq<Event>)
    requires Invariant(s) && KnowsRight(s) && Possible(s, events)
    ensures Commands(CalledFor(s, events)) == Commanded(s, events)
    decreases |events|
  {
    hide Step, Enabled, Invariant, KnowsRight, Commands, QueuedBy, CommandedBy, Tagged, Pending, Shape;
    if events == [] {
      NoCommands([]);
    } else {
      InvariantParts(s);
      StepKeepsInvariant(s, events[0]);
      StepKeepsKnowledge(s, events[0]);
      StepCommands(s, events[0]);
      RunCommands(Step(s, events[0]), events[1..]);
      CommandsOfConcat(Tagged(s.link.generation, QueuedBy(s, events[0])),
                       CalledFor(Step(s, events[0]), events[1..]));
    }
  }

  /**
   Over a whole run, and in every generation of it, the keys, texts and links
   queued are exactly those commanded, in the order of the calls.
   */
  lemma CommandsAreQueued(options: Options, events: seq<Event>)
    requires Possible(Initial(options), events)
    ensures Commands(SentIn(Logs(After(options, events)))) == Commanded(Initial(options), events)
  {
    InitialInvariant(options);
    KnowsRightAtFirst(options);
    WhatIsCalledForIsSent(options, events);
    RunCommands(Initial(options), events);
    hide Invariant, Initial, Commands, SentIn, Logs, Commanded, CalledFor;
  }

  lemma KnowsRightAtFirst(options: Options)
    ensures KnowsRight(Initial(options))
  {
    var s := Initial(options);
    HandledOfLogs(s);
    assert HandledIn(s.past) == [];
    hide Logs;
  }
}
