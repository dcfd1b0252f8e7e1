/**
 The pairing session (src/pairing.cpp): the blocking connection that frames
 messages, the handshake of `start`, and `finish`, which may be retried after
 a code that was refused locally.
 */
module Pairing {
  import opened Wrappers
  import opened Ints
  import opened Varint
  import opened Wire
  import opened WireLimits
  import opened Framing
  import opened Messages
  import opened Builders
  import opened PairingCode

  datatype ReceiveError = InvalidLength | TooLarge | EndOfStream

  /** What `receive` throws when no whole frame can be read off a stream. */
  function Failure(b: seq<Byte>): ReceiveError {
    if Stop(b) >= MAX_BYTES then InvalidLength
    else if LengthRefused(b, MAX_FRAME_SIZE) then TooLarge
    else EndOfStream
  }

  /**
   A connection to a peer; `incoming` are the bytes it sends until it closes, and
   `room` is the number of frames that can be written until writing fails.
   */
  class SyncTlsConnection {
    var incoming: seq<Byte>
    var outgoing: seq<Byte>
    var room: nat
    ghost var sent: seq<seq<Byte>>

    /** What went out are the frames of the messages sent. */
    ghost predicate Valid()
      reads this
    {
      outgoing == FrameAll(sent)
    }

    /** The messages the peer sends from here on, up to a frame that cannot be read. */
    ghost function Messages(): seq<seq<Byte>>
      reads this
    {
      Deframe(incoming, MAX_FRAME_SIZE).frames
    }

    constructor (incoming: seq<Byte>, room: nat)
      ensures Valid() && this.incoming == incoming && this.room == room && sent == []
    {
      this.incoming, this.room, outgoing, sent := incoming, room, [], [];
    }

    /** Writes a frame, or fails: the exception. */
    method Send(payload: seq<Byte>) returns (ok: bool)
      requires Valid() && |payload| < TWO64
      modifies this
      ensures Valid() && incoming == old(incoming)
      ensures ok <==> old(room) > 0
      ensures if ok then sent == old(sent) + [payload] && room == old(room) - 1 else unchanged(this)
    {
      var framed := MakeFrame(payload);
      if room == 0 {
        return false;
      }
      room := room - 1;
      FrameOneMore(sent, payload);
      outgoing := outgoing + framed;
      sent := sent + [payload];
      return true;
    }

    /** The length in front of the next frame; a failure may have taken bytes. */
    method ReceiveLength() returns (r: Result<U64, ReceiveError>)
      modifies this`incoming
      ensures var n := ReadVarint(old(incoming));
        r == if n.Some? then Ok(n.value.0)
             else Err(if Stop(old(incoming)) >= MAX_BYTES then InvalidLength else EndOfStream)
      ensures r.Ok? ==> incoming == old(incoming)[ReadVarint(old(incoming)).value.1..]
    {
      var length: U64, shift: nat := 0, 0;
      ghost var input := incoming;
      ghost var p: seq<Byte> := [];
      while true
        invariant input == p + incoming
        invariant Consumed(p, length) && |p| < MAX_BYTES && shift == 7 * |p|
        decreases |incoming|
      {
        if incoming == [] {
          ConsumedAll(p, length, incoming);
          StopsAtTheEnd(p, input);
          return Err(EndOfStream);
        }
        var byte := incoming[0];
        incoming := incoming[1..];
        assert input == p + [byte] + incoming;
        ConsumeByte(p, length, byte, incoming);
        length := Accumulate(length, byte, shift);
        if byte < 128 {
          return Ok(length);
        }
        p := p + [byte];
        shift := shift + 7;
        if shift > 63 {
          ConsumedAll(p, length, incoming);
          return Err(InvalidLength);
        }
      }
    }

    /** The next whole frame, or the exception. */
    method Receive() returns (r: Result<seq<Byte>, ReceiveError>)
      modifies this`incoming
      ensures r == if HasFrame(old(incoming), MAX_FRAME_SIZE)
        then Ok(FirstFrame(old(incoming), MAX_FRAME_SIZE)) else Err(Failure(old(incoming)))
      ensures r.Ok? ==> incoming == AfterFrame(old(incoming), MAX_FRAME_SIZE)
    {
      hide ReadVarint;
      ghost var input := incoming;
      var length := ReceiveLength();
      if length.Err? {
        return Err(length.error);
      }
      var size := length.value;
      if size > MAX_FRAME_SIZE {
        LengthIsNoStop(input);
        return Err(TooLarge);
      }
      if size > |incoming| {
        LengthIsNoStop(input);
        return Err(EndOfStream);
      }
      ghost var n := ReadVarint(input).value.1;
      assert input[n..n + size] == incoming[..size] && input[n + size..] == incoming[size..];
      r := Ok(incoming[..size]);
      incoming := incoming[size..];
    }

    /** `Receive` in terms of the messages: the first, or none. */
    method ReceiveMessage() returns (r: Result<seq<Byte>, ReceiveError>)
      modifies this`incoming
      ensures r.Ok? <==> old(Messages()) != []
      ensures r.Ok? ==> r.value == old(Messages())[0] && Messages() == old(Messages())[1..]
    {
      hide HasFrame, FirstFrame, AfterFrame, Failure;
      r := Receive();
    }
  }

  lemma StopsAtTheEnd(p: seq<Byte>, input: seq<Byte>)
    requires input == p && |p| < MAX_BYTES && forall i | 0 <= i < |p| :: Continues(p[i])
    ensures Stop(input) == |p| && ReadVarint(input) == None
  {
  }

  lemma LengthIsNoStop(b: seq<Byte>)
    requires ReadVarint(b).Some?
    ensures Stop(b) < MAX_BYTES
  {
  }

  // ------------------------------------------------------------ the handshake

  datatype Outcome = Configured | NotConfigured | BadStatus | Lost | WriteFailed

  /** What a handshake came to, what it sent after the request, and how many messages it took. */
  datatype Negotiation = Negotiation(outcome: Outcome, sent: seq<seq<Byte>>, taken: nat)

  /** The status a message carries: the first varint under number 2. */
  function Status(m: seq<Byte>): Option<U64> {
    First(Varints(Fields(m), 2))
  }

  predicate Numbered(m: seq<Byte>, number: U32) {
    exists f :: f in Fields(m) && f.number == number
  }

  /** A configuration acknowledgement (31) that is neither one of the request (11) nor options (20). */
  predicate Settles(m: seq<Byte>) {
    Numbered(m, 31) && !Numbered(m, 11) && !Numbered(m, 20)
  }

  lemma {:induction false} NumberedIsScanned(fs: seq<Field>, number: U32)
    ensures HasNumber(fs, number) <==> exists f :: f in fs && f.number == number
  {
    if fs != [] {
      NumberedIsScanned(fs[1..], number);
      assert forall f :: f in fs <==> f == fs[0] || f in fs[1..];
    }
  }

  /** The session's tests are those of the status and of the numbers a message holds. */
  lemma TestsAreRight()
    ensures forall m: seq<Byte> :: StatusOk(m) <==> Status(m) == Some(200)
    ensures forall m: seq<Byte> :: IsConfigured(m) <==> Settles(m)
    ensures forall m: seq<Byte> :: Has(m, 41) <==> Numbered(m, 41)
  {
    hide Fields;
    forall m: seq<Byte> ensures StatusOk(m) <==> Status(m) == Some(200) {
      ScansTakeTheFirst(Fields(m), 2);
    }
    forall m: seq<Byte>, n: U32 ensures Has(m, n) <==> Numbered(m, n) {
      NumberedIsScanned(Fields(m), n);
    }
    hide Has, Numbered;
  }

  predicate IsConfigured(m: seq<Byte>) {
    !Has(m, 11) && !Has(m, 20) && Has(m, 31)
  }

  /** Options answer a request acknowledgement; otherwise the configuration answers options. */
  function PairingReply(m: seq<Byte>): seq<seq<Byte>> {
    if Has(m, 11) then [PairingOptions()]
    else if Has(m, 20) then [PairingConfiguration()]
    else []
  }

  /**
   The loop of `start` over the messages the peer sends, at most `steps` of them,
   with room for so many replies.
   */
  function Negotiate(ms: seq<seq<Byte>>, steps: nat, room: nat): Negotiation {
    if steps == 0 then Negotiation(NotConfigured, [], 0)
    else if ms == [] then Negotiation(Lost, [], 0)
    else if !StatusOk(ms[0]) then Negotiation(BadStatus, [], 1)
    else if IsConfigured(ms[0]) then Negotiation(Configured, [], 1)
    else if |PairingReply(ms[0])| > room then Negotiation(WriteFailed, [], 1)
    else
      var later := Negotiate(ms[1..], steps - 1, room - |PairingReply(ms[0])|);
      Negotiation(later.outcome, PairingReply(ms[0]) + later.sent, later.taken + 1)
  }

  function PairingReplies(ms: seq<seq<Byte>>): seq<seq<Byte>> {
    if ms == [] then [] else PairingReply(ms[0]) + PairingReplies(ms[1..])
  }

  /** Message i is a configuration acknowledgement, and up to it every status is 200. */
  predicate ConfiguredAt(ms: seq<seq<Byte>>, i: nat) {
    i < |ms| && Settles(ms[i]) && forall j | 0 <= j <= i :: Status(ms[j]) == Some(200)
  }

  /** The first k messages have status 200 and do not settle the handshake. */
  predicate Passed(ms: seq<seq<Byte>>, k: nat) {
    k <= |ms| && forall j | 0 <= j < k :: Status(ms[j]) == Some(200) && !Settles(ms[j])
  }

  /** How many messages are answered before something settles the handshake. */
  function Answered(n: Negotiation): int {
    if n.outcome == Configured || n.outcome == BadStatus || n.outcome == WriteFailed then n.taken - 1 else n.taken
  }

  /**
   Against any messages: what is sent are exactly the replies to the messages
   in front of the one that settles the handshake, and that one, or the lack of
   it, is the outcome.
   */
  lemma {:induction false} HandshakeAccount(ms: seq<seq<Byte>>, steps: nat, room: nat)
    ensures var n := Negotiate(ms, steps, room);
      var k := Answered(n);
      && 0 <= k <= steps && n.taken <= |ms| && Passed(ms, k)
      && n.sent == PairingReplies(ms[..k]) && |n.sent| <= room
      && (n.outcome == Configured <==> k < steps && k < |ms| && Status(ms[k]) == Some(200) && Settles(ms[k]))
      && (n.outcome == BadStatus <==> k < steps && k < |ms| && Status(ms[k]) != Some(200))
      && (n.outcome == WriteFailed <==>
          && k < steps && k < |ms| && Status(ms[k]) == Some(200) && !Settles(ms[k])
          && |n.sent| + |PairingReply(ms[k])| > room)
      && (n.outcome == Lost <==> k == |ms| < steps)
      && (n.outcome == NotConfigured <==> k == steps)
    decreases steps
  {
    TestsAreRight();
    hide StatusOk, Has, IsConfigured, PairingReply, PairingReplies, Passed, Status, Settles;
    if steps != 0 && ms != [] && StatusOk(ms[0]) && !IsConfigured(ms[0]) && |PairingReply(ms[0])| <= room {
      var later := Negotiate(ms[1..], steps - 1, room - |PairingReply(ms[0])|);
      var k := Answered(later);
      assert Negotiate(ms, steps, room) ==
        Negotiation(later.outcome, PairingReply(ms[0]) + later.sent, later.taken + 1);
      hide Negotiate;
      HandshakeAccount(ms[1..], steps - 1, room - |PairingReply(ms[0])|);
      FirstReply(ms, k);
      PassedOneMore(ms, k);
      assert k < |ms| - 1 ==> ms[1..][k] == ms[k + 1];
    } else {
      SettledAtOnce(ms, steps, room);
      hide Negotiate;
    }
  }

  /** The first message settles the handshake, or there is none to take. */
  lemma SettledAtOnce(ms: seq<seq<Byte>>, steps: nat, room: nat)
    requires steps == 0 || ms == [] || !StatusOk(ms[0]) || IsConfigured(ms[0]) || |PairingReply(ms[0])| > room
    ensures var n := Negotiate(ms, steps, room);
      && Answered(n) == 0 && n.taken <= |ms| && n.sent == [] == PairingReplies(ms[..0]) && Passed(ms, 0)
      && n.outcome == (if steps == 0 then NotConfigured else if ms == [] then Lost
                       else if !StatusOk(ms[0]) then BadStatus
                       else if IsConfigured(ms[0]) then Configured else WriteFailed)
  {
    hide StatusOk, IsConfigured, PairingReply;
    assert ms[..0] == [];
  }

  lemma FirstReply(ms: seq<seq<Byte>>, k: nat)
    requires k < |ms|
    ensures PairingReplies(ms[..k + 1]) == PairingReply(ms[0]) + PairingReplies(ms[1..][..k])
  {
    hide PairingReply;
    assert ms[..k + 1][1..] == ms[1..][..k];
  }

  lemma PassedOneMore(ms: seq<seq<Byte>>, k: nat)
    requires ms != [] && Status(ms[0]) == Some(200) && !Settles(ms[0]) && Passed(ms[1..], k)
    ensures Passed(ms, k + 1)
  {
    hide Status, Settles;
    forall j | 0 <= j < k + 1 ensures Status(ms[j]) == Some(200) && !Settles(ms[j]) {
      assert j > 0 ==> ms[j] == ms[1..][j - 1];
    }
  }

  lemma {:induction false} RepliesOfOneMore(ms: seq<seq<Byte>>, k: nat)
    requires k < |ms|
    ensures PairingReplies(ms[..k + 1]) == PairingReplies(ms[..k]) + PairingReply(ms[k])
  {
    hide PairingReply;
    if k == 0 {
      assert ms[..1][1..] == [];
    } else {
      assert ms[..k + 1][1..] == ms[1..][..k] && ms[..k][1..] == ms[1..][..k - 1];
      RepliesOfOneMore(ms[1..], k - 1);
      assert ms[1..][k - 1] == ms[k];
      assert PairingReply(ms[0]) + (PairingReplies(ms[1..][..k - 1]) + PairingReply(ms[k]))
          == PairingReply(ms[0]) + PairingReplies(ms[1..][..k - 1]) + PairingReply(ms[k]);
    }
  }

  lemma {:induction false} RepliesGrow(ms: seq<seq<Byte>>, k: nat, i: nat)
    requires k <= i <= |ms|
    ensures |PairingReplies(ms[..k])| <= |PairingReplies(ms[..i])|
    decreases i
  {
    hide PairingReply, PairingReplies;
    if k < i {
      RepliesGrow(ms, k, i - 1);
      RepliesOfOneMore(ms, i - 1);
    }
  }

  /**
   The handshake succeeds if and only if one of the first `steps` messages is a
   configuration acknowledgement, none up to it has a bad status, and there is
   room for the replies to those in front of it.
   */
  lemma HandshakeSucceedsIff(ms: seq<seq<Byte>>, steps: nat, room: nat)
    ensures Negotiate(ms, steps, room).outcome == Configured <==>
      exists i | 0 <= i < steps :: ConfiguredAt(ms, i) && |PairingReplies(ms[..i])| <= room
  {
    hide Status, Settles, Negotiate, PairingReplies, PairingReply;
    HandshakeAccount(ms, steps, room);
    var n := Negotiate(ms, steps, room);
    var k := Answered(n);
    if n.outcome == Configured {
      assert ConfiguredAt(ms, k);
    } else {
      forall i | 0 <= i < steps && ConfiguredAt(ms, i) ensures |PairingReplies(ms[..i])| > room {
        SettledBefore(ms, k, i);
        RepliesOfOneMore(ms, k);
        RepliesGrow(ms, k + 1, i);
      }
    }
  }

  lemma SettledBefore(ms: seq<seq<Byte>>, k: nat, i: nat)
    requires Passed(ms, k) && ConfiguredAt(ms, i) && (k < |ms| ==> Status(ms[k]) != Some(200) || !Settles(ms[k]))
    ensures k < i && Status(ms[k]) == Some(200)
  {
    hide Status, Settles;
  }

  /** A conforming peer acknowledges the request, sends its options and acknowledges the configuration. */
  lemma ConformingPeer(a: seq<Field>, b: seq<Field>, c: seq<Field>, rest: seq<seq<Byte>>, room: nat)
    requires |EncodeFields(a)| < TWO64 && |EncodeFields(b)| < TWO64 && |EncodeFields(c)| < TWO64
    requires room >= 2
    ensures Negotiate([PairingOuter(11, a), PairingOuter(20, b), PairingOuter(31, c)] + rest, 8, room) ==
      Negotiation(Configured, [PairingOptions(), PairingConfiguration()], 3)
  {
    PairingMessageIsReadBack(11, a);
    PairingMessageIsReadBack(20, b);
    PairingMessageIsReadBack(31, c);
    ThreeMessages(PairingOuter(11, a), PairingOuter(20, b), PairingOuter(31, c), rest, room);
    hide PairingOuter, StatusOk, Has, Negotiate;
  }

  lemma ThreeMessages(x: seq<Byte>, y: seq<Byte>, z: seq<Byte>, rest: seq<seq<Byte>>, room: nat)
    requires StatusOk(x) && StatusOk(y) && StatusOk(z) && room >= 2
    requires Has(x, 11) && !Has(y, 11) && Has(y, 20) && IsConfigured(z)
    ensures Negotiate([x, y, z] + rest, 8, room) ==
      Negotiation(Configured, [PairingOptions(), PairingConfiguration()], 3)
  {
    hide StatusOk, Has, PairingOptions, PairingConfiguration;
    var ms := [x, y, z] + rest;
    assert ms[1..] == [y, z] + rest;
    assert ms[1..][1..] == [z] + rest;
    assert Negotiate(ms[1..][1..], 6, room - 2) == Negotiation(Configured, [], 1);
    assert Negotiate(ms[1..], 7, room - 1) == Negotiation(Configured, [PairingConfiguration()], 2);
  }

  // ------------------------------------------------------------ the secret

  /** The loop of `finish`: at most `steps` messages until one has field 41. */
  function Confirm(ms: seq<seq<Byte>>, steps: nat): Outcome {
    if steps == 0 then NotConfigured
    else if ms == [] then Lost
    else if !StatusOk(ms[0]) then BadStatus
    else if Has(ms[0], 41) then Configured
    else Confirm(ms[1..], steps - 1)
  }

  /** Message i acknowledges the secret, and up to it every status is 200. */
  predicate AcknowledgedAt(ms: seq<seq<Byte>>, i: nat) {
    i < |ms| && Numbered(ms[i], 41) && forall j | 0 <= j <= i :: Status(ms[j]) == Some(200)
  }

  lemma {:induction false} ConfirmedIff(ms: seq<seq<Byte>>, steps: nat)
    ensures Confirm(ms, steps) == Configured <==> exists i | 0 <= i < steps :: AcknowledgedAt(ms, i)
    decreases steps
  {
    TestsAreRight();
    hide StatusOk, Has, Status, Numbered;
    if steps != 0 && ms != [] && StatusOk(ms[0]) {
      if Has(ms[0], 41) {
        assert AcknowledgedAt(ms, 0);
      } else {
        ConfirmedIff(ms[1..], steps - 1);
        LaterAcknowledged(ms, steps);
      }
    }
  }

  lemma LaterAcknowledged(ms: seq<seq<Byte>>, steps: nat)
    requires steps > 0 && ms != [] && Status(ms[0]) == Some(200) && !Numbered(ms[0], 41)
    ensures (exists i | 0 <= i < steps :: AcknowledgedAt(ms, i)) <==>
            (exists i | 0 <= i < steps - 1 :: AcknowledgedAt(ms[1..], i))
  {
    hide Status, Numbered;
    forall i: nat | AcknowledgedAt(ms[1..], i) ensures AcknowledgedAt(ms, i + 1) {
      forall j | 0 <= j <= i + 1 ensures Status(ms[j]) == Some(200) {
        assert j > 0 ==> ms[j] == ms[1..][j - 1];
      }
    }
    forall i: nat | i < steps && AcknowledgedAt(ms, i) ensures i > 0 && AcknowledgedAt(ms[1..], i - 1) {
      assert forall j | 0 <= j < |ms| - 1 :: ms[1..][j] == ms[j + 1];
    }
  }

  // ------------------------------------------------------------ the session

  datatype Started = NoIdentity | Unreachable | Negotiated(outcome: Outcome)

  datatype Finished = Paired | NotStarted | NoCertificate | CodeRefused(error: CodeError) | Unconfirmed(why: Outcome)

  /** A negotiation of which `taken` messages and the answers `sent` lie behind. */
  function Continued(sent: seq<seq<Byte>>, taken: nat, later: Negotiation): Negotiation {
    Negotiation(later.outcome, sent + later.sent, taken + later.taken)
  }

  /** A handshake from its request on. */
  function Opened(clientName: seq<Byte>, ms: seq<seq<Byte>>, room: nat): Negotiation {
    if room == 0 then Negotiation(WriteFailed, [], 0)
    else Continued([PairingRequest(clientName)], 0, Negotiate(ms, 8, room - 1))
  }

  /** A handshake taken up after `taken` messages: one round of it, and then the rest. */
  lemma ContinuedByRound(ms: seq<seq<Byte>>, steps: nat, room: nat, sent: seq<seq<Byte>>, taken: nat)
    requires steps > 0
    ensures var round := Negotiate(ms, 1, room);
      && |round.sent| <= room
      && (round.outcome == NotConfigured ==> ms != [] && round.taken == 1)
      && (round.outcome == Configured ==> ms != [] && round.taken == 1)
      && Continued(sent, taken, Negotiate(ms, steps, room)) ==
          if round.outcome == NotConfigured
          then Continued(sent + round.sent, taken + 1, Negotiate(ms[1..], steps - 1, room - |round.sent|))
          else Negotiation(round.outcome, sent + round.sent, taken + round.taken)
  {
    hide StatusOk, IsConfigured, PairingReply;
    if ms != [] && StatusOk(ms[0]) && !IsConfigured(ms[0]) && |PairingReply(ms[0])| <= room {
      var reply := PairingReply(ms[0]);
      var later := Negotiate(ms[1..], steps - 1, room - |reply|);
      assert Negotiate(ms, 1, room) == Negotiation(NotConfigured, reply, 1) by {
        assert reply + [] == reply;
      }
      AppendedAfter(sent, reply, later.sent);
    }
  }

  lemma NoMoreRounds(ms: seq<seq<Byte>>, room: nat, sent: seq<seq<Byte>>, taken: nat)
    ensures Continued(sent, taken, Negotiate(ms, 0, room)) == Negotiation(NotConfigured, sent, taken)
  {
    assert sent + [] == sent;
  }

  lemma ContinuedFromStart(n: Negotiation)
    ensures Continued([], 0, n) == n
  {
  }

  lemma OneStepOn(ms: seq<seq<Byte>>, step: nat)
    requires step < |ms|
    ensures ms[step..] != [] && ms[step..][0] == ms[step] && ms[step..][1..] == ms[step + 1..]
  {
  }

  lemma AppendedAfter(a: seq<seq<Byte>>, b: seq<seq<Byte>>, c: seq<seq<Byte>>)
    ensures a + (b + c) == a + b + c
  {
  }

  lemma NoReplyToConfigured(m: seq<Byte>)
    ensures IsConfigured(m) ==> PairingReply(m) == []
  {
    hide Has;
  }

  lemma RoundOutcome(ms: seq<seq<Byte>>, room: nat)
    ensures Negotiate(ms, 1, room) ==
      if ms == [] then Negotiation(Lost, [], 0)
      else if !StatusOk(ms[0]) then Negotiation(BadStatus, [], 1)
      else if |PairingReply(ms[0])| > room then Negotiation(WriteFailed, [], 1)
      else Negotiation(if IsConfigured(ms[0]) then Configured else NotConfigured, PairingReply(ms[0]), 1)
  {
    hide StatusOk, IsConfigured, PairingReply;
    if ms != [] {
      NoReplyToConfigured(ms[0]);
      assert PairingReply(ms[0]) + [] == PairingReply(ms[0]);
    }
  }

  method IsStatusOk(m: seq<Byte>) returns (ok: bool)
    ensures ok <==> StatusOk(m)
  {
    var status := FindVarint(m, 2);
    return status == Some(200);
  }

  method HasMessage(m: seq<Byte>, number: U32) returns (r: bool)
    ensures r <==> Has(m, number)
  {
    r := HasField(m, number);
  }

  lemma OuterFits(number: U32, inner: seq<Field>, size: nat)
    requires number > 0 && |inner| <= 4 && size < TWO32
    requires forall f | f in inner :: WellFormed(f) && (f.VarintField? || |f.bytes| <= size)
    ensures |PairingOuter(number, inner)| < TWO64
  {
    hide EncodeFields;
    FewFieldsFit(inner, size);
    FewFieldsFit([VarintField(1, 2), VarintField(2, 200), BytesField(number, EncodeFields(inner))], 80 + 4 * size);
  }

  lemma AnswersFit()
    ensures |PairingOptions()| < TWO64 && |PairingConfiguration()| < TWO64
  {
    FewFieldsFit(ENCODING, 0);
    OuterFits(20, [BytesField(1, EncodeFields(ENCODING)), VarintField(3, 1)], 80);
    OuterFits(30, [BytesField(1, EncodeFields(ENCODING)), VarintField(2, 1)], 80);
  }

  lemma SecretFits(secret: Digest)
    ensures |PairingSecretMessage(secret)| < TWO64
  {
    OuterFits(40, [BytesField(1, secret)], 32);
  }

  class PairingSession {
    const clientName: seq<Byte>
    var connection: SyncTlsConnection?

    constructor (clientName: seq<Byte>)
      ensures this.clientName == clientName && connection == null
    {
      this.clientName, connection := clientName, null;
    }

    /** The answer to a message with status 200, if it can be written. */
    method Answer(conn: SyncTlsConnection, m: seq<Byte>) returns (ok: bool, configured: bool)
      requires conn.Valid()
      modifies conn
      ensures conn.Valid() && conn.incoming == old(conn.incoming)
      ensures configured <==> IsConfigured(m)
      ensures ok <==> |PairingReply(m)| <= old(conn.room)
      ensures if ok
              then conn.sent == old(conn.sent) + PairingReply(m) && conn.room == old(conn.room) - |PairingReply(m)|
              else conn.sent == old(conn.sent) && conn.room == old(conn.room)
    {
      hide Has, PairingOptions, PairingConfiguration;
      AnswersFit();
      ok, configured := true, false;
      var requestAck := HasMessage(m, 11);
      if requestAck {
        var options := BuildPairingOptions();
        ok := conn.Send(options);
        return;
      }
      var peerOptions := HasMessage(m, 20);
      if peerOptions {
        var configuration := BuildPairingConfiguration();
        ok := conn.Send(configuration);
        return;
      }
      configured := HasMessage(m, 31);
    }

    /** One round of the loop of `start`: its outcome, or that it goes on. */
    method Round(conn: SyncTlsConnection) returns (r: Outcome, ghost reply: seq<seq<Byte>>)
      requires conn.Valid()
      modifies conn
      ensures conn.Valid()
      ensures var n := Negotiate(old(conn.Messages()), 1, old(conn.room));
        && r == n.outcome && reply == n.sent
        && conn.sent == old(conn.sent) + reply && conn.room == old(conn.room) - |reply|
        && (r == Configured || r == NotConfigured ==>
            old(conn.Messages()) != [] && conn.Messages() == old(conn.Messages())[1..])
    {
      hide StatusOk, Has, IsConfigured, PairingReply, Deframe, FrameAll, Negotiate;
      ghost var ms, room := conn.Messages(), conn.room;
      RoundOutcome(ms, room);
      var message := conn.ReceiveMessage();
      if message.Err? {
        return Lost, [];
      }
      var good := IsStatusOk(message.value);
      if !good {
        return BadStatus, [];
      }
      var ok, configured := Answer(conn, message.value);
      if !ok {
        return WriteFailed, [];
      }
      return if configured then Configured else NotConfigured, PairingReply(message.value);
    }

    /** The loop of `start`: at most eight messages, each with its answer. */
    method Negotiating(conn: SyncTlsConnection) returns (r: Outcome, ghost answers: seq<seq<Byte>>)
      requires conn.Valid()
      modifies conn
      ensures conn.Valid()
      ensures var n := Negotiate(old(conn.Messages()), 8, old(conn.room));
        && r == n.outcome && answers == n.sent
        && conn.sent == old(conn.sent) + n.sent && conn.room == old(conn.room) - |n.sent|
        && (r == Configured ==> n.taken <= |old(conn.Messages())|)
        && (r == Configured ==> conn.Messages() == old(conn.Messages())[n.taken..])
    {
      hide StatusOk, Has, IsConfigured, PairingReply, Deframe, Frame, FrameAll, Negotiate, Continued;
      ghost var all, rest := conn.Messages(), conn.Messages();
      ghost var n := Negotiate(all, 8, conn.room);
      answers := [];
      ContinuedFromStart(n);
      for step := 0 to 8
        invariant step <= |all| && rest == all[step..] && conn.Messages() == rest
        invariant conn.Valid() && conn.sent == old(conn.sent) + answers && conn.room == old(conn.room) - |answers|
        invariant n == Continued(answers, step, Negotiate(rest, 8 - step, conn.room))
      {
        ContinuedByRound(rest, 8 - step, conn.room, answers, step);
        ghost var reply;
        r, reply := Round(conn);
        AppendedAfter(old(conn.sent), answers, reply);
        answers := answers + reply;
        if r != NotConfigured {
          if r == Configured {
            OneStepOn(all, step);
          }
          return;
        }
        OneStepOn(all, step);
        rest := rest[1..];
      }
      NoMoreRounds(rest, conn.room, answers, 8);
      r := NotConfigured;
    }

    /** The handshake of `start`: the request and the loop. */
    method Handshake(conn: SyncTlsConnection) returns (r: Outcome)
      requires conn.Valid() && conn.sent == [] && |clientName| < TWO63
      modifies conn
      ensures conn.Valid()
      ensures var n := Opened(clientName, old(conn.Messages()), old(conn.room));
        && r == n.outcome && conn.sent == n.sent && |n.sent| <= old(conn.room)
        && conn.room == old(conn.room) - |n.sent|
        && (r == Configured ==> n.taken <= |old(conn.Messages())|)
        && (r == Configured ==> conn.Messages() == old(conn.Messages())[n.taken..])
    {
      hide Negotiate, PairingRequest, Deframe, FrameAll;
      NameFits(clientName);
      var request := BuildPairingRequest(clientName);
      assert [] + [request] == [request];
      var ok := conn.Send(request);
      if !ok {
        return WriteFailed;
      }
      ghost var answers;
      r, answers := Negotiating(conn);
    }

    /**
     `start`. `loads` and `reachable` tell whether the identity can be loaded and
     the peer connected to; it then sends `peer`, and `room` frames can be written.
     After a handshake the session is left without a connection only if eight
     messages went by in vain.
     */
    method Start(loads: bool, reachable: bool, peer: seq<Byte>, room: nat)
      returns (r: Started, ghost sent: seq<seq<Byte>>)
      requires |clientName| < TWO63
      modifies this
      ensures !loads ==> r == NoIdentity && sent == [] && connection == old(connection)
      ensures loads && !reachable ==> r == Unreachable && sent == [] && connection != null
      ensures loads && connection != null ==> fresh(connection) && connection.Valid() && connection.sent == sent
      ensures loads && reachable ==>
        var ms := Deframe(peer, MAX_FRAME_SIZE).frames;
        var n := Opened(clientName, ms, room);
        && r == Negotiated(n.outcome) && sent == n.sent
        && (connection == null <==> n.outcome == NotConfigured)
        && (connection != null ==> connection.room == room - |n.sent|)
        && (n.outcome == Configured ==> n.taken <= |ms| && connection.Messages() == ms[n.taken..])
    {
      hide Opened, Deframe;
      if !loads {
        return NoIdentity, [];
      }
      var conn := new SyncTlsConnection(if reachable then peer else [], room);
      connection := conn;
      if !reachable {
        return Unreachable, [];
      }
      var outcome := Handshake(conn);
      r, sent := Negotiated(outcome), conn.sent;
      if outcome == NotConfigured {
        connection := null;
      }
    }

    /**
     `finish`. A code that is refused, like a missing certificate, changes
     nothing and sends nothing; an accepted one sends its secret, once.
     `keys` are those of both certificates, if the peer presented one.
     */
    method Finish(sha: seq<Byte> -> Digest, keys: Option<Keys>, code: string) returns (r: Finished)
      requires connection != null ==> connection.Valid()
      modifies this, connection
      ensures connection != null ==> connection == old(connection) && connection.Valid()
      ensures old(connection) == null ==> r == NotStarted && connection == null
      ensures old(connection) != null && keys.None? ==> r == NoCertificate
      ensures old(connection) != null && keys.Some? && !Accepted(sha, keys.value, code) ==>
        r == CodeRefused(Refusal(code))
      ensures r.NoCertificate? || r.CodeRefused? ==> connection == old(connection) && unchanged(old(connection))
      ensures old(connection) != null && keys.Some? && Accepted(sha, keys.value, code) ==>
        if old(connection.room) == 0 then
          r == Unconfirmed(WriteFailed) && connection != null && unchanged(old(connection))
        else
          var o := Confirm(old(connection.Messages()), 4);
          && r == (if o == Configured then Paired else Unconfirmed(o))
          && (connection == null <==> o == Configured || o == NotConfigured)
          && old(connection).sent ==
              old(connection.sent) + [PairingSecretMessage(sha(Digested(keys.value, BytesOf(code)[1..])))]
    {
      hide StatusOk, Has, PairingSecretMessage, Deframe, Accepted, Refusal, Digested;
      if connection == null {
        return NotStarted;
      }
      if keys.None? {
        return NoCertificate;
      }
      var secret := PairingSecret(sha, keys.value, code);
      if secret.Err? {
        return CodeRefused(secret.error);
      }
      var conn := connection;
      SecretFits(secret.value);
      var message := BuildPairingSecret(secret.value);
      var ok := conn.Send(message);
      if !ok {
        return Unconfirmed(WriteFailed);
      }
      ghost var o := Confirm(conn.Messages(), 4);
      var acknowledged := false;
      var step := 0;
      while step < 4 && !acknowledged
        invariant 0 <= step <= 4 && conn.Valid() && connection == conn
        invariant conn.sent == old(conn.sent) + [message]
        invariant o == if acknowledged then Configured else Confirm(conn.Messages(), 4 - step)
      {
        var answer := conn.ReceiveMessage();
        if answer.Err? {
          return Unconfirmed(Lost);
        }
        var good := IsStatusOk(answer.value);
        if !good {
          return Unconfirmed(BadStatus);
        }
        acknowledged := HasMessage(answer.value, 41);
        step := step + 1;
      }
      connection := null;
      return if acknowledged then Paired else Unconfirmed(NotConfigured);
    }
  }
}
