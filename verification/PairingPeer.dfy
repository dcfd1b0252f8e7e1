/**
 The television's side of pairing: what it reads in the client's messages, which
 statuses of its own make the client give up, and the code it shows.
 */
module PairingPeer {
  import opened Wrappers
  import opened Ints
  import opened Varint
  import opened Wire
  import opened WireLimits
  import opened WireFormat
  import opened Framing
  import opened Messages
  import opened Television
  import opened PairingCode
  import opened Pairing

  // ------------------------------------------------------------ what it reads

  /** Protocol version 2 and status 200, as in every message of the client. */
  predicate IsPairingMessage(m: seq<Byte>) {
    FirstVarint(Fields(m), 1) == Some(2) && FirstVarint(Fields(m), 2) == Some(200)
  }

  lemma OuterIsPairing(number: U32, inner: seq<Field>)
    requires number > 2 && |EncodeFields(inner)| < TWO64
    ensures var m := PairingOuter(number, inner);
      IsPairingMessage(m) && FirstBytes(Fields(m), number) == Some(EncodeFields(inner))
  {
    hide EncodeFields, Fields, FirstVarint, FirstBytes;
    var fs := [VarintField(1, 2), VarintField(2, 200), BytesField(number, EncodeFields(inner))];
    ReaderInvertsWriter(fs);
    ScanOfThree(fs[0], fs[1], fs[2], 1);
    ScanOfThree(fs[0], fs[1], fs[2], 2);
    ScanOfThree(fs[0], fs[1], fs[2], number);
    ScanOfTwo(fs[1], fs[2], 2);
    ScanOfTwo(fs[1], fs[2], number);
  }

  lemma NestedIsPairing(number: U32, inner: seq<Field>, n: U32)
    requires number > 2 && |EncodeFields(inner)| < TWO64 && forall f | f in inner :: WellFormed(f)
    ensures var m := PairingOuter(number, inner);
      && IsPairingMessage(m)
      && NumberAt(m, number, n) == FirstVarint(inner, n) && BytesAt(m, number, n) == FirstBytes(inner, n)
  {
    OuterIsPairing(number, inner);
    ReaderInvertsWriter(inner);
    hide EncodeFields, Fields, FirstVarint, FirstBytes, IsPairingMessage, PairingOuter;
  }

  /** The request: the service "atvremote" in 10/1, the client's name in 10/2. */
  lemma RequestIsRead(clientName: seq<Byte>)
    requires |clientName| < TWO63
    ensures var m := PairingRequest(clientName);
      && IsPairingMessage(m)
      && BytesAt(m, 10, 1) == Some([0x61, 0x74, 0x76, 0x72, 0x65, 0x6d, 0x6f, 0x74, 0x65])
      && BytesAt(m, 10, 2) == Some(clientName)
  {
    hide EncodeFields, BytesAt, FirstBytes, IsPairingMessage, PairingOuter;
    var fs := [BytesField(1, CLIENT), BytesField(2, clientName)];
    assert CLIENT == [0x61, 0x74, 0x76, 0x72, 0x65, 0x6d, 0x6f, 0x74, 0x65];
    NameFits(clientName);
    NestedIsPairing(10, fs, 1);
    NestedIsPairing(10, fs, 2);
    ScanOfTwo(fs[0], fs[1], 1);
    ScanOfTwo(fs[0], fs[1], 2);
  }

  /** An encoding of the code: hexadecimal (3 in 1), six symbols (6 in 2). */
  predicate IsSixHexSymbols(encoding: Option<seq<Byte>>) {
    && encoding.Some?
    && FirstVarint(Fields(encoding.value), 1) == Some(3)
    && FirstVarint(Fields(encoding.value), 2) == Some(6)
  }

  /** Options: the encoding in 20/1, the role of input (1) in 20/3. */
  predicate IsOptions(m: seq<Byte>) {
    IsPairingMessage(m) && IsSixHexSymbols(BytesAt(m, 20, 1)) && NumberAt(m, 20, 3) == Some(1)
  }

  /** A configuration: the encoding in 30/1, the role of input (1) in 30/2. */
  predicate IsConfiguration(m: seq<Byte>) {
    IsPairingMessage(m) && IsSixHexSymbols(BytesAt(m, 30, 1)) && NumberAt(m, 30, 2) == Some(1)
  }

  lemma EncodingIsRead()
    ensures IsSixHexSymbols(Some(EncodeFields(ENCODING))) && |EncodeFields(ENCODING)| < 100
  {
    hide EncodeFields, Fields, FirstVarint;
    FewFieldsFit(ENCODING, 0);
    ReaderInvertsWriter(ENCODING);
    ScanOfTwo(ENCODING[0], ENCODING[1], 1);
    ScanOfTwo(ENCODING[0], ENCODING[1], 2);
  }

  lemma EncodedTwiceFits(f: Field)
    requires f.VarintField? && f.number > 0
    ensures |EncodeFields([BytesField(1, EncodeFields(ENCODING)), f])| < TWO64
  {
    hide EncodeFields, IsSixHexSymbols;
    EncodingIsRead();
    FewFieldsFit([BytesField(1, EncodeFields(ENCODING)), f], 100);
  }

  lemma OptionsAreRead()
    ensures IsOptions(PairingOptions())
  {
    hide EncodeFields, BytesAt, NumberAt, FirstVarint, FirstBytes, IsPairingMessage, IsSixHexSymbols, PairingOuter;
    var fs := [BytesField(1, EncodeFields(ENCODING)), VarintField(3, 1)];
    EncodingIsRead();
    EncodedTwiceFits(fs[1]);
    NestedIsPairing(20, fs, 1);
    NestedIsPairing(20, fs, 3);
    ScanOfTwo(fs[0], fs[1], 1);
    ScanOfTwo(fs[0], fs[1], 3);
  }

  lemma ConfigurationIsRead()
    ensures IsConfiguration(PairingConfiguration())
  {
    hide EncodeFields, BytesAt, NumberAt, FirstVarint, FirstBytes, IsPairingMessage, IsSixHexSymbols, PairingOuter;
    var fs := [BytesField(1, EncodeFields(ENCODING)), VarintField(2, 1)];
    EncodingIsRead();
    EncodedTwiceFits(fs[1]);
    NestedIsPairing(30, fs, 1);
    NestedIsPairing(30, fs, 2);
    ScanOfTwo(fs[0], fs[1], 1);
    ScanOfTwo(fs[0], fs[1], 2);
  }

  /** The secret: in 40/1. */
  lemma SecretIsRead(secret: Digest)
    ensures IsPairingMessage(PairingSecretMessage(secret))
    ensures BytesAt(PairingSecretMessage(secret), 40, 1) == Some(secret)
  {
    hide EncodeFields, BytesAt, FirstBytes, IsPairingMessage, PairingOuter;
    FewFieldsFit([BytesField(1, secret)], 32);
    NestedIsPairing(40, [BytesField(1, secret)], 1);
    ScanOfOne(1, secret, 1);
  }

  /**
   What the client answers to a message with status 200: options to an
   acknowledgement of the request (11), otherwise its configuration to options
   (20), otherwise nothing.
   */
  lemma ReplyIsRight(m: seq<Byte>)
    ensures var r := PairingReply(m);
      if Numbered(m, 11) then |r| == 1 && IsOptions(r[0])
      else if Numbered(m, 20) then |r| == 1 && IsConfiguration(r[0])
      else r == []
  {
    hide Fields, Numbered, IsOptions, IsConfiguration, PairingOptions, PairingConfiguration, HasNumber;
    NumbersAreTold(m, 11);
    NumbersAreTold(m, 20);
    OptionsAreRead();
    ConfigurationIsRead();
  }

  lemma NumbersAreTold(m: seq<Byte>, number: U32)
    ensures Has(m, number) <==> Numbered(m, number)
  {
    hide Fields;
    NumberedIsScanned(Fields(m), number);
  }

  // ------------------------------------------------------------ bad statuses

  lemma {:induction false} VarintsOfPrefix(fs: seq<Field>, v: U64, gs: seq<Field>)
    requires Varints(fs, 2) == []
    ensures First(Varints(fs + [VarintField(2, v)] + gs, 2)) == Some(v)
  {
    if fs == [] {
      assert ([VarintField(2, v)] + gs)[1..] == gs && fs + [VarintField(2, v)] + gs == [VarintField(2, v)] + gs;
    } else {
      assert (fs + [VarintField(2, v)] + gs)[1..] == fs[1..] + [VarintField(2, v)] + gs;
      VarintsOfPrefix(fs[1..], v, gs);
    }
  }

  /** A peer that writes status v, among any other fields, is read as saying v; one that writes none says none. */
  lemma StatusIsCarried(before: seq<Field>, v: U64, after: seq<Field>)
    requires forall f | f in before + [VarintField(2, v)] + after :: WellFormed(f)
    requires Varints(before, 2) == []
    ensures Status(EncodeFields(before + [VarintField(2, v)] + after)) == Some(v)
    ensures Status(EncodeFields(before)) == None
  {
    hide Varints, EncodeFields, Fields;
    VarintsOfPrefix(before, v, after);
    ReaderInvertsWriter(before + [VarintField(2, v)] + after);
    assert forall f | f in before :: f in before + [VarintField(2, v)] + after;
    ReaderInvertsWriter(before);
  }

  /**
   Wherever the handshake has got to message k, that message ends it with a bad
   status if and only if its status is not 200: another one, or none at all.
   */
  lemma StatusDecides(ms: seq<seq<Byte>>, steps: nat, room: nat, k: nat)
    requires k < steps && k < |ms| && Passed(ms, k) && |PairingReplies(ms[..k])| <= room
    ensures var n := Negotiate(ms, steps, room);
      (n.outcome == BadStatus && n.taken == k + 1) <==> Status(ms[k]) != Some(200)
  {
    hide Status, Settles, Negotiate, PairingReplies, PairingReply;
    HandshakeAccount(ms, steps, room);
    var j := Answered(Negotiate(ms, steps, room));
    if j < k {
      RepliesOfOneMore(ms, j);
      RepliesGrow(ms, j + 1, k);
    }
  }

  /** The handshake ends with a bad status if and only if one of the first messages has one and all before passed. */
  lemma BadStatusIff(ms: seq<seq<Byte>>, steps: nat, room: nat)
    ensures Negotiate(ms, steps, room).outcome == BadStatus <==>
      exists k | 0 <= k < steps && k < |ms| ::
        Status(ms[k]) != Some(200) && Passed(ms, k) && |PairingReplies(ms[..k])| <= room
  {
    hide Status, Settles, Negotiate, PairingReplies, PairingReply, Passed;
    HandshakeAccount(ms, steps, room);
    var k := Answered(Negotiate(ms, steps, room));
    if Negotiate(ms, steps, room).outcome == BadStatus {
      assert Status(ms[k]) != Some(200) && Passed(ms, k) && |PairingReplies(ms[..k])| <= room;
    }
    forall k: nat | k < steps && k < |ms|
      && Status(ms[k]) != Some(200) && Passed(ms, k) && |PairingReplies(ms[..k])| <= room
      ensures Negotiate(ms, steps, room).outcome == BadStatus
    {
      StatusDecides(ms, steps, room, k);
    }
  }

  /** The first k messages have status 200 and do not acknowledge the secret. */
  predicate Unacknowledged(ms: seq<seq<Byte>>, k: nat) {
    k <= |ms| && forall j | 0 <= j < k :: Status(ms[j]) == Some(200) && !Numbered(ms[j], 41)
  }

  /** What waiting for the acknowledgement of the secret comes to, exactly. */
  lemma {:induction false} ConfirmAccount(ms: seq<seq<Byte>>, steps: nat) returns (k: nat)
    ensures k <= steps && Unacknowledged(ms, k)
    ensures var o := Confirm(ms, steps);
      && (o == Configured <==> k < steps && k < |ms| && Status(ms[k]) == Some(200) && Numbered(ms[k], 41))
      && (o == BadStatus <==> k < steps && k < |ms| && Status(ms[k]) != Some(200))
      && (o == Lost <==> k == |ms| < steps)
      && (o == NotConfigured <==> k == steps)
      && o != WriteFailed
    decreases steps
  {
    TestsAreRight();
    hide StatusOk, Has, Status, Numbered, Unacknowledged;
    if steps != 0 && ms != [] && StatusOk(ms[0]) && !Has(ms[0], 41) {
      var j := ConfirmAccount(ms[1..], steps - 1);
      OneMoreUnacknowledged(ms, j);
      assert j < |ms| - 1 ==> ms[1..][j] == ms[j + 1];
      k := j + 1;
    } else {
      k := 0;
      assert Unacknowledged(ms, 0) by { NoneUnacknowledged(ms); }
    }
  }

  lemma NoneUnacknowledged(ms: seq<seq<Byte>>)
    ensures Unacknowledged(ms, 0)
  {
  }

  lemma OneMoreUnacknowledged(ms: seq<seq<Byte>>, k: nat)
    requires ms != [] && Status(ms[0]) == Some(200) && !Numbered(ms[0], 41) && Unacknowledged(ms[1..], k)
    ensures Unacknowledged(ms, k + 1)
  {
    hide Status, Numbered;
    forall j | 0 <= j < k + 1 ensures Status(ms[j]) == Some(200) && !Numbered(ms[j], 41) {
      assert j > 0 ==> ms[j] == ms[1..][j - 1];
    }
  }

  /** Confirmation ends with a bad status if and only if one of the first messages has one and all before passed. */
  lemma BadStatusUnconfirmedIff(ms: seq<seq<Byte>>, steps: nat)
    ensures Confirm(ms, steps) == BadStatus <==>
      exists k | 0 <= k < steps && k < |ms| :: Status(ms[k]) != Some(200) && Unacknowledged(ms, k)
  {
    hide Status, Numbered, Confirm;
    var k := ConfirmAccount(ms, steps);
    if Confirm(ms, steps) == BadStatus {
      assert Status(ms[k]) != Some(200) && Unacknowledged(ms, k);
    }
  }

  /**
   A whole handshake, request included, succeeds if and only if the request can
   be written, one of the first eight messages acknowledges the configuration,
   every status up to it is 200, and the replies before it can be written.
   */
  lemma StartSucceedsIff(clientName: seq<Byte>, ms: seq<seq<Byte>>, room: nat)
    ensures Opened(clientName, ms, room).outcome == Configured <==>
      && room > 0
      && exists i | 0 <= i < 8 :: ConfiguredAt(ms, i) && |PairingReplies(ms[..i])| <= room - 1
  {
    hide Negotiate, PairingReplies, ConfiguredAt, PairingRequest;
    if room > 0 {
      HandshakeSucceedsIff(ms, 8, room - 1);
    }
  }

  /** What it sends begins with the request, and the rest are the replies to what was answered, in order. */
  lemma StartSends(clientName: seq<Byte>, ms: seq<seq<Byte>>, room: nat) returns (k: nat)
    requires room > 0
    ensures k <= 8 && Passed(ms, k)
    ensures Opened(clientName, ms, room).sent == [PairingRequest(clientName)] + PairingReplies(ms[..k])
    ensures var o := Opened(clientName, ms, room).outcome;
      (o == Configured ==> ConfiguredAt(ms, k)) && (o == NotConfigured <==> k == 8) && (o == Lost <==> k == |ms| < 8)
  {
    hide Negotiate, PairingReplies, PairingRequest, PairingReply, Status, Settles;
    HandshakeAccount(ms, 8, room - 1);
    k := Answered(Negotiate(ms, 8, room - 1));
  }

  // ------------------------------------------------------------ broken streams

  /**
   Why no frame can be received: ten bytes of a length that go on, a length of more
   than 4 MiB, or too few bytes.
   */
  lemma FailureIsRight(b: seq<Byte>)
    requires !HasFrame(b, 0x40_0000)
    ensures var endless := |b| >= 10 && forall i | 0 <= i < 10 :: b[i] >= 128;
      && (Failure(b) == InvalidLength <==> endless)
      && (Failure(b) == TooLarge <==> exists n | 0 <= n <= |b| :: IsVarint(b[..n]) && Word(b[..n]) > 0x40_0000)
  {
    hide Word, HasFrame;
    RefusedIff(b, 0x40_0000);
    forall n | 0 <= n <= |b| && IsVarint(b[..n]) ensures ReadVarint(b) == Some((Word(b[..n]), n)) {
      WordIsNumber(b, n);
    }
    if |b| >= 10 && forall i | 0 <= i < 10 :: b[i] >= 128 {
      assert forall i | 0 <= i < 10 :: Continues(b[i]);
      StopIsTen(b);
    }
    if ReadVarint(b).Some? {
      LengthIsNoStop(b);
    }
    hide ReadVarint, IsVarint;
  }

  lemma StopIsTen(b: seq<Byte>)
    requires |b| >= 10 && forall i | 0 <= i < 10 :: Continues(b[i])
    ensures Stop(b) >= 10 && ReadVarint(b) == None
  {
  }

  // ------------------------------------------------------------ the code

  /** A hexadecimal digit, in either letter case. */
  predicate IsDigit(c: char, n: nat) {
    n < 16 && (c == "0123456789abcdef"[n] || c == "0123456789ABCDEF"[n])
  }

  /** The six digits of three bytes. */
  predicate Shows(code: string, first: Byte, second: Byte, third: Byte) {
    && |code| == 6
    && IsDigit(code[0], first / 16) && IsDigit(code[1], first % 16)
    && IsDigit(code[2], second / 16) && IsDigit(code[3], second % 16)
    && IsDigit(code[4], third / 16) && IsDigit(code[5], third % 16)
  }

  /** The television's digest: the client's modulus and exponent, its own, and two bytes of its choice. */
  function OwnDigest(sha: seq<Byte> -> Digest, clientN: seq<Byte>, clientE: seq<Byte>,
                     serverN: seq<Byte>, serverE: seq<Byte>, second: Byte, third: Byte): Digest {
    sha(clientN + clientE + serverN + serverE + [second, third])
  }

  lemma DigitIsNibble(c: char, n: nat)
    ensures IsDigit(c, n) <==> Nibble(c) == Some(n)
  {
    if Nibble(c) == Some(n) && n < 10 {
      assert "0123456789abcdef"[n] == c;
    } else if Nibble(c) == Some(n) {
      NibbleBound(c);
      assert "0123456789abcdef"[n] == c || "0123456789ABCDEF"[n] == c;
    }
  }

  lemma TwoDigits(c: char, d: char, b: Byte)
    ensures IsDigit(c, b / 16) && IsDigit(d, b % 16) <==>
      Nibble(c).Some? && Nibble(d).Some? && Nibble(c).value * 16 + Nibble(d).value == b
  {
    DigitIsNibble(c, b / 16);
    DigitIsNibble(d, b % 16);
    NibbleBound(c);
    NibbleBound(d);
    hide IsDigit, Nibble;
  }

  lemma ShownIsBytes(code: string, first: Byte, second: Byte, third: Byte)
    ensures Shows(code, first, second, third) <==> IsCode(code) && BytesOf(code) == [first, second, third]
  {
    if |code| == 6 {
      TwoDigits(code[0], code[1], first);
      TwoDigits(code[2], code[3], second);
      TwoDigits(code[4], code[5], third);
      HexOfSix(code);
      hide IsDigit, Nibble, IsHex, BytesOf;
      if IsHex(code) {
        BytesOfSix(code);
      }
    }
  }

  lemma HexOfSix(code: string)
    requires |code| == 6
    ensures IsHex(code) <==>
      && Nibble(code[0]).Some? && Nibble(code[1]).Some? && Nibble(code[2]).Some?
      && Nibble(code[3]).Some? && Nibble(code[4]).Some? && Nibble(code[5]).Some?
  {
    hide Nibble;
    assert forall c | c in code :: exists i | 0 <= i < 6 :: code[i] == c;
  }

  lemma BytesOfSix(code: string)
    requires |code| == 6 && IsHex(code)
    ensures forall i | 0 <= i < 6 :: Nibble(code[i]).Some? && Nibble(code[i]).value < 16
    ensures BytesOf(code) ==
      [Nibble(code[0]).value * 16 + Nibble(code[1]).value, Nibble(code[2]).value * 16 + Nibble(code[3]).value,
       Nibble(code[4]).value * 16 + Nibble(code[5]).value]
  {
    forall i | 0 <= i < 6 ensures Nibble(code[i]).Some? && Nibble(code[i]).value < 16 {
      NibbleBound(code[i]);
    }
    hide Nibble;
    var a, b := code[2..], code[4..];
    assert a[2..] == b && b[2..] == [];
    assert a[0] == code[2] && a[1] == code[3] && b[0] == code[4] && b[1] == code[5];
    assert BytesOf(b) == [Nibble(code[4]).value * 16 + Nibble(code[5]).value];
  }

  /**
   A code is accepted if and only if it is one the television can show: the first
   byte of its own digest, and the two bytes it chose.
   */
  lemma AcceptedIffShown(sha: seq<Byte> -> Digest, clientN: seq<Byte>, clientE: seq<Byte>,
                         serverN: seq<Byte>, serverE: seq<Byte>, code: string)
    ensures Accepted(sha, Keys(clientN, clientE, serverN, serverE), code) <==>
      exists second: Byte, third: Byte ::
        Shows(code, OwnDigest(sha, clientN, clientE, serverN, serverE, second, third)[0], second, third)
  {
    hide Shows, IsCode;
    var keys := Keys(clientN, clientE, serverN, serverE);
    if Accepted(sha, keys, code) {
      ShownCode(sha, keys, code);
    }
    forall second: Byte, third: Byte |
      Shows(code, OwnDigest(sha, clientN, clientE, serverN, serverE, second, third)[0], second, third)
      ensures Accepted(sha, keys, code)
    {
      ShownIsAccepted(sha, clientN, clientE, serverN, serverE, second, third, code);
    }
  }

  lemma ShownCode(sha: seq<Byte> -> Digest, keys: Keys, code: string)
    requires Accepted(sha, keys, code)
    ensures exists second: Byte, third: Byte ::
      Shows(code, OwnDigest(sha, keys.clientN, keys.clientE, keys.serverN, keys.serverE, second, third)[0],
            second, third)
  {
    hide Shows, BytesOf;
    var b := BytesOf(code);
    assert |b| == 3 && b == [b[0], b[1], b[2]] && b[1..] == [b[1], b[2]];
    ShownIsBytes(code, b[0], b[1], b[2]);
    assert Shows(code, OwnDigest(sha, keys.clientN, keys.clientE, keys.serverN, keys.serverE, b[1], b[2])[0],
                 b[1], b[2]);
  }

  /**
   The code the television shows is accepted, and the secret the client then sends
   is the television's own digest, in 40/1.
   */
  lemma ShownIsAccepted(sha: seq<Byte> -> Digest, clientN: seq<Byte>, clientE: seq<Byte>,
                        serverN: seq<Byte>, serverE: seq<Byte>, second: Byte, third: Byte, code: string)
    requires Shows(code, OwnDigest(sha, clientN, clientE, serverN, serverE, second, third)[0], second, third)
    ensures var keys := Keys(clientN, clientE, serverN, serverE);
      var digest := OwnDigest(sha, clientN, clientE, serverN, serverE, second, third);
      && Accepted(sha, keys, code)
      && sha(Digested(keys, BytesOf(code)[1..])) == digest
      && BytesAt(PairingSecretMessage(sha(Digested(keys, BytesOf(code)[1..]))), 40, 1) == Some(digest)
  {
    var keys := Keys(clientN, clientE, serverN, serverE);
    var digest := OwnDigest(sha, clientN, clientE, serverN, serverE, second, third);
    ShownIsBytes(code, digest[0], second, third);
    hide Shows, BytesOf, PairingSecretMessage, BytesAt, IsPairingMessage;
    assert BytesOf(code)[1..] == [second, third];
    SecretIsRead(digest);
  }

  /** With the television's two bytes no other first byte is accepted. */
  lemma OtherCodesAreRefused(sha: seq<Byte> -> Digest, clientN: seq<Byte>, clientE: seq<Byte>,
                             serverN: seq<Byte>, serverE: seq<Byte>,
                             first: Byte, second: Byte, third: Byte, code: string)
    requires Shows(code, first, second, third)
    ensures Accepted(sha, Keys(clientN, clientE, serverN, serverE), code) <==>
      first == OwnDigest(sha, clientN, clientE, serverN, serverE, second, third)[0]
  {
    ShownIsBytes(code, first, second, third);
    hide Shows, BytesOf;
    assert BytesOf(code)[1..] == [second, third];
  }

  /** Why a code is refused: its length, a character that is no digit in either case, or else the digest. */
  lemma RefusalIsRight(code: string)
    ensures Refusal(code) ==
      if |code| != 6 then WrongLength
      else if exists c :: c in code && c !in "0123456789abcdefABCDEF" then NotHexadecimal
      else Mismatch
  {
    forall c ensures Nibble(c).Some? <==> c in "0123456789abcdefABCDEF" {
      DigitsAreNibbles(c);
    }
    hide Nibble;
  }

  lemma DigitsAreNibbles(c: char)
    ensures Nibble(c).Some? <==> c in "0123456789abcdefABCDEF"
  {
    if Nibble(c).Some? {
      NibbleBound(c);
      DigitIsNibble(c, Nibble(c).value);
      assert "0123456789abcdefABCDEF" == "0123456789abcdef" + "ABCDEF";
      assert forall n | 10 <= n < 16 :: "0123456789ABCDEF"[n] == "ABCDEF"[n - 10];
      assert forall n | 0 <= n < 10 :: "0123456789ABCDEF"[n] == "0123456789abcdef"[n];
    } else {
      forall i | 0 <= i < 22 ensures "0123456789abcdefABCDEF"[i] != c {
      }
    }
  }
}
