/**
 Length-delimited framing: `frame` and `decodeVarintPrefix`
 (src/proto_wire.cpp), and what a byte stream means to a frame reader.
 */
module Framing {
  import opened Wrappers
  import opened Ints
  import opened Varint

  /** Larger frames are refused by both readers: 4 MiB. */
  const MAX_FRAME_SIZE: int := 4 * 1024 * 1024

  function Frame(payload: seq<Byte>): (f: seq<Byte>)
    ensures |f| > |payload|
  {
    EncodeVarint(|payload|) + payload
  }

  function FrameAll(payloads: seq<seq<Byte>>): seq<Byte> {
    if payloads == [] then [] else Frame(payloads[0]) + FrameAll(payloads[1..])
  }

  lemma {:induction false} FrameOneMore(payloads: seq<seq<Byte>>, payload: seq<Byte>)
    ensures FrameAll(payloads + [payload]) == FrameAll(payloads) + Frame(payload)
  {
    hide Frame;
    if payloads == [] {
      assert [payload][1..] == [];
      assert Frame(payload) + [] == Frame(payload);
    } else {
      assert (payloads + [payload])[1..] == payloads[1..] + [payload];
      FrameOneMore(payloads[1..], payload);
    }
  }

  /** What is left after the last whole frame: bytes of the next frame, or a length that is refused. */
  datatype Rest = Partial(bytes: seq<Byte>) | Refused

  datatype Deframed = Deframed(frames: seq<seq<Byte>>, rest: Rest)

  /** Ten continuation bytes at the front, or a length above the limit. */
  predicate LengthRefused(b: seq<Byte>, limit: nat) {
    Stop(b) >= MAX_BYTES || (ReadVarint(b).Some? && ReadVarint(b).value.0 > limit)
  }

  /** A whole frame, its length within the limit, is at the front. */
  predicate HasFrame(b: seq<Byte>, limit: nat) {
    && ReadVarint(b).Some?
    && var (size, n) := ReadVarint(b).value;
    && size <= limit
    && size <= |b| - n
  }

  function FirstFrame(b: seq<Byte>, limit: nat): seq<Byte>
    requires HasFrame(b, limit)
  {
    var (size, n) := ReadVarint(b).value;
    b[n..n + size]
  }

  function AfterFrame(b: seq<Byte>, limit: nat): (r: seq<Byte>)
    requires HasFrame(b, limit)
    ensures |r| < |b|
  {
    var (size, n) := ReadVarint(b).value;
    b[n + size..]
  }

  /** The frames of a byte stream, up to the first length that is refused. */
  function Deframe(b: seq<Byte>, limit: nat): Deframed
    decreases |b|
  {
    if HasFrame(b, limit) then
      var later := Deframe(AfterFrame(b, limit), limit);
      Deframed([FirstFrame(b, limit)] + later.frames, later.rest)
    else if LengthRefused(b, limit) then Deframed([], Refused)
    else Deframed([], Partial(b))
  }

  // ------------------------------------------------------ how streams grow

  lemma FrameOfPrefix(b: seq<Byte>, more: seq<Byte>, limit: nat)
    requires HasFrame(b, limit)
    ensures HasFrame(b + more, limit)
    ensures FirstFrame(b + more, limit) == FirstFrame(b, limit)
    ensures AfterFrame(b + more, limit) == AfterFrame(b, limit) + more
  {
    ReadVarintOfPrefix(b, more);
    var (size, n) := ReadVarint(b).value;
    assert (b + more)[n..n + size] == b[n..n + size];
    assert (b + more)[n + size..] == b[n + size..] + more;
  }

  lemma RefusedOfPrefix(b: seq<Byte>, more: seq<Byte>, limit: nat)
    requires LengthRefused(b, limit)
    ensures LengthRefused(b + more, limit) && !HasFrame(b + more, limit)
  {
    if Stop(b) < MAX_BYTES {
      ReadVarintOfPrefix(b, more);
    } else {
      assert forall i | 0 <= i < MAX_BYTES :: (b + more)[i] == b[i];
    }
  }

  /** Later bytes continue where the earlier ones left off; nothing follows a refused length. */
  lemma {:induction false} DeframeMore(b: seq<Byte>, more: seq<Byte>, limit: nat)
    ensures var d := Deframe(b, limit);
      Deframe(b + more, limit) ==
        if d.rest.Refused? then d
        else var e := Deframe(d.rest.bytes + more, limit); Deframed(d.frames + e.frames, e.rest)
    decreases |b|
  {
    hide HasFrame, FirstFrame, AfterFrame, LengthRefused;
    var d := Deframe(b, limit);
    if HasFrame(b, limit) {
      FrameOfPrefix(b, more, limit);
      var tail := AfterFrame(b, limit);
      DeframeMore(tail, more, limit);
      var first := FirstFrame(b, limit);
      var dt := Deframe(tail, limit);
      assert d == Deframed([first] + dt.frames, dt.rest);
      if !d.rest.Refused? {
        var e := Deframe(d.rest.bytes + more, limit);
        assert [first] + (dt.frames + e.frames) == d.frames + e.frames;
      }
    } else if LengthRefused(b, limit) {
      RefusedOfPrefix(b, more, limit);
    } else {
      var e := Deframe(b + more, limit);
      assert d.frames + e.frames == e.frames;
    }
  }

  /** Frames once read stay read. */
  lemma FramesOfPrefix(b: seq<Byte>, more: seq<Byte>, limit: nat)
    ensures Deframe(b, limit).frames <= Deframe(b + more, limit).frames
  {
    DeframeMore(b, more, limit);
  }

  lemma FrameRoundTrip(payload: seq<Byte>, more: seq<Byte>, limit: nat)
    requires |payload| <= limit < TWO64
    ensures HasFrame(Frame(payload) + more, limit)
    ensures FirstFrame(Frame(payload) + more, limit) == payload
    ensures AfterFrame(Frame(payload) + more, limit) == more
  {
    var e := EncodeVarint(|payload|);
    VarintRoundTrip(|payload|, payload + more);
    assert Frame(payload) + more == e + (payload + more);
    assert (e + (payload + more))[|e|..|e| + |payload|] == payload;
    assert (e + (payload + more))[|e| + |payload|..] == more;
  }

  /** The concatenation of any frames within the limit is read back as exactly their payloads. */
  lemma {:induction false} DeframeInvertsFrameAll(payloads: seq<seq<Byte>>, limit: nat)
    requires limit < TWO64
    requires forall p | p in payloads :: |p| <= limit
    ensures Deframe(FrameAll(payloads), limit) == Deframed(payloads, Partial([]))
  {
    if payloads != [] {
      FrameRoundTrip(payloads[0], FrameAll(payloads[1..]), limit);
      DeframeInvertsFrameAll(payloads[1..], limit);
      hide HasFrame, FirstFrame, AfterFrame, LengthRefused;
      assert [payloads[0]] + payloads[1..] == payloads;
    }
  }

  /**
   From any part of such a stream a reader has so far, it has taken a prefix
   of the payloads, in order, and refused nothing.
   */
  lemma PartOfFramedStream(b: seq<Byte>, more: seq<Byte>, payloads: seq<seq<Byte>>, limit: nat)
    requires limit < TWO64
    requires forall p | p in payloads :: |p| <= limit
    requires b + more == FrameAll(payloads)
    ensures Deframe(b, limit).frames <= payloads && Deframe(b, limit).rest.Partial?
  {
    DeframeInvertsFrameAll(payloads, limit);
    DeframeMore(b, more, limit);
  }

  // ------------------------------------------------------------- the loops

  method MakeFrame(payload: seq<Byte>) returns (result: seq<Byte>)
    requires |payload| < TWO64
    ensures result == Frame(payload)
  {
    result := [];
    var value := |payload|;
    while value >= 128
      invariant 0 <= value < TWO64
      invariant result + EncodeVarint(value) == EncodeVarint(|payload|)
    {
      result := result + [value % 128 + 128];
      value := value / 128;
    }
    result := result + [value];
    result := result + payload;
  }

  /**
   `decodeVarintPrefix`: on failure the prefix length is 0 when the bytes ran
   out, but stays 10 when there were more of them.
   */
  method DecodeVarintPrefix(data: seq<Byte>) returns (found: bool, value: U64, prefixLength: nat)
    ensures found <==> ReadVarint(data).Some?
    ensures found ==> ReadVarint(data) == Some((value, prefixLength))
    ensures !found ==> prefixLength == if |data| > MAX_BYTES then MAX_BYTES else 0
  {
    value, prefixLength := 0, 0;
    var shift: nat := 0;
    for i := 0 to |data|
      invariant prefixLength == i <= MAX_BYTES && shift == 7 * i
      invariant Consumed(data[..i], value)
    {
      assert data == data[..i] + data[i..];
      if shift > 63 {
        ConsumedAll(data[..i], value, data[i..]);
        return false, value, prefixLength;
      }
      assert data == data[..i] + [data[i]] + data[i + 1..];
      ConsumeByte(data[..i], value, data[i], data[i + 1..]);
      value := Accumulate(value, data[i], shift);
      prefixLength := prefixLength + 1;
      if data[i] < 128 {
        return true, value, prefixLength;
      }
      shift := shift + 7;
      assert data[..i + 1] == data[..i] + [data[i]];
    }
    assert data[..|data|] + [] == data;
    ConsumedAll(data[..|data|], value, []);
    return false, value, 0;
  }
}
