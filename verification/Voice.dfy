/**
 Voice input: how PCM data is cut into payloads (`sendVoiceData` in
 src/android_tv_remote.cpp), and which sequences of voice messages are
 well formed.
 */
module Voice {
  import opened Wrappers
  import opened Ints
  import opened Messages

  const CHUNK_SIZE := 20 * 1024
  const MINIMUM_CHUNK_SIZE := 8 * 1024

  function Min(a: int, b: int): int {
    if a < b then a else b
  }

  function Zeros(n: nat): (z: seq<Byte>)
    ensures |z| == n && forall i | 0 <= i < n :: z[i] == 0
  {
    seq(n, i => 0)
  }

  function Padded(piece: seq<Byte>): seq<Byte> {
    if |piece| < MINIMUM_CHUNK_SIZE then piece + Zeros(MINIMUM_CHUNK_SIZE - |piece|) else piece
  }

  /** The chunks `sendVoiceData` cuts PCM data into. */
  function Chunks(data: seq<Byte>): seq<seq<Byte>> {
    if data == [] then []
    else var n := Min(CHUNK_SIZE, |data|); [Padded(data[..n])] + Chunks(data[n..])
  }

  function Concat(chunks: seq<seq<Byte>>): seq<Byte> {
    if chunks == [] then [] else chunks[0] + Concat(chunks[1..])
  }

  lemma FirstChunk(data: seq<Byte>)
    requires data != []
    ensures var n := Min(CHUNK_SIZE, |data|);
      Chunks(data) != [] && Chunks(data)[0] == Padded(data[..n]) && Chunks(data)[1..] == Chunks(data[n..])
  {
    hide Padded;
  }

  /** The padding of the last chunk. */
  function PaddingOf(n: nat): (p: nat)
    ensures p < 8192
  {
    var last := n % CHUNK_SIZE;
    if 0 < last < MINIMUM_CHUNK_SIZE then MINIMUM_CHUNK_SIZE - last else 0
  }

  /** ceil(n / 20480) chunks of 8192 to 20480 bytes, all but the last of full size. */
  lemma {:induction false} ChunkSizes(data: seq<Byte>)
    ensures var cs := Chunks(data);
      && |cs| == (|data| + 20479) / 20480
      && (forall c | c in cs :: 8192 <= |c| <= 20480)
      && (forall i | 0 <= i < |cs| - 1 :: |cs[i]| == 20480)
  {
    if data != [] {
      var n := Min(CHUNK_SIZE, |data|);
      var later := Chunks(data[n..]);
      ChunkSizes(data[n..]);
      FirstChunk(data);
      PaddedSize(data[..n]);
      OneChunkMore(|data|);
      assert n < CHUNK_SIZE ==> data[n..] == [] && later == [];
      hide Chunks, Padded;
      assert Chunks(data) == [Padded(data[..n])] + later;
      assert forall c | c in Chunks(data) :: c == Padded(data[..n]) || c in later;
    }
  }

  lemma PaddedSize(piece: seq<Byte>)
    requires |piece| <= CHUNK_SIZE
    ensures MINIMUM_CHUNK_SIZE <= |Padded(piece)| <= CHUNK_SIZE
    ensures |piece| == CHUNK_SIZE ==> Padded(piece) == piece
  {
  }

  lemma OneChunkMore(n: nat)
    requires n > 0
    ensures (n + CHUNK_SIZE - 1) / CHUNK_SIZE == 1 + (n - Min(CHUNK_SIZE, n) + CHUNK_SIZE - 1) / CHUNK_SIZE
  {
  }

  lemma PaddingRepeats(n: nat)
    ensures n == 0 ==> PaddingOf(n) == 0
    ensures n >= CHUNK_SIZE ==> PaddingOf(n - CHUNK_SIZE) == PaddingOf(n)
  {
    if n >= CHUNK_SIZE {
      ModRepeats(n);
    }
  }

  lemma ModRepeats(n: nat)
    requires n >= CHUNK_SIZE
    ensures (n - CHUNK_SIZE) % CHUNK_SIZE == n % CHUNK_SIZE
  {
    var q, r := n / CHUNK_SIZE, n % CHUNK_SIZE;
    assert n - CHUNK_SIZE == (q - 1) * CHUNK_SIZE + r;
  }

  lemma SingleChunk(data: seq<Byte>)
    requires 0 < |data| <= CHUNK_SIZE
    ensures Concat(Chunks(data)) == Padded(data)
  {
    hide Padded;
    assert data[..|data|] == data && data[|data|..] == [];
    assert Chunks(data) == [Padded(data)];
    assert Concat([Padded(data)]) == Padded(data) + Concat([]);
  }

  lemma PaddingIsZeros(data: seq<Byte>)
    requires 0 < |data| <= CHUNK_SIZE
    ensures Padded(data) == data + Zeros(PaddingOf(|data|))
  {
    assert |data| == CHUNK_SIZE || |data| % CHUNK_SIZE == |data|;
  }

  /**
   For data of any length nothing is lost, changed or reordered; only zeros,
   fewer than 8192, are added, at the very end.
   */
  lemma {:induction false} ChunksCarryTheData(data: seq<Byte>)
    ensures Concat(Chunks(data)) == data + Zeros(PaddingOf(|data|))
  {
    hide Padded, PaddingOf, Zeros;
    PaddingRepeats(|data|);
    if data == [] {
      assert Zeros(0) == [];
    } else if |data| <= CHUNK_SIZE {
      SingleChunk(data);
      PaddingIsZeros(data);
    } else {
      hide Chunks, Concat;
      var head, tail := data[..CHUNK_SIZE], data[CHUNK_SIZE..];
      ChunksCarryTheData(tail);
      FirstOfSeveralChunks(data);
      assert Concat(Chunks(data)) == head + (tail + Zeros(PaddingOf(|data|)));
      assert data == head + tail;
    }
  }

  lemma FirstOfSeveralChunks(data: seq<Byte>)
    requires |data| > CHUNK_SIZE
    ensures Concat(Chunks(data)) == data[..CHUNK_SIZE] + Concat(Chunks(data[CHUNK_SIZE..]))
  {
    var head, later := data[..CHUNK_SIZE], Chunks(data[CHUNK_SIZE..]);
    assert Chunks(data) == [head] + later;
    assert ([head] + later)[1..] == later;
  }

  // ------------------------------------------------------------- the grammar

  /** What is open after a sequence of messages; `Broken` once one is out of place. */
  datatype Progress = Closed | Open(session: I32) | Broken

  function Advance(p: Progress, o: Outgoing): Progress {
    match o
    case VoiceBegin(s) => if p == Closed then Open(s) else Broken
    case VoicePayload(s, _) => if p == Open(s) then p else Broken
    case VoiceEnd(s) => if p == Open(s) then Closed else Broken
    case _ => p
  }

  function ProgressOf(q: seq<Outgoing>): Progress {
    if q == [] then Closed else Advance(ProgressOf(q[..|q| - 1]), q[|q| - 1])
  }

  predicate IsVoice(o: Outgoing) {
    o.VoiceBegin? || o.VoicePayload? || o.VoiceEnd?
  }

  function VoiceOnly(q: seq<Outgoing>): seq<Outgoing> {
    if q == [] then []
    else VoiceOnly(q[..|q| - 1]) + if IsVoice(q[|q| - 1]) then [q[|q| - 1]] else []
  }

  /** One use of the microphone. */
  datatype Utterance = Utterance(session: I32, payloads: seq<seq<Byte>>)

  function Payloads(u: Utterance): seq<Outgoing> {
    seq(|u.payloads|, i requires 0 <= i < |u.payloads| => VoicePayload(u.session, u.payloads[i]))
  }

  function Unfinished(u: Utterance): seq<Outgoing> {
    [VoiceBegin(u.session)] + Payloads(u)
  }

  /** Begin, payloads, end, all of one session, over and over. */
  function Spoken(us: seq<Utterance>): seq<Outgoing> {
    if us == [] then []
    else Spoken(us[..|us| - 1]) + Unfinished(us[|us| - 1]) + [VoiceEnd(us[|us| - 1].session)]
  }

  function Tail(open: Option<Utterance>): seq<Outgoing> {
    match open case None => [] case Some(u) => Unfinished(u)
  }

  /** The voice messages are whole utterances, then at most one that is not finished. */
  ghost predicate Grammatical(q: seq<Outgoing>) {
    exists us: seq<Utterance>, open: Option<Utterance> :: VoiceOnly(q) == Spoken(us) + Tail(open)
  }

  /** The utterances of a sequence of messages none of which is out of place. */
  lemma {:induction false} Utterances(q: seq<Outgoing>) returns (us: seq<Utterance>, open: Option<Utterance>)
    requires ProgressOf(q) != Broken
    ensures VoiceOnly(q) == Spoken(us) + Tail(open)
    ensures ProgressOf(q) == Unended(open)
  {
    if q == [] {
      us, open := [], None;
    } else {
      var before, last := q[..|q| - 1], q[|q| - 1];
      us, open := Utterances(before);
      assert VoiceOnly(q) == VoiceOnly(before) + if IsVoice(last) then [last] else [];
      assert ProgressOf(q) == Advance(ProgressOf(before), last);
      hide VoiceOnly, ProgressOf, Spoken, Tail, IsVoice, Advance;
      us, open := OneMessageMore(us, open, last);
    }
  }

  /** What is open of utterances of which the last may not be finished. */
  function Unended(open: Option<Utterance>): Progress {
    if open.Some? then Open(open.value.session) else Closed
  }

  /** The utterances after one more message that is not out of place. */
  lemma OneMessageMore(us0: seq<Utterance>, open0: Option<Utterance>, o: Outgoing)
    returns (us: seq<Utterance>, open: Option<Utterance>)
    requires Advance(Unended(open0), o) != Broken
    ensures Spoken(us) + Tail(open) == Spoken(us0) + Tail(open0) + if IsVoice(o) then [o] else []
    ensures Unended(open) == Advance(Unended(open0), o)
  {
    hide Spoken, Tail;
    us, open := us0, open0;
    match o {
      case VoiceBegin(s) =>
        UtteranceBegins(us, s);
        open := Some(Utterance(s, []));
      case VoicePayload(s, samples) =>
        UtteranceGoesOn(us, open.value, samples);
        open := Some(Utterance(s, open.value.payloads + [samples]));
      case VoiceEnd(s) =>
        UtteranceEnds(us, open.value);
        us, open := us + [open.value], None;
      case _ =>
    }
  }

  lemma UtteranceBegins(us: seq<Utterance>, session: I32)
    ensures Spoken(us) + Tail(None) + [VoiceBegin(session)] == Spoken(us) + Tail(Some(Utterance(session, [])))
  {
    hide Spoken;
    assert Tail(Some(Utterance(session, []))) == [VoiceBegin(session)];
  }

  lemma UtteranceGoesOn(us: seq<Utterance>, u: Utterance, samples: seq<Byte>)
    ensures Spoken(us) + Tail(Some(u)) + [VoicePayload(u.session, samples)] ==
      Spoken(us) + Tail(Some(Utterance(u.session, u.payloads + [samples])))
  {
    hide Spoken;
    var longer := Utterance(u.session, u.payloads + [samples]);
    assert Tail(Some(longer)) == Tail(Some(u)) + [VoicePayload(u.session, samples)];
  }

  lemma UtteranceEnds(us: seq<Utterance>, u: Utterance)
    ensures Spoken(us) + Tail(Some(u)) + [VoiceEnd(u.session)] == Spoken(us + [u]) + Tail(None)
  {
    hide Unfinished;
    assert (us + [u])[..|us|] == us;
  }

  lemma {:induction false} ProgressOfVoiceOnly(q: seq<Outgoing>)
    ensures ProgressOf(VoiceOnly(q)) == ProgressOf(q)
  {
    if q != [] {
      ProgressOfVoiceOnly(q[..|q| - 1]);
      if IsVoice(q[|q| - 1]) {
        assert VoiceOnly(q)[..|VoiceOnly(q)| - 1] == VoiceOnly(q[..|q| - 1]);
      } else {
        assert VoiceOnly(q) == VoiceOnly(q[..|q| - 1]);
      }
    }
  }

  lemma {:induction false} ProgressOfTail(before: seq<Outgoing>, u: Utterance)
    requires ProgressOf(before) == Closed
    ensures ProgressOf(before + Unfinished(u)) == Open(u.session)
    decreases |u.payloads|
  {
    var q := before + Unfinished(u);
    if u.payloads == [] {
      assert q[..|q| - 1] == before;
    } else {
      var v := u.(payloads := u.payloads[..|u.payloads| - 1]);
      ProgressOfTail(before, v);
      assert q[..|q| - 1] == before + Unfinished(v);
    }
  }

  lemma {:induction false} ProgressOfSpoken(us: seq<Utterance>)
    ensures ProgressOf(Spoken(us)) == Closed
  {
    hide Unfinished, Payloads;
    if us != [] {
      var u := us[|us| - 1];
      var before := Spoken(us[..|us| - 1]) + Unfinished(u);
      ProgressOfSpoken(us[..|us| - 1]);
      ProgressOfTail(Spoken(us[..|us| - 1]), u);
      ProgressOfOneMore(before, VoiceEnd(u.session));
      assert Spoken(us) == before + [VoiceEnd(u.session)];
    }
  }

  /** The step-by-step reading accepts exactly the sequences of the grammar. */
  lemma NotBrokenIsGrammatical(q: seq<Outgoing>)
    ensures ProgressOf(q) != Broken <==> Grammatical(q)
  {
    if ProgressOf(q) != Broken {
      var us, open := Utterances(q);
    }
    if Grammatical(q) {
      var us: seq<Utterance>, open: Option<Utterance> :| VoiceOnly(q) == Spoken(us) + Tail(open);
      ProgressOfVoiceOnly(q);
      ProgressOfSpoken(us);
      if open.Some? {
        ProgressOfTail(Spoken(us), open.value);
      } else {
        assert Spoken(us) + [] == Spoken(us);
      }
    }
  }

  lemma ProgressOfOneMore(q: seq<Outgoing>, o: Outgoing)
    ensures ProgressOf(q + [o]) == Advance(ProgressOf(q), o)
  {
    assert (q + [o])[..|q|] == q;
  }
}
