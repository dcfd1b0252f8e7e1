/**
 The pairing code (src/certificate.cpp): six hexadecimal digits, of which the
 first two must agree with a digest over both public keys and the last four.
 The digest itself is a parameter: any function to 32 bytes.
 */
module PairingCode {
  import opened Wrappers
  import opened Ints

  datatype CodeError = WrongLength | OddLength | NotHexadecimal | Mismatch

  type Digest = d: seq<Byte> | |d| == 32 witness seq(32, i => 0)

  /** The public keys of both certificates: modulus and exponent of each. */
  datatype Keys = Keys(clientN: seq<Byte>, clientE: seq<Byte>, serverN: seq<Byte>, serverE: seq<Byte>)

  function Nibble(c: char): Option<nat> {
    if '0' <= c <= '9' then Some(c as int - '0' as int)
    else if 'a' <= c <= 'f' then Some(10 + c as int - 'a' as int)
    else if 'A' <= c <= 'F' then Some(10 + c as int - 'A' as int)
    else None
  }

  predicate IsHex(s: string) {
    forall c | c in s :: Nibble(c).Some?
  }

  /** The bytes a string of hexadecimal digit pairs stands for. */
  function BytesOf(s: string): (b: seq<Byte>)
    requires |s| % 2 == 0 && IsHex(s)
    ensures |b| == |s| / 2
  {
    if s == [] then [] else
    NibbleBound(s[0]);
    NibbleBound(s[1]);
    [Nibble(s[0]).value * 16 + Nibble(s[1]).value] + BytesOf(s[2..])
  }

  lemma NibbleBound(c: char)
    ensures Nibble(c).Some? ==> Nibble(c).value < 16
  {
  }

  lemma {:induction false} BytesOfOneMore(s: string, c: char, d: char)
    requires |s| % 2 == 0 && IsHex(s) && Nibble(c).Some? && Nibble(d).Some?
    ensures IsHex(s + [c, d])
    ensures Nibble(c).value < 16 && Nibble(d).value < 16
    ensures BytesOf(s + [c, d]) == BytesOf(s) + [Nibble(c).value * 16 + Nibble(d).value]
  {
    hide Nibble;
    NibbleBound(c);
    NibbleBound(d);
    if s == [] {
      assert s + [c, d] == [c, d] && [c, d][2..] == [];
    } else {
      assert (s + [c, d])[2..] == s[2..] + [c, d];
      BytesOfOneMore(s[2..], c, d);
    }
  }

  method HexToBytes(hex: string) returns (r: Result<seq<Byte>, CodeError>)
    ensures r ==
      if |hex| % 2 != 0 then Err(OddLength)
      else if !IsHex(hex) then Err(NotHexadecimal)
      else Ok(BytesOf(hex))
  {
    if |hex| % 2 != 0 {
      return Err(OddLength);
    }
    var out: seq<Byte> := [];
    var i := 0;
    while i < |hex|
      invariant 0 <= i <= |hex| && i % 2 == 0
      invariant IsHex(hex[..i]) && out == BytesOf(hex[..i])
    {
      var high, low := Nibble(hex[i]), Nibble(hex[i + 1]);
      if high.None? || low.None? {
        assert hex[i] in hex && hex[i + 1] in hex;
        return Err(NotHexadecimal);
      }
      assert hex[..i + 2] == hex[..i] + [hex[i], hex[i + 1]];
      BytesOfOneMore(hex[..i], hex[i], hex[i + 1]);
      out := out + [high.value * 16 + low.value];
      i := i + 2;
    }
    assert hex[..i] == hex;
    return Ok(out);
  }

  /** The code is six hexadecimal digits. */
  predicate IsCode(code: string) {
    |code| == 6 && IsHex(code)
  }

  /** What is digested: the keys and the last two bytes of the code. */
  function Digested(keys: Keys, tail: seq<Byte>): seq<Byte> {
    keys.clientN + keys.clientE + keys.serverN + keys.serverE + tail
  }

  predicate Accepted(sha: seq<Byte> -> Digest, keys: Keys, code: string) {
    IsCode(code) && BytesOf(code)[0] == sha(Digested(keys, BytesOf(code)[1..]))[0]
  }

  /** Why a code that is not accepted is refused. */
  function Refusal(code: string): CodeError {
    if |code| != 6 then WrongLength else if !IsHex(code) then NotHexadecimal else Mismatch
  }

  /** The secret sent for an accepted code, or the reason the code is refused. */
  method PairingSecret(sha: seq<Byte> -> Digest, keys: Keys, code: string) returns (r: Result<Digest, CodeError>)
    ensures r.Ok? <==> Accepted(sha, keys, code)
    ensures r.Ok? ==> r.value == sha(Digested(keys, BytesOf(code)[1..]))
    ensures r.Err? ==> r.error == Refusal(code)
  {
    if |code| != 6 {
      return Err(WrongLength);
    }
    var codeBytes := HexToBytes(code);
    if codeBytes.Err? {
      return Err(codeBytes.error);
    }
    var context: seq<Byte> := [];
    context := context + keys.clientN;
    context := context + keys.clientE;
    context := context + keys.serverN;
    context := context + keys.serverE;
    context := context + codeBytes.value[1..];
    assert context == Digested(keys, BytesOf(code)[1..]);
    var digest := sha(context);
    if digest[0] != codeBytes.value[0] {
      return Err(Mismatch);
    }
    return Ok(digest);
  }

  // ------------------------------------------------------------ which codes

  /** A digit in either letter case. */
  function HexDigit(n: nat, upper: bool): (c: char)
    requires n < 16
    ensures Nibble(c) == Some(n)
  {
    if n < 10 then '0' + n as char
    else if upper then 'A' + (n - 10) as char
    else 'a' + (n - 10) as char
  }

  /** Bytes in hexadecimal, the letter case chosen digit by digit. */
  function HexPrint(b: seq<Byte>, upper: nat -> bool): (s: string)
    ensures |s| == 2 * |b| && IsHex(s)
  {
    if b == [] then []
    else [HexDigit(b[0] / 16, upper(2 * |b|)), HexDigit(b[0] % 16, upper(2 * |b| + 1))] + HexPrint(b[1..], upper)
  }

  /** A print in any mixture of cases reads back as the bytes. */
  lemma {:induction false} HexRoundTrip(b: seq<Byte>, upper: nat -> bool)
    ensures BytesOf(HexPrint(b, upper)) == b
  {
    if b != [] {
      HexRoundTrip(b[1..], upper);
      var s := HexPrint(b, upper);
      assert s[2..] == HexPrint(b[1..], upper);
      assert Nibble(s[0]) == Some(b[0] / 16) && Nibble(s[1]) == Some(b[0] % 16);
      hide HexPrint, Nibble;
    }
  }

  /**
   For given keys and the last two bytes exactly one first byte is accepted, in
   either letter case of every digit: the first of the digest.
   */
  lemma OneFirstByteIsAccepted(sha: seq<Byte> -> Digest, keys: Keys, first: Byte, tail: seq<Byte>, upper: nat -> bool)
    requires |tail| == 2
    ensures Accepted(sha, keys, HexPrint([first] + tail, upper)) <==> first == sha(Digested(keys, tail))[0]
  {
    HexRoundTrip([first] + tail, upper);
    assert ([first] + tail)[1..] == tail;
    hide HexPrint, BytesOf;
  }
}
