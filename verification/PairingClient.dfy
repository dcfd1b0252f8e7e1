/**
 Pairing as the client sees it (`startPairing` and `finishPairing` of
 `AndroidTvRemote::Impl`, src/android_tv_remote.cpp): the engine is disconnected
 first, and a session is held across the codes a user tries.
 */
module PairingClient {
  import opened Wrappers
  import opened Ints
  import opened Framing
  import opened Messages
  import opened PairingCode
  import opened Pairing
  import E = Engine
  import Remote

  class Client {
    const clientName: seq<Byte>
    const remote: Remote.Impl
    var pairing: PairingSession?

    constructor (clientName: seq<Byte>, remote: Remote.Impl)
      ensures this.clientName == clientName && this.remote == remote && pairing == null
    {
      this.clientName, this.remote, pairing := clientName, remote, null;
    }

    ghost predicate Valid()
      reads this, pairing, if pairing != null then {pairing.connection} else {}
    {
      pairing != null && pairing.connection != null ==> pairing.connection.Valid()
    }

    /**
     The engine is disconnected, whatever comes of the pairing. A session is kept
     only once its handshake has succeeded; a failure leaves the one before.
     */
    method StartPairing(loads: bool, reachable: bool, peer: seq<Byte>, room: nat) returns (r: Started)
      requires |clientName| < TWO63 && remote.Valid()
      modifies this, remote
      ensures remote.Valid() && remote.View() == E.UserDisconnect(old(remote.View()))
      ensures var ms := Deframe(peer, MAX_FRAME_SIZE).frames;
        var n := Opened(clientName, ms, room);
        && r == (if !loads then NoIdentity else if !reachable then Unreachable else Negotiated(n.outcome))
        && (r != Negotiated(Configured) ==> pairing == old(pairing))
        && (r == Negotiated(Configured) ==>
            && pairing != null && fresh(pairing) && pairing.connection != null && Valid()
            && pairing.connection.sent == n.sent && pairing.connection.room == room - |n.sent|
            && n.taken <= |ms| && pairing.connection.Messages() == ms[n.taken..])
    {
      hide Negotiate, Deframe, Opened, E.UserDisconnect;
      assert E.Enabled(remote.View(), E.CallDisconnect);
      remote.Dispatch(E.CallDisconnect);
      var session := new PairingSession(clientName);
      ghost var sent;
      r, sent := session.Start(loads, reachable, peer, room);
      if r == Negotiated(Configured) {
        pairing := session;
      }
    }

    /** The session is given up only once it has succeeded. */
    method FinishPairing(sha: seq<Byte> -> Digest, keys: Option<Keys>, code: string) returns (r: Finished)
      requires Valid()
      modifies this, pairing, if pairing != null then {pairing.connection} else {}
      ensures Valid() && pairing == if r == Paired then null else old(pairing)
      ensures old(pairing) == null || old(pairing.connection) == null ==> r == NotStarted
      ensures old(pairing) != null && old(pairing.connection) != null && keys.None? ==> r == NoCertificate
      ensures r.NoCertificate? || r.CodeRefused? ==>
        && old(pairing) != null && old(pairing.connection) != null
        && old(pairing).connection == old(pairing.connection) && unchanged(old(pairing.connection))
      ensures old(pairing) != null && old(pairing.connection) != null && keys.Some? ==>
        if !Accepted(sha, keys.value, code) then r == CodeRefused(Refusal(code))
        else if old(pairing.connection.room) == 0 then
          r == Unconfirmed(WriteFailed) && unchanged(old(pairing.connection))
        else
          var o := Confirm(old(pairing.connection.Messages()), 4);
          && r == (if o == Configured then Paired else Unconfirmed(o))
          && old(pairing.connection).sent ==
              old(pairing.connection.sent) + [PairingSecretMessage(sha(Digested(keys.value, BytesOf(code)[1..])))]
    {
      hide Confirm, Deframe, PairingSecretMessage, Accepted, Refusal, Digested;
      if pairing == null {
        return NotStarted;
      }
      r := pairing.Finish(sha, keys, code);
      if r == Paired {
        pairing := null;
      }
    }

    /**
     A user who mistypes: after any codes that are refused, an accepted one has
     exactly the effect, and sends exactly the message, it would have had at once.
     */
    method FinishAfterMistakes(sha: seq<Byte> -> Digest, keys: Keys, mistakes: seq<string>, code: string)
      returns (r: Finished)
      requires Valid() && pairing != null && pairing.connection != null
      requires forall c | c in mistakes :: !Accepted(sha, keys, c)
      requires Accepted(sha, keys, code)
      modifies this, pairing, pairing.connection
      ensures Valid() && pairing == if r == Paired then null else old(pairing)
      ensures old(pairing.connection.room) == 0 ==>
        r == Unconfirmed(WriteFailed) && unchanged(old(pairing.connection))
      ensures old(pairing.connection.room) > 0 ==>
        var o := Confirm(old(pairing.connection.Messages()), 4);
        && r == (if o == Configured then Paired else Unconfirmed(o))
        && old(pairing.connection).sent ==
            old(pairing.connection.sent) + [PairingSecretMessage(sha(Digested(keys, BytesOf(code)[1..])))]
    {
      hide Accepted, Refusal, Confirm, Deframe, PairingSecretMessage, Digested;
      for i := 0 to |mistakes|
        invariant Valid() && pairing == old(pairing) && pairing.connection == old(pairing.connection)
        invariant unchanged(pairing.connection)
      {
        assert mistakes[i] in mistakes;
        var refused := FinishPairing(sha, Some(keys), mistakes[i]);
      }
      r := FinishPairing(sha, Some(keys), code);
    }
  }
}
