/**
 * Properties of the EncryptedSocket model that relate several steps: the
 * frame round trip, each side of the challenge-response, a complete
 * handshake between an initiator and an acceptor, and teardown over any
 * sequence of later inputs.
 */
module ChannelProperties {
  import opened Wrappers
  import opened Sodium
  import opened Channel

  /** A second `_setupEncryptionKey` changes nothing. */
  lemma SetupEncryptionKeyOnce(s: State, first: Bytes, second: Bytes)
    requires Valid(s) && s.socketAttached && !s.phase.AwaitAnnouncement?
    ensures SetupEncryptionKey(SetupEncryptionKey(s, first), second) == SetupEncryptionKey(s, first)
  {
  }

  /** A repeated `destroy` changes no field but emits `close` again. */
  lemma DestroyAgain(s: State, first: bool, again: bool)
    requires Valid(s)
    ensures var d := Destroy(s, first);
            Destroy(d, again) == d.(events := d.events + [Close])
  {
  }

  /**
   * A frame written under a shared key and fed to a receiver holding the same
   * key yields exactly one `data` event, carrying the written bytes, before
   * whatever the handshake continuation does; once the handshake is over the
   * `data` event is the only effect.
   */
  lemma RoundTrip(sender: State, receiver: State, data: Bytes, nonce: Bytes, replyNonce: Bytes)
    requires Valid(sender) && Valid(receiver) && |nonce| == NONCE_LEN && |replyNonce| == NONCE_LEN
    requires sender.socketAttached && receiver.socketAttached
    requires sender.sharedKey.Some? && receiver.sharedKey == sender.sharedKey
    ensures var r := OnReceive(receiver, LastFrame(Write(sender, data, nonce)), replyNonce);
            && |r.events| > |receiver.events|
            && r.events[..|receiver.events| + 1] == receiver.events + [Data(data)]
            && NoData(r.events[|receiver.events| + 1..])
    ensures receiver.phase.Settled? ==>
              OnReceive(receiver, LastFrame(Write(sender, data, nonce)), replyNonce)
                == receiver.(events := receiver.events + [Data(data)])
  {
    var w := Write(sender, data, nonce);
    assert LastFrame(w) == Frame(data, nonce, sender.sharedKey.value);
    var s1 := receiver.(events := receiver.events + [Data(data)]);
    var r := Deliver(s1, data, replyNonce);
    assert OnReceive(receiver, LastFrame(w), replyNonce) == r;
    assert r.events[..|receiver.events| + 1] == r.events[..|s1.events|];
    assert r.events[|receiver.events| + 1..] == r.events[|s1.events|..];
  }

  /** A frame too short to hold a nonce and a MAC is rejected: `error`, teardown, no `data`. */
  lemma ShortFrameFailsClosed(s: State, frame: Bytes, nonce: Bytes)
    requires Valid(s) && |nonce| == NONCE_LEN && s.socketAttached && s.sharedKey.Some?
    requires |frame| < NONCE_LEN + MAC_LEN
    ensures var r := OnReceive(s, frame, nonce);
            r.events == s.events + [Error(DecryptFailed), Close] && !r.socketAttached && r.frames == s.frames
  {
  }

  /**
   * The acceptor's verification: it writes the success marker and emits
   * `connection` iff the reply equals its challenge byte for byte; otherwise
   * it emits `error` and tears down without writing anything.
   */
  lemma AcceptorVerifiesEcho(s: State, frame: Bytes, nonce: Bytes)
    requires Valid(s) && |nonce| == NONCE_LEN && s.socketAttached && s.phase.AwaitEcho?
    requires OpenFrame(frame, s.sharedKey.value).Some?
    ensures var reply := OpenFrame(frame, s.sharedKey.value).value;
            var r := OnReceive(s, frame, nonce);
            && (r.frames != s.frames <==> reply == s.phase.challenge)
            && (Connection in r.events <==> Connection in s.events || reply == s.phase.challenge)
            && (reply == s.phase.challenge ==>
                  && r.frames == s.frames + [Frame(SUCCESS, nonce, s.sharedKey.value)]
                  && r.events == s.events + [Data(reply), Connection]
                  && !r.timerArmed && r.socketAttached)
            && (reply != s.phase.challenge ==>
                  && r.events == s.events + [Data(reply), Error(PeerAuthFailed), Close]
                  && !r.socketAttached)
  {
    var reply := OpenFrame(frame, s.sharedKey.value).value;
    var r := OnReceive(s, frame, nonce);
    if reply == s.phase.challenge {
      assert r.events == s.events + [Data(reply), Connection];
    } else {
      assert r.events == s.events + [Data(reply), Error(PeerAuthFailed), Close];
      assert Connection in r.events <==> Connection in s.events;
    }
  }

  /** The initiator echoes the first decrypted frame back unchanged, through the pipe. */
  lemma InitiatorEchoesChallenge(s: State, frame: Bytes, nonce: Bytes)
    requires Valid(s) && |nonce| == NONCE_LEN && s.socketAttached && s.phase.AwaitChallenge?
    requires OpenFrame(frame, s.sharedKey.value).Some?
    ensures var challenge := OpenFrame(frame, s.sharedKey.value).value;
            var r := OnReceive(s, frame, nonce);
            && r.frames == s.frames + [Frame(challenge, nonce, s.sharedKey.value)]
            && OpenFrame(LastFrame(r), s.sharedKey.value) == Some(challenge)
            && r.rawWrites == s.rawWrites
            && r.events == s.events + [Data(challenge)]
            && r.phase == AwaitSuccess
  {
  }

  /**
   * The initiator emits `connection` only on a frame equal to the success
   * marker; any other frame is dropped silently and ends the handshake.
   */
  lemma InitiatorAwaitsMarker(s: State, frame: Bytes, nonce: Bytes)
    requires Valid(s) && |nonce| == NONCE_LEN && s.socketAttached && s.phase.AwaitSuccess?
    requires OpenFrame(frame, s.sharedKey.value).Some?
    ensures var msg := OpenFrame(frame, s.sharedKey.value).value;
            var r := OnReceive(s, frame, nonce);
            && (msg == SUCCESS ==> r.events == s.events + [Data(msg), Connection] && !r.timerArmed)
            && (msg != SUCCESS ==> r == s.(events := s.events + [Data(msg)], phase := Settled))
            && r.frames == s.frames
  {
  }

  /** The acceptor consumes exactly one raw message: later chunks change nothing. */
  lemma AnnouncementReadOnce(s: State, first: Bytes, later: Bytes, challenge: Bytes, challenge': Bytes,
                             nonce: Bytes, nonce': Bytes)
    requires Valid(s) && |nonce| == NONCE_LEN && |nonce'| == NONCE_LEN
    ensures var r := OnRawData(s, first, challenge, nonce);
            s.phase.AwaitAnnouncement? ==> OnRawData(r, later, challenge', nonce') == r
  {
  }

  /** A peer announcing the acceptor's own public key is not rejected. */
  lemma OwnKeyAccepted(s: State, challenge: Bytes, nonce: Bytes)
    requires Valid(s) && |nonce| == NONCE_LEN && s.socketAttached && s.phase.AwaitAnnouncement?
    requires s.publicKey == PublicKeyOf(s.secretKey)
    ensures var r := OnRawData(s, Seal(s.publicKey, s.publicKey), challenge, nonce);
            && r.phase == AwaitEcho(challenge) && r.socketAttached
            && r.sharedKey == Some(ScalarMult(s.secretKey, s.publicKey))
  {
    UnsealSeal(s.publicKey, s.secretKey);
  }

  /**
   * An announcement sealed to another key is refused: `error`, teardown, no
   * shared key, and no challenge written.
   */
  lemma WrongRecipientRefused(s: State, msg: Bytes, sealedTo: Bytes, challenge: Bytes, nonce: Bytes)
    requires Valid(s) && |nonce| == NONCE_LEN && s.socketAttached && s.phase.AwaitAnnouncement?
    requires |s.publicKey| == KEY_LEN && |sealedTo| == KEY_LEN && sealedTo != s.publicKey
    ensures var r := OnRawData(s, Seal(msg, sealedTo), challenge, nonce);
            && r.events == s.events + [Error(UnsealFailed), Close]
            && r.sharedKey.None? && r.frames == s.frames && !r.socketAttached
  {
    UnsealWrongRecipient(msg, sealedTo, s.publicKey, s.secretKey);
  }

  /** The first raw write of an initiator, or the empty buffer. */
  function FirstRawWrite(s: State): Bytes {
    if s.rawWrites == [] then [] else s.rawWrites[0]
  }

  /**
   * The first half of a handshake: the initiator (key pair `a`) announces
   * itself to the acceptor (key pair `b`), which answers with its challenge
   * under the key both now share.
   */
  lemma AnnouncementAnswered(a: Bytes, b: Bytes, challenge: Bytes, n1: Bytes)
    requires |n1| == NONCE_LEN
    ensures var initiator := Connect(Init(PublicKeyOf(a), a), Some(PublicKeyOf(b)));
            var acceptor1 := OnRawData(Connect(Init(PublicKeyOf(b), b), None), FirstRawWrite(initiator), challenge, n1);
            var key := ScalarMult(a, PublicKeyOf(b));
            && initiator.sharedKey == Some(key) && initiator.phase == AwaitChallenge
            && initiator.events == [] && initiator.peerKey == Some(PublicKeyOf(b))
            && acceptor1.sharedKey == Some(key) && acceptor1.phase == AwaitEcho(challenge)
            && acceptor1.events == [] && acceptor1.peerKey == Some(PublicKeyOf(a)) && acceptor1.socketAttached
            && OpenFrame(LastFrame(acceptor1), key) == Some(challenge)
  {
    var pa, pb := PublicKeyOf(a), PublicKeyOf(b);
    SharedKeyAgrees(a, b);
    UnsealSeal(pa, b);
    var initiator := Connect(Init(pa, a), Some(pb));
    assert FirstRawWrite(initiator) == Seal(pa, pb);
  }

  /**
   * A complete handshake: an initiator holding key pair `a` connects to an
   * acceptor holding key pair `b`, each side's messages are delivered to the
   * other, and both sides emit `connection`, agree on the shared key, have
   * cleared their auth timers and keep their sockets.
   */
  lemma HandshakeCompletes(a: Bytes, b: Bytes, challenge: Bytes, n1: Bytes, n2: Bytes, n3: Bytes, n4: Bytes)
    requires |n1| == NONCE_LEN && |n2| == NONCE_LEN && |n3| == NONCE_LEN && |n4| == NONCE_LEN
    ensures var initiator := Connect(Init(PublicKeyOf(a), a), Some(PublicKeyOf(b)));
            var acceptor := Connect(Init(PublicKeyOf(b), b), None);
            var acceptor1 := OnRawData(acceptor, FirstRawWrite(initiator), challenge, n1);
            var initiator1 := OnReceive(initiator, LastFrame(acceptor1), n2);
            var acceptor2 := OnReceive(acceptor1, LastFrame(initiator1), n3);
            var initiator2 := OnReceive(initiator1, LastFrame(acceptor2), n4);
            && acceptor2.events == [Data(challenge), Connection]
            && initiator2.events == [Data(challenge), Data(SUCCESS), Connection]
            && acceptor2.sharedKey == initiator2.sharedKey
            && acceptor2.peerKey == Some(PublicKeyOf(a)) && initiator2.peerKey == Some(PublicKeyOf(b))
            && !acceptor2.timerArmed && !initiator2.timerArmed
            && acceptor2.socketAttached && initiator2.socketAttached
  {
    var key := ScalarMult(a, PublicKeyOf(b));
    var initiator := Connect(Init(PublicKeyOf(a), a), Some(PublicKeyOf(b)));
    var acceptor1 := OnRawData(Connect(Init(PublicKeyOf(b), b), None), FirstRawWrite(initiator), challenge, n1);
    AnnouncementAnswered(a, b, challenge, n1);

    var initiator1 := OnReceive(initiator, LastFrame(acceptor1), n2);
    InitiatorEchoesChallenge(initiator, LastFrame(acceptor1), n2);

    var acceptor2 := OnReceive(acceptor1, LastFrame(initiator1), n3);
    AcceptorVerifiesEcho(acceptor1, LastFrame(initiator1), n3);
    assert LastFrame(acceptor2) == Frame(SUCCESS, n3, key);

    InitiatorAwaitsMarker(initiator1, LastFrame(acceptor2), n4);
  }

  /** Only `close` events. */
  predicate OnlyClose(es: seq<Event>) {
    forall k :: 0 <= k < |es| ==> es[k] == Close
  }

  /**
   * After teardown nothing the socket does has any effect: no frame, no raw
   * write, no key, timer or phase change, and the only events are `close`
   * from repeated `destroy` calls.
   */
  lemma {:induction false} TeardownIsFinal(s: State, inputs: seq<Input>)
    requires Valid(s) && !s.socketAttached
    requires forall k :: 0 <= k < |inputs| ==> WellFormed(inputs[k])
    ensures var r := Run(s, inputs);
            && r.(events := s.events) == s
            && |r.events| >= |s.events| && r.events[..|s.events|] == s.events
            && OnlyClose(r.events[|s.events|..])
    decreases |inputs|
  {
    if inputs != [] {
      var t := Step(s, inputs[0]);
      assert t.(events := s.events) == s && t.events[..|s.events|] == s.events && OnlyClose(t.events[|s.events|..]);
      TeardownIsFinal(t, inputs[1..]);
      var r := Run(t, inputs[1..]);
      assert r == Run(s, inputs);
      assert r.events[..|s.events|] == s.events by {
        assert r.events[..|t.events|] == t.events;
      }
      forall k | |s.events| <= k < |r.events|
        ensures r.events[k] == Close
      {
        if k < |t.events| {
          assert r.events[k] == t.events[k] == t.events[|s.events|..][k - |s.events|];
        } else {
          assert r.events[k] == r.events[|t.events|..][k - |t.events|];
        }
      }
    }
  }
}
