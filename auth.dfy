/**
 * `authConnection` and the per-connection handler of `listen` in index.js.
 *
 * `authConnection` wraps a raw socket in an EncryptedSocket, starts the
 * handshake and returns a promise that resolves on the socket's first
 * `connection` event and rejects on its first `close` event (its `error`
 * events are swallowed).  A promise settles once, so its outcome is decided
 * by whichever of the two events the socket emits first.
 */
module Auth {
  import opened Wrappers
  import opened Sodium
  import Channel

  type SocketId = nat

  datatype Outcome = Pending | Resolved | Rejected

  /** The outcome of the promise once the socket has emitted `events`. */
  function AuthOutcome(events: seq<Channel.Event>): (o: Outcome)
    ensures o == Pending <==> Channel.Connection !in events && Channel.Close !in events
    ensures o == Resolved ==> Channel.Connection in events
    ensures o == Rejected ==> Channel.Close in events
    decreases |events|
  {
    if events == [] then Pending
    else if events[0] == Channel.Connection then Resolved
    else if events[0] == Channel.Close then Rejected
    else AuthOutcome(events[1..])
  }

  /** A settled promise stays settled whatever the socket emits later. */
  lemma {:induction false} OutcomeIsFinal(events: seq<Channel.Event>, later: seq<Channel.Event>)
    requires AuthOutcome(events) != Pending
    ensures AuthOutcome(events + later) == AuthOutcome(events)
    decreases |events|
  {
    assert events != [];
    if events[0] != Channel.Connection && events[0] != Channel.Close {
      assert (events + later)[1..] == events[1..] + later;
      OutcomeIsFinal(events[1..], later);
    }
  }

  /** While the promise is pending, the later events alone decide it. */
  lemma {:induction false} PendingDefersToLater(events: seq<Channel.Event>, later: seq<Channel.Event>)
    requires AuthOutcome(events) == Pending
    ensures AuthOutcome(events + later) == AuthOutcome(later)
    decreases |events|
  {
    if events != [] {
      assert (events + later)[1..] == events[1..] + later;
      PendingDefersToLater(events[1..], later);
    } else {
      assert events + later == later;
    }
  }

  /**
   * The synchronous part of `authConnection(socket, opts)`: construct the
   * EncryptedSocket and call `connect(opts.hostPublicKey)`.
   */
  function AuthStart(publicKey: Bytes, secretKey: Bytes, hostPublicKey: Option<Bytes>): (s: Channel.State)
    ensures Channel.Valid(s) && s.socketAttached && s.timerArmed
    ensures hostPublicKey.Some? <==> s.phase == Channel.AwaitChallenge
    ensures hostPublicKey.None? <==> s.phase == Channel.AwaitAnnouncement
    ensures hostPublicKey.Some? ==> s.peerKey == hostPublicKey && |s.rawWrites| == 1
    ensures AuthOutcome(s.events) == Pending
  {
    Channel.Connect(Channel.Init(publicKey, secretKey), hostPublicKey)
  }

  /** The state of the EncryptedSocket after `inputs`, from the start of `authConnection`. */
  function AuthRun(publicKey: Bytes, secretKey: Bytes, hostPublicKey: Option<Bytes>,
                   inputs: seq<Channel.Input>): (s: Channel.State)
    requires forall k :: 0 <= k < |inputs| ==> Channel.WellFormed(inputs[k])
    ensures Channel.Valid(s) && s.socketDestroys <= 1
    ensures s.publicKey == publicKey && s.secretKey == secretKey
  {
    Channel.Run(AuthStart(publicKey, secretKey, hostPublicKey), inputs)
  }

  /** Once a peer key is set, no input changes it or the shared key. */
  lemma {:induction false} KeyIsPinned(s: Channel.State, inputs: seq<Channel.Input>)
    requires Channel.Valid(s) && s.peerKey.Some?
    requires forall k :: 0 <= k < |inputs| ==> Channel.WellFormed(inputs[k])
    ensures Channel.Run(s, inputs).peerKey == s.peerKey
    ensures Channel.Run(s, inputs).sharedKey == s.sharedKey
    decreases |inputs|
  {
    if inputs != [] {
      var t := Channel.Step(s, inputs[0]);
      assert t.peerKey == s.peerKey && t.sharedKey == s.sharedKey by {
        match inputs[0]
        case RawChunk(data, challenge, nonce) =>
        case DecodedFrame(frame, nonce) =>
        case TimerExpired =>
        case SocketClosed(hadError) =>
        case DecoderError =>
        case WriteCall(data, nonce) =>
        case DestroyCall =>
      }
      KeyIsPinned(t, inputs[1..]);
    }
  }

  /**
   * An initiator's `authConnection` resolves only with the host key as peer
   * key and the key derived from it as shared key.
   */
  lemma InitiatorResolvesWithHostKey(publicKey: Bytes, secretKey: Bytes, hostPublicKey: Bytes,
                                     inputs: seq<Channel.Input>)
    requires forall k :: 0 <= k < |inputs| ==> Channel.WellFormed(inputs[k])
    ensures var s := AuthRun(publicKey, secretKey, Some(hostPublicKey), inputs);
            && s.peerKey == Some(hostPublicKey)
            && s.sharedKey == Some(ScalarMult(secretKey, hostPublicKey))
  {
    KeyIsPinned(AuthStart(publicKey, secretKey, Some(hostPublicKey)), inputs);
  }

  /**
   * A resolved `authConnection` has a peer key and the shared key derived
   * from it; a rejected one has let go of its raw socket.
   */
  lemma SettledConnection(publicKey: Bytes, secretKey: Bytes, hostPublicKey: Option<Bytes>,
                          inputs: seq<Channel.Input>)
    requires forall k :: 0 <= k < |inputs| ==> Channel.WellFormed(inputs[k])
    ensures var s := AuthRun(publicKey, secretKey, hostPublicKey, inputs);
            && (AuthOutcome(s.events) == Resolved ==>
                  s.peerKey.Some? && s.sharedKey == Some(ScalarMult(secretKey, s.peerKey.value)))
            && (AuthOutcome(s.events) == Rejected ==> !s.socketAttached && !s.pipeUp && !s.timerArmed)
  {
  }

  /**
   * `authConnection` needs no timeout of its own: while its promise is
   * pending the EncryptedSocket's auth timer is running, and when that
   * timer fires the promise is rejected.
   */
  lemma PendingAuthIsTimed(publicKey: Bytes, secretKey: Bytes, hostPublicKey: Option<Bytes>,
                           inputs: seq<Channel.Input>)
    requires forall k :: 0 <= k < |inputs| ==> Channel.WellFormed(inputs[k])
    ensures var s := AuthRun(publicKey, secretKey, hostPublicKey, inputs);
            AuthOutcome(s.events) == Pending ==>
              s.timerArmed && AuthOutcome(Channel.AuthTimeout(s).events) == Rejected
  {
    var s := AuthRun(publicKey, secretKey, hostPublicKey, inputs);
    if AuthOutcome(s.events) == Pending {
      var expiry := [Channel.Error(Channel.AuthTimedOut), Channel.Close];
      assert AuthOutcome(expiry) == Rejected by {
        assert expiry[1..] == [Channel.Close];
      }
      PendingDefersToLater(s.events, expiry);
    }
  }

  // ------------------------------------------------------------------ listen

  /** One call of the application's `connectionHandler(esocket, esocket.peerKey)`. */
  datatype HandlerCall = HandlerCall(socket: SocketId, peerKey: Bytes)

  /**
   * The rest of the `listen` handler for socket `id`, once its
   * `authConnection` (as acceptor) has settled with the EncryptedSocket in
   * state `es`: on success the handler is called with the socket and its
   * peer key, on failure the handler returns and nothing is called.
   */
  function OnAuthSettled(calls: seq<HandlerCall>, id: SocketId, es: Channel.State): (r: seq<HandlerCall>)
    requires Channel.Valid(es) && AuthOutcome(es.events) != Pending
    ensures AuthOutcome(es.events) == Resolved ==> r == calls + [HandlerCall(id, es.peerKey.value)]
    ensures AuthOutcome(es.events) == Rejected ==> r == calls
  {
    if AuthOutcome(es.events) == Resolved then calls + [HandlerCall(id, es.peerKey.value)] else calls
  }

  /**
   * Each connection the listener accepts is authenticated on its own: the
   * handler is called for it exactly when its own handshake succeeded, with
   * the key the peer proved, and the calls made for other sockets neither
   * change nor depend on it.
   */
  lemma ListenHandlesOnlyAuthenticated(calls: seq<HandlerCall>, id: SocketId, publicKey: Bytes, secretKey: Bytes,
                                       inputs: seq<Channel.Input>)
    requires forall k :: 0 <= k < |inputs| ==> Channel.WellFormed(inputs[k])
    requires AuthOutcome(AuthRun(publicKey, secretKey, None, inputs).events) != Pending
    ensures var es := AuthRun(publicKey, secretKey, None, inputs);
            var r := OnAuthSettled(calls, id, es);
            && r[..|calls|] == calls
            && (|r| == |calls| + 1 <==> AuthOutcome(es.events) == Resolved)
            && (|r| == |calls| + 1 ==>
                  r[|calls|] == HandlerCall(id, es.peerKey.value)
                  && es.sharedKey == Some(ScalarMult(secretKey, r[|calls|].peerKey)))
  {
  }
}
