/**
 * The per-connection handshake and encrypted frame pipe of lib/socket.js
 * (class EncryptedSocket), stated as pure functions on a snapshot of the
 * object's fields.  Each function is the effect of one method, one event
 * handler or one handshake step; the class in module Socket is proved to
 * change its fields exactly as these functions say.
 *
 * The outside world appears as inputs and logs:
 *   - `rawWrites`: buffers written straight to the raw socket (`socket.write`),
 *   - `frames`:    messages handed to the length-prefixed encoder (`_encode.write`),
 *   - `events`:    what the EncryptedSocket emits (`connection`, `data`, `error`, `close`),
 *   - a chunk read from the raw socket, a frame produced by the decoder, the
 *     expiry of the auth timer and the raw socket's `close` are inputs of the
 *     functions below, and every random value (`enc.nonce()`) is a parameter.
 */
module Channel {
  import opened Wrappers
  import opened Sodium

  /** The success marker, the bytes of the string "chat-auth-success". */
  const SUCCESS: Bytes := [99, 104, 97, 116, 45, 97, 117, 116, 104, 45, 115, 117, 99, 99, 101, 115, 115]

  /**
   * The `once('data', ...)` continuation the handshake has registered.
   * The acceptor keeps its challenge (the closure variable `challenge`)
   * in AwaitEcho.
   */
  datatype Phase =
    | Unconnected                  // constructed, `connect` not yet called
    | AwaitAnnouncement            // acceptor: waiting for the raw sealed key
    | AwaitEcho(challenge: Bytes)  // acceptor: challenge sent, waiting for its echo
    | AwaitChallenge               // initiator: sealed key sent, waiting for the challenge
    | AwaitSuccess                 // initiator: challenge echoed, waiting for the marker
    | Settled                      // no handshake continuation is registered any more

  /** The reasons `_error` is called with. */
  datatype Failure =
    | AuthTimedOut       // "Auth timed out"
    | UnsealFailed       // "Failed to unseal peer box"
    | PeerAuthFailed     // "Failed to authenticate peer"
    | WriteWithoutKey    // "failed to write. Missing 'sharedKey'"
    | ReceiveWithoutKey  // "failed to receive. Missing 'sharedKey'"
    | DecryptFailed      // "failed to decrypt received data."
    | DecoderFailed      // an error from the frame decoder

  datatype Event = Connection | Data(msg: Bytes) | Error(reason: Failure) | Close

  /** The fields of one EncryptedSocket. */
  datatype State = State(
    publicKey: Bytes,
    secretKey: Bytes,
    socketAttached: bool,   // `this.socket` is not null
    socketDestroys: nat,    // calls of the raw socket's `destroy()`
    pipeUp: bool,           // `_encode` and `_decode` exist and are piped
    peerKey: Option<Bytes>,
    sharedKey: Option<Bytes>,
    timerArmed: bool,       // `_authTimeoutId` is set
    phase: Phase,
    rawWrites: seq<Bytes>,
    frames: seq<Bytes>,
    events: seq<Event>)

  /** The invariant every reachable state keeps. */
  predicate Valid(s: State) {
    && (s.sharedKey.Some? <==> s.peerKey.Some?)
    && (s.sharedKey.Some? ==> s.sharedKey.value == ScalarMult(s.secretKey, s.peerKey.value))
    && (s.pipeUp <==> s.socketAttached && s.sharedKey.Some?)
    && (s.timerArmed ==> s.socketAttached && !s.phase.Unconnected?)
    && (s.phase.AwaitAnnouncement? ==> s.sharedKey.None?)
    && (s.phase.AwaitChallenge? || s.phase.AwaitSuccess? || s.phase.AwaitEcho? ==> s.sharedKey.Some?)
    && (s.socketAttached ==> s.socketDestroys == 0)
    && s.socketDestroys <= 1
    && (Connection in s.events ==> s.sharedKey.Some?)
    && (Close in s.events ==> !s.socketAttached)
  }

  /** No `data` event among `es`. */
  predicate NoData(es: seq<Event>) {
    forall i :: 0 <= i < |es| ==> !es[i].Data?
  }

  /** The frame most recently handed to the encoder, or the empty buffer. */
  function LastFrame(s: State): Bytes {
    if s.frames == [] then [] else s.frames[|s.frames| - 1]
  }

  /**
   * The auth timer is running, or the socket has already emitted
   * `connection` or `close`.
   */
  predicate TimerCovers(s: State) {
    s.timerArmed || Connection in s.events || Close in s.events
  }

  /** The constructor: a fresh wrapper around an open raw socket. */
  function Init(publicKey: Bytes, secretKey: Bytes): (s: State)
    ensures Valid(s) && s.socketAttached && s.phase == Unconnected
    ensures s.sharedKey.None? && !s.timerArmed && s.events == [] && s.frames == [] && s.rawWrites == []
  {
    State(publicKey, secretKey, true, 0, false, None, None, false, Unconnected, [], [], [])
  }

  /**
   * `destroy(destroySocket)`: clear the auth timer, take the pipe down,
   * detach (and, if asked, destroy) the raw socket, emit `close`.
   */
  function Destroy(s: State, destroySocket: bool): (r: State)
    requires Valid(s)
    ensures Valid(r)
    ensures !r.timerArmed && !r.pipeUp && !r.socketAttached
    ensures r.socketDestroys == s.socketDestroys + (if s.socketAttached && destroySocket then 1 else 0)
    ensures r.events == s.events + [Close] && TimerCovers(r)
    ensures r.frames == s.frames && r.rawWrites == s.rawWrites && r.phase == s.phase
    ensures r.sharedKey == s.sharedKey && r.peerKey == s.peerKey
  {
    s.(timerArmed := false, pipeUp := false, socketAttached := false,
       socketDestroys := if s.socketAttached && destroySocket then s.socketDestroys + 1 else s.socketDestroys,
       events := s.events + [Close])
  }

  /** `_error(reason)`: emit `error`, then `destroy()`. */
  function Raise(s: State, reason: Failure): (r: State)
    requires Valid(s)
    ensures Valid(r) && !r.socketAttached && !r.timerArmed && TimerCovers(r)
    ensures r.events == s.events + [Error(reason), Close]
    ensures r.frames == s.frames && r.rawWrites == s.rawWrites && r.phase == s.phase
    ensures r.sharedKey == s.sharedKey && r.peerKey == s.peerKey
  {
    Destroy(s.(events := s.events + [Error(reason)]), true)
  }

  /** `_authTimeout`: the auth timer fired. A cleared timer never fires. */
  function AuthTimeout(s: State): (r: State)
    requires Valid(s)
    ensures Valid(r)
    ensures s.timerArmed ==> !r.timerArmed && !r.socketAttached && r.socketDestroys == 1
                             && r.events == s.events + [Error(AuthTimedOut), Close]
    ensures !s.timerArmed ==> r == s
    ensures TimerCovers(s) ==> TimerCovers(r)
  {
    if s.timerArmed then Raise(s.(timerArmed := false), AuthTimedOut) else s
  }

  /**
   * `_setupEncryptionKey(peerKey)`: the first call records the peer key,
   * derives the shared key and builds the pipe; later calls change nothing.
   */
  function SetupEncryptionKey(s: State, peerKey: Bytes): (r: State)
    requires Valid(s) && s.socketAttached && !s.phase.AwaitAnnouncement?
    ensures Valid(r) && r.socketAttached && r.pipeUp
    ensures s.sharedKey.None? ==> r.peerKey == Some(peerKey) && r.sharedKey == Some(ScalarMult(s.secretKey, peerKey))
    ensures s.sharedKey.Some? ==> r == s
    ensures r.events == s.events && r.frames == s.frames && r.rawWrites == s.rawWrites
    ensures r.phase == s.phase && r.timerArmed == s.timerArmed
  {
    if s.sharedKey.Some? then s
    else s.(peerKey := Some(peerKey), sharedKey := Some(ScalarMult(s.secretKey, peerKey)), pipeUp := true)
  }

  /** The message `write` hands to the encoder: the nonce followed by the box. */
  function Frame(data: Bytes, nonce: Bytes, key: Bytes): (msg: Bytes)
    requires |nonce| == NONCE_LEN
    ensures |msg| == NONCE_LEN + |data| + MAC_LEN
    ensures msg[..NONCE_LEN] == nonce
    ensures OpenFrame(msg, key) == Some(data)
  {
    var msg := nonce + Encrypt(data, nonce, key);
    assert msg[..NONCE_LEN] == nonce && msg[NONCE_LEN..] == Encrypt(data, nonce, key);
    msg
  }

  /**
   * What `_onReceive` does to a decoded frame before emitting it: slice
   * off the nonce (the whole frame, if it is shorter) and open the rest.
   */
  function OpenFrame(frame: Bytes, key: Bytes): (msg: Option<Bytes>)
    ensures |frame| < NONCE_LEN + MAC_LEN ==> msg.None?
    ensures msg.Some? ==> |frame| == NONCE_LEN + |msg.value| + MAC_LEN
  {
    var cut := if |frame| < NONCE_LEN then |frame| else NONCE_LEN;
    Decrypt(frame[cut..], frame[..cut], key)
  }

  /**
   * `write(data)`: nothing after destroy; an error and teardown when there is
   * no shared key; otherwise exactly one frame that opens to `data` under the
   * shared key, and nothing else changes.
   */
  function Write(s: State, data: Bytes, nonce: Bytes): (r: State)
    requires Valid(s) && |nonce| == NONCE_LEN
    ensures Valid(r)
    ensures !s.socketAttached ==> r == s
    ensures s.socketAttached && s.sharedKey.None? ==>
              && r.frames == s.frames && !r.socketAttached
              && r.events == s.events + [Error(WriteWithoutKey), Close]
    ensures s.socketAttached && s.sharedKey.Some? ==>
              && |r.frames| == |s.frames| + 1 && r.frames[..|s.frames|] == s.frames
              && |r.frames[|s.frames|]| == NONCE_LEN + |data| + MAC_LEN
              && r.frames[|s.frames|][..NONCE_LEN] == nonce
              && OpenFrame(r.frames[|s.frames|], s.sharedKey.value) == Some(data)
              && r.(frames := s.frames) == s
    ensures TimerCovers(s) ==> TimerCovers(r)
  {
    if !s.socketAttached then s
    else if s.sharedKey.None? then Raise(s, WriteWithoutKey)
    else s.(frames := s.frames + [Frame(data, nonce, s.sharedKey.value)])
  }

  /** `_onAuthed`: clear a pending auth timer and emit `connection`. */
  function OnAuthed(s: State): (r: State)
    requires Valid(s) && s.sharedKey.Some?
    ensures Valid(r) && !r.timerArmed && TimerCovers(r)
    ensures r.events == s.events + [Connection]
    ensures r.(timerArmed := s.timerArmed, events := s.events) == s
  {
    s.(timerArmed := false, events := s.events + [Connection])
  }

  // ---------------------------------------------------------------- initiator

  /** Initiator step 1, `sendAuthRequest`: the own public key sealed to the peer, written raw. */
  function SendAuthRequest(s: State): (r: State)
    requires Valid(s) && s.peerKey.Some?
    ensures Valid(r) && r.phase == AwaitChallenge
    ensures r.rawWrites == s.rawWrites + [Seal(s.publicKey, s.peerKey.value)]
    ensures r.frames == s.frames && r.events == s.events && r.sharedKey == s.sharedKey
  {
    s.(rawWrites := s.rawWrites + [Seal(s.publicKey, s.peerKey.value)], phase := AwaitChallenge)
  }

  /** `_authHost(hostKey)`: derive the shared key from the host key, then send the request. */
  function AuthHost(s: State, hostKey: Bytes): (r: State)
    requires Valid(s) && s.socketAttached && s.sharedKey.None? && s.phase.Unconnected?
    ensures Valid(r) && r.phase == AwaitChallenge && r.socketAttached
    ensures r.peerKey == Some(hostKey) && r.sharedKey == Some(ScalarMult(s.secretKey, hostKey))
    ensures r.rawWrites == s.rawWrites + [Seal(s.publicKey, hostKey)]
    ensures r.frames == s.frames && r.events == s.events && r.timerArmed == s.timerArmed
  {
    SendAuthRequest(SetupEncryptionKey(s, hostKey))
  }

  /** Initiator step 2, `receiveChallenge`: echo the first frame back through the pipe. */
  function ReceiveChallenge(s: State, challenge: Bytes, nonce: Bytes): (r: State)
    requires Valid(s) && s.sharedKey.Some? && |nonce| == NONCE_LEN
    ensures Valid(r) && r.phase == AwaitSuccess
    ensures s.socketAttached ==>
              && r.frames == s.frames + [Frame(challenge, nonce, s.sharedKey.value)]
              && r.events == s.events && r.rawWrites == s.rawWrites && r.timerArmed == s.timerArmed
    ensures TimerCovers(s) ==> TimerCovers(r)
  {
    Write(s, challenge, nonce).(phase := AwaitSuccess)
  }

  /** Initiator step 3, `receiveAuthSuccess`: authenticated only on the exact marker. */
  function ReceiveAuthSuccess(s: State, data: Bytes): (r: State)
    requires Valid(s) && s.sharedKey.Some?
    ensures Valid(r)
    ensures data == SUCCESS ==> r.events == s.events + [Connection] && !r.timerArmed
    ensures data != SUCCESS ==> r == s
    ensures TimerCovers(s) ==> TimerCovers(r)
  {
    if data == SUCCESS then OnAuthed(s) else s
  }

  // ---------------------------------------------------------------- acceptor

  /** `_authPeer`: wait for one raw message on the socket. */
  function AuthPeer(s: State): (r: State)
    requires Valid(s) && s.phase.Unconnected? && s.sharedKey.None?
    ensures Valid(r) && r == s.(phase := AwaitAnnouncement)
  {
    s.(phase := AwaitAnnouncement)
  }

  /** Acceptor step 2, `sendChallenge`: send the fresh challenge and remember it. */
  function SendChallenge(s: State, challenge: Bytes, nonce: Bytes): (r: State)
    requires Valid(s) && s.sharedKey.Some? && |nonce| == NONCE_LEN
    ensures Valid(r) && r.phase == AwaitEcho(challenge)
    ensures s.socketAttached ==>
              && r.frames == s.frames + [Frame(challenge, nonce, s.sharedKey.value)]
              && r.events == s.events && r.sharedKey == s.sharedKey && r.socketAttached
    ensures TimerCovers(s) ==> TimerCovers(r)
  {
    Write(s, challenge, nonce).(phase := AwaitEcho(challenge))
  }

  /** Acceptor step 1, `receiveAuthRequest`: learn the peer key from the sealed announcement. */
  function ReceiveAuthRequest(s: State, data: Bytes, challenge: Bytes, nonce: Bytes): (r: State)
    requires Valid(s) && s.socketAttached && s.sharedKey.None? && s.phase.Settled? && |nonce| == NONCE_LEN
    ensures Valid(r)
    ensures Unseal(data, s.publicKey, s.secretKey).None? ==>
              && r.events == s.events + [Error(UnsealFailed), Close]
              && r.sharedKey.None? && r.frames == s.frames && !r.socketAttached
    ensures Unseal(data, s.publicKey, s.secretKey).Some? ==>
              var peer := Unseal(data, s.publicKey, s.secretKey).value;
              && r.peerKey == Some(peer) && r.sharedKey == Some(ScalarMult(s.secretKey, peer))
              && r.frames == s.frames + [Frame(challenge, nonce, ScalarMult(s.secretKey, peer))]
              && r.phase == AwaitEcho(challenge) && r.events == s.events && r.socketAttached
    ensures TimerCovers(s) ==> TimerCovers(r)
  {
    match Unseal(data, s.publicKey, s.secretKey)
    case None => Raise(s, UnsealFailed)
    case Some(peerPublicKey) =>
      // A peer announcing the acceptor's own key is not rejected.
      SendChallenge(SetupEncryptionKey(s, peerPublicKey), challenge, nonce)
  }

  /** Acceptor step 3, `receiveChallengeVerification`. */
  function ReceiveChallengeVerification(s: State, challenge: Bytes, reply: Bytes, nonce: Bytes): (r: State)
    requires Valid(s) && s.sharedKey.Some? && |nonce| == NONCE_LEN
    ensures Valid(r)
    ensures s.socketAttached && challenge == reply ==>
              && r.frames == s.frames + [Frame(SUCCESS, nonce, s.sharedKey.value)]
              && r.events == s.events + [Connection] && !r.timerArmed && r.socketAttached
    ensures challenge != reply ==>
              && r.frames == s.frames && r.events == s.events + [Error(PeerAuthFailed), Close]
              && !r.socketAttached
    ensures TimerCovers(s) ==> TimerCovers(r)
  {
    if challenge == reply then OnAuthed(Write(s, SUCCESS, nonce))
    else Raise(s, PeerAuthFailed)
  }

  // ---------------------------------------------------------------- events

  /**
   * `connect(hostKey)`: the initiator path iff a host key is given, the
   * acceptor path otherwise; in both cases the auth timer is armed.
   */
  function Connect(s: State, hostKey: Option<Bytes>): (r: State)
    requires Valid(s) && s.phase.Unconnected? && s.socketAttached && s.sharedKey.None?
    ensures Valid(r) && r.timerArmed && r.socketAttached && r.events == s.events && r.frames == s.frames
    ensures hostKey.Some? ==>
              && r.phase == AwaitChallenge
              && r.peerKey == Some(hostKey.value)
              && r.sharedKey == Some(ScalarMult(s.secretKey, hostKey.value))
              && r.rawWrites == s.rawWrites + [Seal(s.publicKey, hostKey.value)]
    ensures hostKey.None? ==>
              r.phase == AwaitAnnouncement && r.sharedKey.None? && r.rawWrites == s.rawWrites
  {
    var started := if hostKey.Some? then AuthHost(s, hostKey.value) else AuthPeer(s);
    started.(timerArmed := true)
  }

  /**
   * The pending `once('data', ...)` continuation runs on a decrypted
   * message; `once` unregisters it before it runs.
   */
  function Deliver(s: State, msg: Bytes, nonce: Bytes): (r: State)
    requires Valid(s) && |nonce| == NONCE_LEN
    ensures Valid(r)
    ensures |r.events| >= |s.events| && r.events[..|s.events|] == s.events && NoData(r.events[|s.events|..])
    ensures TimerCovers(s) ==> TimerCovers(r)
  {
    match s.phase
    case AwaitChallenge => ReceiveChallenge(s.(phase := Settled), msg, nonce)
    case AwaitSuccess => ReceiveAuthSuccess(s.(phase := Settled), msg)
    case AwaitEcho(challenge) => ReceiveChallengeVerification(s.(phase := Settled), challenge, msg, nonce)
    case _ => s
  }

  /**
   * `_onReceive(frame)`, fed by the decoder: nothing after destroy; an error
   * and teardown without a shared key or when the frame does not open;
   * otherwise a `data` event, then the handshake continuation.
   */
  function OnReceive(s: State, frame: Bytes, nonce: Bytes): (r: State)
    requires Valid(s) && |nonce| == NONCE_LEN
    ensures Valid(r)
    ensures !s.socketAttached ==> r == s
    ensures s.socketAttached && s.sharedKey.None? ==>
              r.events == s.events + [Error(ReceiveWithoutKey), Close] && r.frames == s.frames
    ensures s.socketAttached && s.sharedKey.Some? && OpenFrame(frame, s.sharedKey.value).None? ==>
              && r.events == s.events + [Error(DecryptFailed), Close]
              && r.frames == s.frames && !r.socketAttached
    ensures TimerCovers(s) ==> TimerCovers(r)
  {
    if !s.socketAttached then s
    else if s.sharedKey.None? then Raise(s, ReceiveWithoutKey)
    else match OpenFrame(frame, s.sharedKey.value)
      case None => Raise(s, DecryptFailed)
      case Some(msg) => Deliver(s.(events := s.events + [Data(msg)]), msg, nonce)
  }

  /**
   * A chunk read from the raw socket.  Only the acceptor's
   * `socket.once('data', receiveAuthRequest)` listens for raw chunks; every
   * other chunk goes to the length-prefixed decoder, whose output arrives
   * through OnReceive.
   *
   * `destroy` does not unregister the raw `once('data')` listener, but every
   * way the socket is detached here either destroys the raw socket or
   * follows the raw socket's own `close`; neither delivers another chunk,
   * so a detached socket receives no raw data.
   */
  function OnRawData(s: State, data: Bytes, challenge: Bytes, nonce: Bytes): (r: State)
    requires Valid(s) && |nonce| == NONCE_LEN
    ensures Valid(r)
    ensures !(s.phase.AwaitAnnouncement? && s.socketAttached) ==> r == s
    ensures s.phase.AwaitAnnouncement? && s.socketAttached && Unseal(data, s.publicKey, s.secretKey).None? ==>
              && r.events == s.events + [Error(UnsealFailed), Close]
              && r.sharedKey.None? && r.frames == s.frames && !r.socketAttached && r.phase == Settled
    ensures s.phase.AwaitAnnouncement? && s.socketAttached && Unseal(data, s.publicKey, s.secretKey).Some? ==>
              var peer := Unseal(data, s.publicKey, s.secretKey).value;
              var key := ScalarMult(s.secretKey, peer);
              && r.peerKey == Some(peer) && r.sharedKey == Some(key)
              && |r.frames| == |s.frames| + 1 && r.frames[..|s.frames|] == s.frames
              && OpenFrame(r.frames[|s.frames|], key) == Some(challenge)
              && r.phase == AwaitEcho(challenge) && r.events == s.events && r.socketAttached
    ensures TimerCovers(s) ==> TimerCovers(r)
  {
    if s.phase.AwaitAnnouncement? && s.socketAttached
    then ReceiveAuthRequest(s.(phase := Settled), data, challenge, nonce)
    else s
  }

  /** The raw socket emitted `close(hadError)`, which calls `destroy(hadError)` while attached. */
  function OnSocketClose(s: State, hadError: bool): (r: State)
    requires Valid(s)
    ensures Valid(r) && !r.socketAttached
    ensures s.socketAttached ==> r == Destroy(s, hadError)
    ensures !s.socketAttached ==> r == s
    ensures TimerCovers(s) ==> TimerCovers(r)
  {
    if s.socketAttached then Destroy(s, hadError) else s
  }

  /** The decoder emitted `error`, which calls `_error` once. */
  function OnDecoderError(s: State): (r: State)
    requires Valid(s)
    ensures Valid(r) && !r.pipeUp
    ensures s.pipeUp ==> r.events == s.events + [Error(DecoderFailed), Close]
    ensures !s.pipeUp ==> r == s
    ensures TimerCovers(s) ==> TimerCovers(r)
  {
    if s.pipeUp then Raise(s, DecoderFailed) else s
  }

  // ---------------------------------------------------------------- runs

  /** One thing that can happen to an EncryptedSocket after `connect`. */
  datatype Input =
    | RawChunk(data: Bytes, challenge: Bytes, nonce: Bytes)
    | DecodedFrame(frame: Bytes, nonce: Bytes)
    | TimerExpired
    | SocketClosed(hadError: bool)
    | DecoderError
    | WriteCall(data: Bytes, nonce: Bytes)
    | DestroyCall   // `esocket.destroy()`, which also destroys the raw socket

  predicate WellFormed(i: Input) {
    match i
    case RawChunk(_, _, nonce) => |nonce| == NONCE_LEN
    case DecodedFrame(_, nonce) => |nonce| == NONCE_LEN
    case WriteCall(_, nonce) => |nonce| == NONCE_LEN
    case _ => true
  }

  function Step(s: State, i: Input): (r: State)
    requires Valid(s) && WellFormed(i)
    ensures Valid(r) && r.publicKey == s.publicKey && r.secretKey == s.secretKey
    ensures TimerCovers(s) ==> TimerCovers(r)
  {
    match i
    case RawChunk(data, challenge, nonce) => OnRawData(s, data, challenge, nonce)
    case DecodedFrame(frame, nonce) => OnReceive(s, frame, nonce)
    case TimerExpired => AuthTimeout(s)
    case SocketClosed(hadError) => OnSocketClose(s, hadError)
    case DecoderError => OnDecoderError(s)
    case WriteCall(data, nonce) => Write(s, data, nonce)
    case DestroyCall => Destroy(s, true)
  }

  /** The state after a sequence of inputs; the raw socket is destroyed at most once. */
  function Run(s: State, inputs: seq<Input>): (r: State)
    requires Valid(s) && forall k :: 0 <= k < |inputs| ==> WellFormed(inputs[k])
    ensures Valid(r) && r.socketDestroys <= 1
    ensures r.publicKey == s.publicKey && r.secretKey == s.secretKey
    ensures TimerCovers(s) ==> TimerCovers(r)
    ensures s.socketDestroys == 1 ==> r.socketDestroys == 1
    decreases |inputs|
  {
    if inputs == [] then s else Run(Step(s, inputs[0]), inputs[1..])
  }
}
