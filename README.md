# swarm-peer-server: authenticated peer connections, in Dafny

swarm-peer-server lets a peer that knows a host's public key reach that
host through a discovery swarm and talk to it over an encrypted channel.
The host accepts any peer and learns its key during the handshake.
This project models the two files that make that channel trustworthy:

- **lib/socket.js, `EncryptedSocket`.** It wraps one raw socket.
  `connect(hostKey)` runs a four-message handshake (sealed key, challenge,
  echo, success marker):
  - The *initiator* knows the host key. It seals its own public key to the
    host and writes that box raw. It then echoes back the challenge it
    receives, and waits for the success marker.
  - The *acceptor* unseals the announcement to learn the peer's key, derives
    the shared key, and sends a fresh challenge. It emits `connection` only
    when the echo equals that challenge.
  - After the handshake, every message is a secretbox under the
    Diffie-Hellman shared key, prefixed by its nonce.
  - A failed unseal, a wrong echo, a missing key or an undecryptable frame
    emits `error` and tears the socket down. An initiator that receives
    anything other than the success marker ignores it silently. An auth
    timer (5000 ms) bounds the handshake.
- **index.js.** `authConnection` turns one socket's handshake into a promise:
  it resolves on `connection` and rejects on `close`. The handler in
  `listen` calls the application only for authenticated sockets. `connect`
  races the candidate sockets the swarm offers:
  - Candidates are queued and authenticated one at a time, in arrival order.
  - The first success wins, and the queued rest are destroyed.
  - A success that comes too late is destroyed.
  - A timer (15000 ms unless `opts.timeout` is set) rejects the whole
    attempt.

Each source file is modelled in its own form:

- **`Channel` and `Connect`** state the behaviour as pure functions on a
  snapshot of the object's or closure's variables. Every event handler and
  handshake step is one function. Its contract says what it writes, emits
  and tears down, and which invariant (`Channel.Valid`, `Connect.Valid`) it
  keeps.
- **`Socket.EncryptedSocket` and `Session.Connector`** are classes with the
  same fields, updated step by step as the source does. Each method is
  proved to leave exactly the state the matching function describes. So
  every lemma about the functions holds of the objects.
- **`Sodium`** replaces libsodium with a symbolic stand-in. It has exactly
  the properties the handshake relies on: a box opens under its own key, a
  sealed box only for its recipient, and both sides of the key exchange
  agree.
- **`ChannelProperties`, `Auth` and `ConnectProperties`** prove properties
  that span several calls. These include the complete handshake between
  the two roles, teardown being final, and the race in `connect` settling
  its promise once, with the first success.

Modules and files:

- `wrappers.dfy`: `Option`.
- `sodium.dfy`: `Sodium`.
- `channel.dfy`: `Channel`.
- `channel_props.dfy`: `ChannelProperties`.
- `socket.dfy`: `Socket`.
- `auth.dfy`: `Auth`.
- `connect.dfy`: `Connect`.
- `connect_props.dfy`: `ConnectProperties`.
- `session.dfy`: `Session`.

### Behaviour worth knowing

The model follows the code, including these points.

- **`destroy` keeps `sharedKey` and `peerKey`.** It only drops the socket,
  the pipe and the timer. A destroyed socket then ignores `write` and
  incoming frames because `this.socket` is null (`TeardownIsFinal`).
- **The own-key check in `receiveAuthRequest` is commented out.** An
  announcement carrying the acceptor's own public key is accepted
  (`ChannelProperties.OwnKeyAccepted`).
- **`authConnection` carries a "TODO: timeout".** The socket's own auth
  timer already covers it: while the promise is pending the timer is armed,
  and when it fires the promise rejects (`Auth.PendingAuthIsTimed`).
- **The `connect` timeout does not cancel the handshake in flight.** If
  that handshake later succeeds, the socket is destroyed rather than
  resolved (`ConnectProperties.LateSuccessIsDestroyed`).

## Model

| member | source | states |
|---|---|---|
| Sodium.Encrypt | lib/encryption.js:38-41 | a secretbox is one MAC longer than the message and opens, under the same nonce and key, to exactly that message |
| Sodium.Decrypt | lib/encryption.js:43-52 | a box shorter than the MAC never opens; an opened box is one MAC longer than its message |
| Sodium.DecryptAuthentic | lib/encryption.js:43-52 | whatever a box opens to, the box is exactly the encryption of it under that nonce and key (no forgery) |
| Sodium.PublicKeyOf | lib/encryption.js:59-66 | the public key of a secret key is a 32-byte key |
| Sodium.ScalarMult | lib/encryption.js:54-57 | the Diffie-Hellman shared secret is a 32-byte key |
| Sodium.SharedKeyAgrees | lib/encryption.js:54-66 | both parties derive the same shared key: my secret with your public key equals your secret with my public key |
| Sodium.Seal | lib/crypto.js:13-16 | a sealed box is the message plus the 48-byte seal overhead |
| Sodium.Unseal | lib/crypto.js:18-27 | a box shorter than the seal overhead never opens; a box opens only with a matching key pair and is 48 bytes longer than its message |
| Sodium.UnsealSeal | lib/crypto.js:13-27 | a box sealed to a key pair's public key unseals with that key pair to the original message |
| Sodium.UnsealWrongRecipient | lib/crypto.js:13-27 | a box sealed to one 32-byte key never unseals with a different one |
| Channel.Init | lib/socket.js:35-48 | a new EncryptedSocket holds its raw socket, has no key, no timer, no handshake registered, and has written and emitted nothing |
| Channel.Destroy | lib/socket.js:221-245 | destroy clears the timer, drops the pipe and the socket, destroys the raw socket only if still held and asked to, emits `close`, and changes nothing else |
| Channel.Raise | lib/socket.js:247-251 | `_error` emits `error` with its reason, then `close`, and leaves the socket torn down |
| Channel.AuthTimeout | lib/socket.js:65-68 | when the armed auth timer fires, the socket emits `error` and is torn down with its raw socket destroyed; a cleared timer has no effect |
| Channel.SetupEncryptionKey | lib/socket.js:81-87 | the first call pins the peer key, derives the shared key from it and builds the pipe; a later call changes nothing |
| Channel.Frame | lib/socket.js:184-191 | a written frame is nonce, then box, one MAC plus nonce longer than the data, and opens under the same key to exactly the data |
| Channel.OpenFrame | lib/socket.js:208-211 | a frame shorter than nonce plus MAC never opens; an opened frame is nonce plus MAC longer than its message |
| Channel.Write | lib/socket.js:174-193 | after destroy, nothing; without a shared key, `error` and teardown; otherwise exactly one frame that opens to the data under the shared key and nothing else changes |
| Channel.OnAuthed | lib/socket.js:165-172 | authentication clears the timer and emits `connection`, changing nothing else |
| Channel.SendAuthRequest | lib/socket.js:94-101 | the initiator writes its own public key sealed to the peer key straight to the raw socket, and waits for the challenge |
| Channel.AuthHost | lib/socket.js:90-118 | the initiator pins the host key, derives the shared key from it, writes its sealed public key raw, and waits for the challenge |
| Channel.ReceiveChallenge | lib/socket.js:104-107 | the initiator writes the challenge back as one frame under the shared key and waits for the marker |
| Channel.ReceiveAuthSuccess | lib/socket.js:110-114 | the initiator authenticates iff the message is exactly the success marker; anything else changes nothing |
| Channel.AuthPeer | lib/socket.js:121-163 | the acceptor registers for exactly one raw message and changes nothing else |
| Channel.SendChallenge | lib/socket.js:146-150 | the acceptor writes its challenge as one frame under the shared key and remembers it for the echo |
| Channel.ReceiveAuthRequest | lib/socket.js:127-143 | an announcement that does not unseal gives `error` and teardown without a key; one that does pins the unsealed key as peer key, derives the shared key, and writes the challenge under it |
| Channel.ReceiveChallengeVerification | lib/socket.js:153-160 | an echo equal to the challenge writes the success marker and emits `connection`; any other echo gives `error` and teardown with nothing written |
| Channel.Connect | lib/socket.js:55-63 | with a host key, the initiator path (host key pinned, sealed announcement written); without one, the acceptor path (waiting for a raw message, no key); the auth timer armed in both |
| Channel.Deliver | lib/socket.js:100-160 | the pending handshake continuation only appends events, and never a `data` event |
| Channel.OnReceive | lib/socket.js:195-219 | after destroy, nothing; without a key, `error` and teardown; a frame that does not open gives `error` and teardown with nothing written |
| Channel.OnRawData | lib/socket.js:127-162 | only the acceptor's first raw message is read: if it does not unseal, `error` and teardown; if it does, the peer key is pinned, the shared key derived, and a frame opening to the challenge written |
| Channel.OnSocketClose | lib/socket.js:221-245 | a raw `close` while attached runs `destroy(hadError)`; afterwards the socket is detached |
| Channel.OnDecoderError | lib/socket.js:247-251 | a decoder error while the pipe exists emits `error` and `close` and drops the pipe; otherwise nothing |
| Channel.Step | lib/socket.js:47-245 | every input keeps the socket invariant and the key pair, and keeps the auth timer covering an unsettled handshake |
| Channel.Run | lib/socket.js:221-245 | across any inputs the invariant holds and the raw socket is destroyed at most once |
| ChannelProperties.SetupEncryptionKeyOnce | lib/socket.js:81-87 | setting up the key twice is the same as once |
| ChannelProperties.DestroyAgain | lib/socket.js:221-245 | a second destroy changes no field and only emits `close` again |
| ChannelProperties.RoundTrip | lib/socket.js:174-219 | a frame written under a key and received under the same key yields one `data` event with the written bytes; after the handshake that is the only effect |
| ChannelProperties.ShortFrameFailsClosed | lib/socket.js:208-216 | a frame too short to hold a nonce and a MAC gives `error`, teardown and no `data` |
| ChannelProperties.AcceptorVerifiesEcho | lib/socket.js:153-160 | the acceptor writes the marker and emits `connection` iff the echo equals its challenge; otherwise `error` and teardown |
| ChannelProperties.InitiatorEchoesChallenge | lib/socket.js:104-107 | the initiator writes back exactly the decrypted challenge, encrypted under the shared key, and writes nothing raw |
| ChannelProperties.InitiatorAwaitsMarker | lib/socket.js:110-114 | the initiator emits `connection` only for the exact marker; any other message ends the handshake silently |
| ChannelProperties.AnnouncementReadOnce | lib/socket.js:162 | after the acceptor's first raw message, later raw chunks change nothing |
| ChannelProperties.OwnKeyAccepted | lib/socket.js:136-141 | an announcement carrying the acceptor's own public key is accepted and answered with a challenge |
| ChannelProperties.WrongRecipientRefused | lib/socket.js:127-134 | an announcement sealed to another key is refused with `error` and teardown, and no key or challenge |
| ChannelProperties.AnnouncementAnswered | lib/socket.js:90-150 | the acceptor unseals the initiator's announcement, pins the initiator's public key, derives the same shared key as the initiator, and writes a frame that opens to its challenge under that key |
| ChannelProperties.HandshakeCompletes | lib/socket.js:90-163 | an initiator and an acceptor that relay each other's messages both emit `connection`, agree on the shared key, know each other's public key, clear their timers and keep their sockets |
| ChannelProperties.TeardownIsFinal | lib/socket.js:174-245 | after teardown no input changes any field, and the only events are repeated `close` |
| Socket.PackFrame | lib/socket.js:187-189 | the buffer built by `write` holds the nonce followed by the box |
| Socket.EncryptedSocket.constructor | lib/socket.js:35-48 | the fields start as `Channel.Init` says |
| Socket.EncryptedSocket.Connect | lib/socket.js:55-63 | the fields change exactly as `Channel.Connect` says |
| Socket.EncryptedSocket.AuthTimeout | lib/socket.js:65-68 | the fields change exactly as `Channel.AuthTimeout` says |
| Socket.EncryptedSocket.SetupEncryptionKey | lib/socket.js:81-87 | the fields change exactly as `Channel.SetupEncryptionKey` says |
| Socket.EncryptedSocket.AuthHost | lib/socket.js:90-118 | the fields change exactly as `Channel.AuthHost` says |
| Socket.EncryptedSocket.SendAuthRequest | lib/socket.js:94-101 | the fields change exactly as `Channel.SendAuthRequest` says |
| Socket.EncryptedSocket.ReceiveChallenge | lib/socket.js:104-107 | the fields change exactly as `Channel.ReceiveChallenge` says |
| Socket.EncryptedSocket.ReceiveAuthSuccess | lib/socket.js:110-114 | the fields change exactly as `Channel.ReceiveAuthSuccess` says |
| Socket.EncryptedSocket.AuthPeer | lib/socket.js:121-163 | the fields change exactly as `Channel.AuthPeer` says |
| Socket.EncryptedSocket.ReceiveAuthRequest | lib/socket.js:127-143 | the fields change exactly as `Channel.ReceiveAuthRequest` says |
| Socket.EncryptedSocket.SendChallenge | lib/socket.js:146-150 | the fields change exactly as `Channel.SendChallenge` says |
| Socket.EncryptedSocket.ReceiveChallengeVerification | lib/socket.js:153-160 | the fields change exactly as `Channel.ReceiveChallengeVerification` says |
| Socket.EncryptedSocket.OnAuthed | lib/socket.js:165-172 | the fields change exactly as `Channel.OnAuthed` says |
| Socket.EncryptedSocket.Write | lib/socket.js:174-193 | the fields change exactly as `Channel.Write` says, with the frame built by `PackFrame` |
| Socket.EncryptedSocket.OnReceive | lib/socket.js:195-219 | the fields change exactly as `Channel.OnReceive` says |
| Socket.EncryptedSocket.OnRawData | lib/socket.js:127-162 | the fields change exactly as `Channel.OnRawData` says |
| Socket.EncryptedSocket.Destroy | lib/socket.js:221-245 | the fields change exactly as `Channel.Destroy` says |
| Socket.EncryptedSocket.Raise | lib/socket.js:247-251 | the fields change exactly as `Channel.Raise` says |
| Socket.EncryptedSocket.OnSocketClose | lib/socket.js:47 | the fields change exactly as `Channel.OnSocketClose` says |
| Socket.EncryptedSocket.OnDecoderError | lib/socket.js:75 | the fields change exactly as `Channel.OnDecoderError` says |
| Auth.AuthOutcome | index.js:31-33 | the promise is pending iff the socket has emitted neither `connection` nor `close`; resolved and rejected each need their event |
| Auth.OutcomeIsFinal | index.js:28-37 | once settled, the promise keeps its outcome whatever the socket emits later |
| Auth.PendingDefersToLater | index.js:28-37 | while pending, later events alone decide the promise |
| Auth.AuthStart | index.js:27-38 | `authConnection` starts the handshake as initiator iff a host key is given, with the timer armed and the promise pending |
| Auth.AuthRun | index.js:27-38 | whatever the socket then receives, the invariant holds and the raw socket is destroyed at most once |
| Auth.KeyIsPinned | lib/socket.js:81-87 | once a peer key is set, no input changes it or the shared key |
| Auth.InitiatorResolvesWithHostKey | index.js:125-129 | an initiator's connection only ever has the host key as peer key and the key derived from it as shared key |
| Auth.SettledConnection | index.js:31-33 | a resolved connection has a peer key and the shared key derived from it; a rejected one holds no socket, pipe or timer |
| Auth.PendingAuthIsTimed | index.js:35-36 | a pending `authConnection` always has the auth timer armed, and its expiry rejects the promise |
| Auth.OnAuthSettled | index.js:59-72 | the `listen` handler calls the application with the socket and its peer key on success, and calls nothing on failure |
| Auth.ListenHandlesOnlyAuthenticated | index.js:55-73 | the application is called for a socket exactly when its handshake succeeded, with the peer key that the shared key was derived from; earlier calls are untouched |
| Connect.ConnectTimeout | index.js:170-174 | an absent or zero `opts.timeout` falls back to 15000 ms; any other value is used as given |
| Connect.Start | index.js:98-174 | `connect` starts listening with an empty queue and the timer armed, with nothing attempted |
| Connect.Cleanup | index.js:101-115 | cleanup clears the timer, destroys every queued socket, empties the queue, stops listening, closes the swarm unless connected, and changes nothing else |
| Connect.Next | index.js:121-154 | the loop head takes the oldest queued socket while neither connected nor timed out, and otherwise leaves the loop |
| Connect.AttemptConnect | index.js:117-121 | `attemptConnect` enters the loop with `connecting` set and keeps the race invariant |
| Connect.Arrive | index.js:158-167 | an arriving socket is queued and, when no loop runs, attempted at once; after cleanup nothing arrives |
| Connect.AfterAuth | index.js:130-151 | a failed attempt is recorded and skipped; the first success resolves with that socket and cleans up; a late success is destroyed |
| Connect.Settle | index.js:121-155 | after an attempt settles, the race invariant holds: a win resolves with that socket, having destroyed the queue and left the swarm open; a late win leaves the promise as it was |
| Connect.Timeout | index.js:170-174 | the armed timer cleans up, closes the swarm and rejects; a cleared timer does nothing |
| Connect.WinnerClosed | index.js:141-144 | the winner's first `close` closes the swarm, once |
| Connect.Step | index.js:121-174 | every event keeps the race invariant |
| Connect.Run | index.js:78-176 | across any events the race invariant holds |
| ConnectProperties.AttemptsInArrivalOrder | index.js:121-162 | sockets are attempted in the order they arrived |
| ConnectProperties.FirstSuccessWins | index.js:121-148 | the promise resolves with the first attempt that succeeded, and every attempt before it failed |
| ConnectProperties.EveryCandidateAccountedFor | index.js:101-155 | once the race is over, every arrived socket failed, won, was destroyed as a late winner, or was destroyed by cleanup |
| ConnectProperties.NoTimeoutAfterWin | index.js:101-147 | after a win the timer can no longer reject |
| ConnectProperties.SettlesOnce | index.js:148-173 | the promise is resolved or rejected at most once, and never changes once settled |
| ConnectProperties.NothingAfterTheEnd | index.js:107-121 | after a win or a timeout no socket is queued, attempted or discarded, and the promise stays as it is |
| ConnectProperties.SwarmClosesWithWinner | index.js:112-144 | after a win the swarm stays open until the winner first closes, and is then closed exactly once |
| ConnectProperties.RunConcat | index.js:78-176 | running two event sequences one after the other is running their concatenation |
| ConnectProperties.RunPair | index.js:78-176 | running two events is stepping twice |
| ConnectProperties.ThreeArrivals | index.js:158-167 | three arrivals, whatever their ids and the timeout, put the first in flight and queue the other two in order |
| ConnectProperties.FailThenWin | index.js:121-151 | if the first attempt fails and the second succeeds, the promise resolves with the second, the third is destroyed unattempted, and the swarm stays open |
| ConnectProperties.SecondCandidateWins | index.js:117-174 | from the start: three arrivals, a failure and then a success resolve with the second candidate, and the winner's two `close` events close the swarm once |
| ConnectProperties.TimeoutThenLateWin | index.js:138-174 | with one socket in flight and one queued, the timer rejects and destroys the queued one; the later success is destroyed, not resolved |
| ConnectProperties.LateSuccessIsDestroyed | index.js:138-174 | a timeout during an attempt rejects and destroys the queue; the later success is destroyed, not resolved |
| Session.AuthConnection | index.js:27-38 | a new EncryptedSocket whose fields are those of `Auth.AuthStart` |
| Session.Connector.constructor | index.js:98-174 | the fields start as `Connect.Start` says |
| Session.Connector.Cleanup | index.js:101-115 | the fields change exactly as `Connect.Cleanup` says; queued sockets are destroyed one by one in a loop |
| Session.Connector.ClearTimer | index.js:102-105 | the timer is cleared and no other field changes |
| Session.Connector.DestroyQueued | index.js:107-108 | a loop destroys every queued socket in queue order, appending each to the destroyed ones, then empties the queue; no other field changes |
| Session.Connector.StopListening | index.js:110-114 | `onConnection` is unregistered and the swarm is closed once unless connected; no other field changes |
| Session.Connector.Next | index.js:121-154 | the fields change exactly as `Connect.Next` says |
| Session.Connector.AttemptConnect | index.js:117-121 | the fields change exactly as `Connect.AttemptConnect` says |
| Session.Connector.OnConnection | index.js:158-167 | the fields change exactly as `Connect.Arrive` says |
| Session.Connector.Settle | index.js:121-155 | the fields change exactly as `Connect.Settle` says |
| Session.Connector.AfterAuth | index.js:130-151 | the fields change exactly as `Connect.AfterAuth` says |
| Session.Connector.Shift | index.js:121 | `queue.shift()` on a non-empty queue returns its oldest socket and removes it; no other field changes |
| Session.Connector.Win | index.js:138-148 | the winner hooks the swarm's closing to its `close`, sets `connected`, runs cleanup (which leaves the swarm open) and resolves with that socket |
| Session.Connector.OnTimeout | index.js:170-174 | the fields change exactly as `Connect.Timeout` says |
| Session.Connector.OnWinnerClose | index.js:141-144 | the fields change exactly as `Connect.WinnerClosed` says |
| Session.Listener.constructor | index.js:40-42 | `listen` keeps the key pair it authenticates with, and no handler has been called yet |
| Session.Listener.OnConnection | index.js:55-65 | every raw connection gets a new acceptor-side EncryptedSocket whose fields are those of `Auth.AuthStart` without a host key |
| Session.Listener.OnAuthSettled | index.js:66-72 | the handler calls change exactly as `Auth.OnAuthSettled` says |

## Left out

- The `lpstream` Decoder patch (lib/socket.js:12-28) works around a Node.js stream bug and is not modelled.
- Length-prefixed framing and the stream piping of `_setupSocket` (lib/socket.js:70-79) are modelled as the `pipeUp` flag and the `frames` log. Each frame the encoder is given is a frame the peer's decoder produces.
- Channel.OnRawData: `destroy` does not unregister the acceptor's raw `once('data')` listener (lib/socket.js:162, 237-243), while the model delivers no raw chunk to a detached socket. This holds because every detaching input destroys the raw socket (`DestroyCall`, `_error`, the auth timer) or follows the raw socket's own `close`. An application calling `destroy(false)` on a live socket, which would leave the raw socket readable, is not an input of the model. `ChannelProperties.TeardownIsFinal` is proved for the inputs the model has.
- Channel.ReceiveAuthRequest: a sealed announcement whose content is a key `crypto_scalarmult` rejects (a wrong length, or a low-order point such as 32 zero bytes) is not modelled as the source handles it. There, `peerKey` is set (lib/socket.js:83) and `crypto_scalarmult` then throws (lib/socket.js:84) inside the raw `data` listener: the exception is uncaught, no challenge is written, and neither `error` nor `close` is emitted. The model instead derives a key from those bytes and writes the challenge, so the success branches of `Channel.ReceiveAuthRequest` and `Channel.OnRawData` are faithful only for announced keys that `crypto_scalarmult` accepts. That key is chosen by the remote peer.
- Channel.AuthHost: a host key that `crypto_scalarmult` rejects (a wrong length, or a low-order point) is not modelled as the source handles it. There, `peerKey` is set and `crypto_scalarmult` throws (lib/socket.js:83-84, reached from `_authHost` at lib/socket.js:116) inside `connect` (lib/socket.js:57) before the auth timer is armed (lib/socket.js:62); `authConnection`'s promise rejects through its executor (index.js:28-36) and the raw socket is never destroyed. The model instead writes the announcement and waits for the challenge, so it is faithful only for host keys that `crypto_scalarmult` accepts.
- Channel.Connect: with a host key that `crypto_scalarmult` rejects, the source throws inside `_authHost` (lib/socket.js:57, via :84) before the auth timer is armed at lib/socket.js:62. The model instead returns the initiator state with the timer armed, so it is faithful only for host keys that `crypto_scalarmult` accepts.
- Auth.AuthStart: with a host key that `crypto_scalarmult` rejects, `esocket.connect` throws inside the promise executor (index.js:36), so `authConnection` rejects at once, no timer is armed and the raw socket is never destroyed. The model instead gives a pending promise with the timer armed, so it is faithful only for host keys that `crypto_scalarmult` accepts.
- Session.AuthConnection: it inherits the gap of `Auth.AuthStart`. For a host key that `crypto_scalarmult` rejects, the source's promise rejects at once (index.js:28-36), where the method's fields say the promise is pending with the timer armed.
- NONCE_LEN: `write` prefixes each frame with a nonce of `crypto_secretbox_NONCEBYTES` bytes (lib/socket.js:184, lib/encryption.js:34-36), but `_onReceive` splits frames at `crypto_box_NONCEBYTES` (lib/socket.js:208). The model uses one constant, 24, for both, as libsodium defines them equal.
- TCP chunking: a raw write reaches the peer as one chunk. The acceptor's `socket.once('data')` is assumed to see the whole sealed announcement.
- libsodium is foreign code. `Sodium` is a symbolic stand-in with the properties listed above and no cryptographic strength. The library's exception on a key `crypto_scalarmult` rejects (a wrong length, or a low-order point such as 32 zero bytes) or a wrong-length nonce is not modelled: every nonce is 24 bytes, `Sodium.ScalarMult` is total, and keys of other lengths are padded or cut.
- `enc.nonce()` and the other random values (nonces, the challenge, generated key pairs) are parameters of the functions. `scalarMultiplicationKeyPair`'s random secret key is therefore not modelled.
- The challenge is any byte string the caller supplies. Its freshness is not modelled.
- Time is not modelled. The 5000 ms auth delay is not represented, and the `connect` delay is only recorded in `timeoutMs`. Timer expiry is an input that can arrive whenever the timer is armed.
- EventEmitter is modelled only as the ordered `events` log. The behaviour of an `error` emitted with no listener (Node throws) and the order of listeners other than the handshake's own are not modelled.
- `debug` and `console` logging are not modelled.
- Discovery is not modelled: `getDiscoveryKey`'s BLAKE2b hash, `createSwarm`, ports, the swarm's `error` handling and `join`. Sockets offered by the swarm are abstract ids.
- The `opts.convert` key conversion (`pub2auth`, `secret2auth`, lib/crypto.js:3-11) is not modelled. Keys are taken as already converted.
- Promises and `async` are modelled as explicit resumption points. `Connect.Settle`'s `ok` stands for the `authConnection` outcome (`Auth.AuthOutcome(...) == Resolved`). The connection between one candidate's EncryptedSocket and the race is stated in `Auth` and `Connect` separately, not as one combined state.
- `Session.Listener.OnAuthSettled` models the code after the `await`. The `await` itself is the caller's sequencing.
- `Channel.Deliver`: its contract states only that it appends events and never a `data` event. What each continuation does is stated by the handshake-step functions it dispatches to.
- `Channel.Run` and `Auth.AuthRun` do not restate each step. Their contracts are the invariants every step keeps.
- `socket.address()` and the returned swarm object of `listen` are not modelled.
- index.d.ts and the files under examples/ are not part of this model.
