/**
 * class EncryptedSocket of lib/socket.js.  The fields are the object's
 * fields; each method changes them step by step as the source does and is
 * proved to leave exactly the state that the matching function of module
 * Channel describes, so every property proved there holds of the object.
 */
module Socket {
  import opened Wrappers
  import opened Sodium
  import Channel

  /**
   * The message `write` builds: a buffer of the combined length into which
   * the nonce and then the box are copied.
   */
  method PackFrame(nonce: Bytes, box: Bytes) returns (msg: Bytes)
    ensures |msg| == |nonce| + |box|
    ensures msg[..|nonce|] == nonce && msg[|nonce|..] == box
  {
    var buf := new byte[|nonce| + |box|];
    for i := 0 to |nonce|
      invariant forall j :: 0 <= j < i ==> buf[j] == nonce[j]
    {
      buf[i] := nonce[i];
    }
    for i := 0 to |box|
      invariant forall j :: 0 <= j < |nonce| ==> buf[j] == nonce[j]
      invariant forall j :: 0 <= j < i ==> buf[|nonce| + j] == box[j]
    {
      buf[|nonce| + i] := box[i];
    }
    msg := buf[..];
  }

  class EncryptedSocket {
    const publicKey: Bytes
    const secretKey: Bytes
    var socketAttached: bool
    var socketDestroys: nat
    var pipeUp: bool
    var peerKey: Option<Bytes>
    var sharedKey: Option<Bytes>
    var timerArmed: bool
    var phase: Channel.Phase
    var rawWrites: seq<Bytes>
    var frames: seq<Bytes>
    var events: seq<Channel.Event>

    ghost function State(): Channel.State
      reads this
    {
      Channel.State(publicKey, secretKey, socketAttached, socketDestroys, pipeUp, peerKey, sharedKey,
                    timerArmed, phase, rawWrites, frames, events)
    }

    ghost predicate Valid()
      reads this
    {
      Channel.Valid(State())
    }

    constructor (publicKey: Bytes, secretKey: Bytes)
      ensures Valid() && State() == Channel.Init(publicKey, secretKey)
    {
      this.publicKey := publicKey;
      this.secretKey := secretKey;
      socketAttached := true;
      socketDestroys := 0;
      pipeUp := false;
      peerKey := None;
      sharedKey := None;
      timerArmed := false;
      phase := Channel.Unconnected;
      rawWrites := [];
      frames := [];
      events := [];
    }

    method Connect(hostKey: Option<Bytes>)
      requires Valid() && phase.Unconnected? && socketAttached && sharedKey.None?
      modifies this
      ensures Valid() && State() == Channel.Connect(old(State()), hostKey)
    {
      if hostKey.Some? {
        AuthHost(hostKey.value);
      } else {
        AuthPeer();
      }
      timerArmed := true;
    }

    method AuthTimeout()
      requires Valid()
      modifies this
      ensures Valid() && State() == Channel.AuthTimeout(old(State()))
    {
      if timerArmed {
        timerArmed := false;
        Raise(Channel.AuthTimedOut);
      }
    }

    method SetupEncryptionKey(peer: Bytes)
      requires Valid() && socketAttached && !phase.AwaitAnnouncement?
      modifies this
      ensures Valid() && State() == Channel.SetupEncryptionKey(old(State()), peer)
    {
      if sharedKey.None? {
        peerKey := Some(peer);
        sharedKey := Some(ScalarMult(secretKey, peer));
        pipeUp := true;  // _setupSocket
      }
    }

    method AuthHost(hostKey: Bytes)
      requires Valid() && socketAttached && sharedKey.None? && phase.Unconnected?
      modifies this
      ensures Valid() && State() == Channel.AuthHost(old(State()), hostKey)
    {
      SetupEncryptionKey(hostKey);
      SendAuthRequest();
    }

    method SendAuthRequest()
      requires Valid() && peerKey.Some?
      modifies this
      ensures Valid() && State() == Channel.SendAuthRequest(old(State()))
    {
      var box := Seal(publicKey, peerKey.value);
      rawWrites := rawWrites + [box];
      phase := Channel.AwaitChallenge;
    }

    method ReceiveChallenge(challenge: Bytes, nonce: Bytes)
      requires Valid() && sharedKey.Some? && |nonce| == NONCE_LEN
      modifies this
      ensures Valid() && State() == Channel.ReceiveChallenge(old(State()), challenge, nonce)
    {
      Write(challenge, nonce);
      phase := Channel.AwaitSuccess;
    }

    method ReceiveAuthSuccess(data: Bytes)
      requires Valid() && sharedKey.Some?
      modifies this
      ensures Valid() && State() == Channel.ReceiveAuthSuccess(old(State()), data)
    {
      if data == Channel.SUCCESS {
        OnAuthed();
      }
    }

    method AuthPeer()
      requires Valid() && phase.Unconnected? && sharedKey.None?
      modifies this
      ensures Valid() && State() == Channel.AuthPeer(old(State()))
    {
      phase := Channel.AwaitAnnouncement;
    }

    method ReceiveAuthRequest(data: Bytes, challenge: Bytes, nonce: Bytes)
      requires Valid() && socketAttached && sharedKey.None? && phase.Settled? && |nonce| == NONCE_LEN
      modifies this
      ensures Valid() && State() == Channel.ReceiveAuthRequest(old(State()), data, challenge, nonce)
    {
      var peerPublicKey := Unseal(data, publicKey, secretKey);
      if peerPublicKey.None? {
        Raise(Channel.UnsealFailed);
        return;
      }
      SetupEncryptionKey(peerPublicKey.value);
      SendChallenge(challenge, nonce);
    }

    method SendChallenge(challenge: Bytes, nonce: Bytes)
      requires Valid() && sharedKey.Some? && |nonce| == NONCE_LEN
      modifies this
      ensures Valid() && State() == Channel.SendChallenge(old(State()), challenge, nonce)
    {
      Write(challenge, nonce);
      phase := Channel.AwaitEcho(challenge);
    }

    method ReceiveChallengeVerification(challenge: Bytes, reply: Bytes, nonce: Bytes)
      requires Valid() && sharedKey.Some? && |nonce| == NONCE_LEN
      modifies this
      ensures Valid() && State() == Channel.ReceiveChallengeVerification(old(State()), challenge, reply, nonce)
    {
      if challenge == reply {
        Write(Channel.SUCCESS, nonce);
        OnAuthed();
      } else {
        Raise(Channel.PeerAuthFailed);
      }
    }

    method OnAuthed()
      requires Valid() && sharedKey.Some?
      modifies this
      ensures Valid() && State() == Channel.OnAuthed(old(State()))
    {
      if timerArmed {
        timerArmed := false;
      }
      events := events + [Channel.Connection];
    }

    method Write(data: Bytes, nonce: Bytes)
      requires Valid() && |nonce| == NONCE_LEN
      modifies this
      ensures Valid() && State() == Channel.Write(old(State()), data, nonce)
    {
      if !socketAttached {
        return;
      }
      if sharedKey.None? {
        Raise(Channel.WriteWithoutKey);
        return;
      }
      var box := Encrypt(data, nonce, sharedKey.value);
      var msg := PackFrame(nonce, box);
      assert msg == nonce + box;
      frames := frames + [msg];
    }

    method OnReceive(frame: Bytes, nonce: Bytes)
      requires Valid() && |nonce| == NONCE_LEN
      modifies this
      ensures Valid() && State() == Channel.OnReceive(old(State()), frame, nonce)
    {
      if !socketAttached {
        return;
      }
      if sharedKey.None? {
        Raise(Channel.ReceiveWithoutKey);
        return;
      }
      var msg := Channel.OpenFrame(frame, sharedKey.value);
      if msg.None? {
        Raise(Channel.DecryptFailed);
        return;
      }
      events := events + [Channel.Data(msg.value)];
      // The pending once('data') continuation is unregistered, then runs.
      match phase {
        case AwaitChallenge =>
          phase := Channel.Settled;
          ReceiveChallenge(msg.value, nonce);
        case AwaitSuccess =>
          phase := Channel.Settled;
          ReceiveAuthSuccess(msg.value);
        case AwaitEcho(challenge) =>
          phase := Channel.Settled;
          ReceiveChallengeVerification(challenge, msg.value, nonce);
        case _ =>
      }
    }

    method OnRawData(data: Bytes, challenge: Bytes, nonce: Bytes)
      requires Valid() && |nonce| == NONCE_LEN
      modifies this
      ensures Valid() && State() == Channel.OnRawData(old(State()), data, challenge, nonce)
    {
      if phase.AwaitAnnouncement? && socketAttached {
        phase := Channel.Settled;
        ReceiveAuthRequest(data, challenge, nonce);
      }
    }

    method Destroy(destroySocket: bool)
      requires Valid()
      modifies this
      ensures Valid() && State() == Channel.Destroy(old(State()), destroySocket)
    {
      if timerArmed {
        timerArmed := false;
      }
      if pipeUp {
        pipeUp := false;
      }
      if socketAttached {
        if destroySocket {
          socketDestroys := socketDestroys + 1;
        }
        socketAttached := false;
      }
      events := events + [Channel.Close];
    }

    method Raise(reason: Channel.Failure)
      requires Valid()
      modifies this
      ensures Valid() && State() == Channel.Raise(old(State()), reason)
    {
      events := events + [Channel.Error(reason)];
      Destroy(true);
    }

    method OnSocketClose(hadError: bool)
      requires Valid()
      modifies this
      ensures Valid() && State() == Channel.OnSocketClose(old(State()), hadError)
    {
      if socketAttached {
        Destroy(hadError);
      }
    }

    method OnDecoderError()
      requires Valid()
      modifies this
      ensures Valid() && State() == Channel.OnDecoderError(old(State()))
    {
      if pipeUp {
        Raise(Channel.DecoderFailed);
      }
    }
  }
}
