/**
 * The imperative side of index.js: the closure state of one `connect` call
 * (class Connector), `authConnection`, and the per-connection handler of
 * `listen` (class Listener).  Each method is proved to change the fields
 * exactly as the matching function of module Connect or Auth says.
 */
module Session {
  import opened Wrappers
  import opened Sodium
  import Channel
  import Socket
  import Auth
  import Connect

  /**
   * `authConnection(socket, opts)` up to the point where it waits: a new
   * EncryptedSocket whose handshake has been started, as initiator exactly
   * when a host key is given.
   */
  method AuthConnection(publicKey: Bytes, secretKey: Bytes, hostPublicKey: Option<Bytes>)
    returns (es: Socket.EncryptedSocket)
    ensures fresh(es) && es.Valid()
    ensures es.State() == Auth.AuthStart(publicKey, secretKey, hostPublicKey)
  {
    es := new Socket.EncryptedSocket(publicKey, secretKey);
    es.Connect(hostPublicKey);
  }

  /** The variables the closures of one `connect(opts)` call share. */
  class Connector {
    const timeoutMs: int
    var queue: seq<Connect.SocketId>
    var connecting: bool
    var connected: bool
    var timedOut: bool
    var timerArmed: bool
    var listening: bool
    var swarmCloses: nat
    var closeHooked: bool
    var inFlight: Option<Connect.SocketId>
    var arrivals: seq<Connect.SocketId>
    var attempted: seq<Connect.SocketId>
    var failed: seq<Connect.SocketId>
    var lateWinners: seq<Connect.SocketId>
    var discarded: seq<Connect.SocketId>
    var calls: seq<Connect.Call>

    ghost function State(): Connect.State
      reads this
    {
      Connect.State(timeoutMs, queue, connecting, connected, timedOut, timerArmed, listening, swarmCloses,
                    closeHooked, inFlight, arrivals, attempted, failed, lateWinners, discarded, calls)
    }

    ghost predicate Valid()
      reads this
    {
      Connect.Valid(State())
    }

    /** Register `onConnection` and arm the timer for `opts.timeout || NETWORK_TIMEOUT`. */
    constructor (requested: Option<int>)
      ensures Valid() && State() == Connect.Start(requested)
    {
      timeoutMs := Connect.ConnectTimeout(requested);
      queue := [];
      connecting := false;
      connected := false;
      timedOut := false;
      timerArmed := true;
      listening := true;
      swarmCloses := 0;
      closeHooked := false;
      inFlight := None;
      arrivals := [];
      attempted := [];
      failed := [];
      lateWinners := [];
      discarded := [];
      calls := [];
    }

    method Cleanup()
      modifies this
      ensures State() == Connect.Cleanup(old(State()))
    {
      ClearTimer();
      DestroyQueued();
      StopListening();
    }

    method ClearTimer()
      modifies this
      ensures State() == old(State()).(timerArmed := false)
    {
      if timerArmed {
        timerArmed := false;
      }
    }

    /** `queue.forEach(socket => socket.destroy())`, then `queue = []`. */
    method DestroyQueued()
      modifies this
      ensures State() == old(State()).(discarded := old(discarded) + old(queue), queue := [])
    {
      var destroyed := discarded;
      for i := 0 to |queue|
        invariant destroyed == discarded + queue[..i]
      {
        destroyed := destroyed + [queue[i]];
      }
      discarded, queue := destroyed, [];
    }

    /** Unregister `onConnection`; close the swarm unless connected. */
    method StopListening()
      modifies this
      ensures State() == old(State()).(listening := false,
                                       swarmCloses := if old(connected) then old(swarmCloses) else old(swarmCloses) + 1)
    {
      listening := false;
      if !connected {
        swarmCloses := swarmCloses + 1;
      }
    }

    /** The head of the `while` loop of `attemptConnect`. */
    method Next()
      requires Connect.Core(State()) && connecting && inFlight.None?
      modifies this
      ensures Valid() && State() == Connect.Next(old(State()))
    {
      ghost var s := State();
      if !connected && !timedOut && |queue| > 0 {
        var socket := Shift();
        inFlight, attempted := Some(socket), attempted + [socket];
        assert State() == s.(queue := s.queue[1..], inFlight := Some(s.queue[0]), attempted := s.attempted + [s.queue[0]]);
      } else {
        connecting := false;
        assert State() == s.(connecting := false);
      }
    }

    /** `queue.shift()` on a non-empty queue. */
    method Shift() returns (socket: Connect.SocketId)
      requires queue != []
      modifies this
      ensures socket == old(queue[0]) && State() == old(State()).(queue := old(queue[1..]))
    {
      socket := queue[0];
      queue := queue[1..];
    }

    method AttemptConnect()
      requires Connect.Core(State()) && !connecting && inFlight.None?
      modifies this
      ensures Valid() && State() == Connect.AttemptConnect(old(State()))
    {
      connecting := true;
      Next();
    }

    method OnConnection(socket: Connect.SocketId)
      requires Valid()
      modifies this
      ensures Valid() && State() == Connect.Arrive(old(State()), socket)
    {
      if !listening {
        return;
      }
      queue := queue + [socket];
      arrivals := arrivals + [socket];
      if !connecting {
        AttemptConnect();
      }
    }

    /** The awaited `authConnection` has settled; `ok` when it resolved. */
    method Settle(ok: bool)
      requires Valid() && inFlight.Some?
      modifies this
      ensures Valid() && State() == Connect.Settle(old(State()), ok)
    {
      AfterAuth(ok);
      Next();
    }

    /** The rest of the loop body after the await. */
    method AfterAuth(ok: bool)
      requires Valid() && inFlight.Some?
      modifies this
      ensures State() == Connect.AfterAuth(old(State()), ok)
    {
      var socket := inFlight.value;
      inFlight := None;
      if !ok {
        failed := failed + [socket];
      } else if !timedOut && !connected {
        Win(socket);
      } else {
        lateWinners := lateWinners + [socket];
      }
    }

    /** The first success: hook the swarm to the winner's `close`, set `connected`, clean up, resolve. */
    method Win(socket: Connect.SocketId)
      modifies this
      ensures State() == Connect.Cleanup(old(State()).(closeHooked := true, connected := true))
                           .(calls := old(calls) + [Connect.Resolve(socket)])
    {
      closeHooked, connected := true, true;
      Cleanup();
      calls := calls + [Connect.Resolve(socket)];
    }

    method OnTimeout()
      requires Valid()
      modifies this
      ensures Valid() && State() == Connect.Timeout(old(State()))
    {
      if timerArmed {
        Cleanup();
        timedOut := true;
        calls := calls + [Connect.Reject];
      }
    }

    method OnWinnerClose()
      requires Valid()
      modifies this
      ensures Valid() && State() == Connect.WinnerClosed(old(State()))
    {
      if closeHooked {
        closeHooked := false;
        swarmCloses := swarmCloses + 1;
      }
    }
  }

  /** The state of `listen(opts, connectionHandler)`: the calls of the handler so far. */
  class Listener {
    const publicKey: Bytes
    const secretKey: Bytes
    var calls: seq<Auth.HandlerCall>

    constructor (publicKey: Bytes, secretKey: Bytes)
      ensures this.publicKey == publicKey && this.secretKey == secretKey && calls == []
    {
      this.publicKey := publicKey;
      this.secretKey := secretKey;
      calls := [];
    }

    /** A raw socket arrives: authenticate it as acceptor. */
    method OnConnection() returns (es: Socket.EncryptedSocket)
      ensures fresh(es) && es.Valid() && es.State() == Auth.AuthStart(publicKey, secretKey, None)
    {
      es := AuthConnection(publicKey, secretKey, None);
    }

    /** Its `authConnection` has settled: call the handler on success only. */
    method OnAuthSettled(socket: Auth.SocketId, es: Socket.EncryptedSocket)
      requires es.Valid() && Auth.AuthOutcome(es.events) != Auth.Pending
      modifies this
      ensures calls == Auth.OnAuthSettled(old(calls), socket, es.State())
    {
      if Auth.AuthOutcome(es.events) == Auth.Resolved {
        calls := calls + [Auth.HandlerCall(socket, es.peerKey.value)];
      }
    }
  }
}
