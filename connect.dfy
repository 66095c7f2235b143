/**
 * The candidate race inside `connect(opts)` of index.js, as pure functions
 * on a snapshot of its closure variables.
 *
 * Raw sockets offered by the swarm are queued; a single `attemptConnect`
 * loop takes them one at a time in arrival order and awaits an
 * `authConnection` on each; the first one that authenticates wins, and
 * `cleanup` destroys whatever is still queued.  A timer rejects the whole
 * attempt if no candidate wins in time.
 *
 * The loop awaits inside its body, so it runs in pieces: `Next` is its
 * head (the `while` test with its `queue.shift()`, or the
 * `connecting = false` after the loop), entered when the loop starts and
 * again each time the awaited handshake settles (`Settle`).  Sockets are
 * named by ids; the logs record what the code does to them.
 */
module Connect {
  import opened Wrappers

  /** Milliseconds before `connect` gives up, unless `opts.timeout` says otherwise. */
  const NETWORK_TIMEOUT: int := 15000

  type SocketId = nat

  /** A call of the outer promise's `resolve(esocket)` or `reject(...)`. */
  datatype Call = Resolve(socket: SocketId) | Reject

  datatype State = State(
    timeoutMs: int,             // the delay given to `setTimeout`
    queue: seq<SocketId>,
    connecting: bool,
    connected: bool,
    timedOut: bool,             // the closure variable `timeout`
    timerArmed: bool,           // `timeoutId` is set
    listening: bool,            // `onConnection` is registered on the swarm
    swarmCloses: nat,           // calls of `swarm.close()`
    closeHooked: bool,          // the winner's once('close') handler is registered and has not run
    inFlight: Option<SocketId>, // the socket whose `authConnection` the loop awaits
    arrivals: seq<SocketId>,    // every socket `onConnection` received, in order
    attempted: seq<SocketId>,   // every socket the loop shifted off the queue, in order
    failed: seq<SocketId>,      // attempts whose authentication was rejected
    lateWinners: seq<SocketId>, // attempts that authenticated too late and were destroyed
    discarded: seq<SocketId>,   // queued sockets destroyed by `cleanup`
    calls: seq<Call>)

  /** Neither a winner nor a timeout yet. */
  predicate Live(s: State) {
    !s.connected && !s.timedOut
  }

  function InFlightSeq(s: State): seq<SocketId> {
    if s.inFlight.Some? then [s.inFlight.value] else []
  }

  /** The socket the promise was resolved with, if any. */
  function Winners(s: State): seq<SocketId> {
    if s.calls != [] && s.calls[0].Resolve? then [s.calls[0].socket] else []
  }

  /**
   * What holds at every point of the race, including inside the loop head
   * (where `connecting` is already set but nothing is in flight).
   */
  predicate Core(s: State) {
    && s.arrivals == s.attempted + s.discarded + s.queue
    && s.attempted == s.failed + s.lateWinners + Winners(s) + InFlightSeq(s)
    && |s.calls| <= 1
    && (s.connected <==> s.calls != [] && s.calls[0].Resolve?)
    && (s.timedOut <==> s.calls == [Reject])
    && (s.listening <==> Live(s))
    && (Live(s) ==> s.timerArmed && s.discarded == [] && s.swarmCloses == 0 && !s.closeHooked && s.lateWinners == [])
    && (!Live(s) ==> s.queue == [] && !s.timerArmed)
    && (s.connected ==> s.inFlight.None? && s.lateWinners == [] && s.swarmCloses == (if s.closeHooked then 0 else 1))
    && (s.timedOut ==> s.swarmCloses == 1 && !s.closeHooked && |s.lateWinners| + |InFlightSeq(s)| <= 1)
  }

  /**
   * The invariant between events: at most one loop, which is running
   * exactly when a handshake is awaited, and an idle race has nothing
   * queued.
   */
  predicate Valid(s: State) {
    && Core(s)
    && (s.connecting <==> s.inFlight.Some?)
    && (Live(s) && !s.connecting ==> s.queue == [])
  }

  /** `opts.timeout || NETWORK_TIMEOUT`: an absent or zero timeout falls back to the default. */
  function ConnectTimeout(requested: Option<int>): (ms: int)
    ensures requested.None? || requested.value == 0 ==> ms == NETWORK_TIMEOUT
    ensures requested.Some? && requested.value != 0 ==> ms == requested.value
    ensures ms != 0
  {
    if requested.None? || requested.value == 0 then NETWORK_TIMEOUT else requested.value
  }

  /**
   * The synchronous part of `connect`: register `onConnection`, arm the
   * timer.
   */
  function Start(requested: Option<int>): (s: State)
    ensures Valid(s) && Live(s) && s.listening && s.timerArmed && s.timeoutMs == ConnectTimeout(requested)
    ensures !s.connecting && s.queue == [] && s.arrivals == [] && s.calls == [] && s.swarmCloses == 0
  {
    State(ConnectTimeout(requested), [], false, false, false, true, true, 0, false, None, [], [], [], [], [], [])
  }

  /**
   * `cleanup()`: clear the timer, destroy every queued socket and empty the
   * queue, unregister `onConnection`, and close the swarm unless connected.
   */
  function Cleanup(s: State): (r: State)
    ensures !r.timerArmed && !r.listening && r.queue == [] && r.discarded == s.discarded + s.queue
    ensures r.swarmCloses == s.swarmCloses + (if s.connected then 0 else 1)
    ensures r.(timerArmed := s.timerArmed, listening := s.listening, queue := s.queue,
               discarded := s.discarded, swarmCloses := s.swarmCloses) == s
  {
    s.(timerArmed := false, discarded := s.discarded + s.queue, queue := [], listening := false,
       swarmCloses := if s.connected then s.swarmCloses else s.swarmCloses + 1)
  }

  /**
   * The loop head: while neither connected nor timed out, shift the next
   * socket off the queue and start authenticating it; otherwise leave the
   * loop and clear `connecting`.
   */
  function Next(s: State): (r: State)
    requires Core(s) && s.connecting && s.inFlight.None?
    ensures Valid(r)
    ensures Live(s) && s.queue != [] ==>
              && r.inFlight == Some(s.queue[0]) && r.queue == s.queue[1..]
              && r.attempted == s.attempted + [s.queue[0]] && r.connecting
    ensures !Live(s) || s.queue == [] ==> r == s.(connecting := false)
    ensures r.arrivals == s.arrivals && r.calls == s.calls && r.discarded == s.discarded
  {
    if Live(s) && s.queue != [] then
      s.(queue := s.queue[1..], inFlight := Some(s.queue[0]), attempted := s.attempted + [s.queue[0]])
    else
      s.(connecting := false)
  }

  /** `attemptConnect()` up to its first await: set `connecting`, enter the loop. */
  function AttemptConnect(s: State): (r: State)
    requires Core(s) && !s.connecting && s.inFlight.None?
    ensures Valid(r)
    ensures r == Next(s.(connecting := true))
  {
    Next(s.(connecting := true))
  }

  /**
   * `onConnection(socket)`: queue the socket and start the loop unless it
   * is already running.  Once `cleanup` has unregistered the handler, the
   * swarm's further connections do not reach it.
   */
  function Arrive(s: State, id: SocketId): (r: State)
    requires Valid(s)
    ensures Valid(r)
    ensures !s.listening ==> r == s
    ensures s.listening && s.connecting ==> r == s.(queue := s.queue + [id], arrivals := s.arrivals + [id])
    ensures s.listening && !s.connecting ==>
              && r.inFlight == Some(id) && r.connecting && r.queue == []
              && r.arrivals == s.arrivals + [id] && r.attempted == s.attempted + [id]
    ensures r.calls == s.calls
  {
    if !s.listening then s
    else
      var q := s.(queue := s.queue + [id], arrivals := s.arrivals + [id]);
      if s.connecting then q else AttemptConnect(q)
  }

  /**
   * The body of the loop after its await, once the `authConnection` of the
   * socket in flight has settled (`ok` when it resolved).  A rejection is
   * swallowed; the first success while neither connected nor timed out
   * hooks the swarm's closing to the winner's `close`, sets `connected`,
   * runs `cleanup` and resolves; a later success is destroyed.
   */
  function AfterAuth(s: State, ok: bool): (r: State)
    requires Valid(s) && s.inFlight.Some?
    ensures Core(r) && r.connecting && r.inFlight.None?
    ensures !ok ==> r.failed == s.failed + [s.inFlight.value] && r.calls == s.calls
    ensures ok && Live(s) ==>
              && r.connected && r.calls == [Resolve(s.inFlight.value)]
              && r.attempted == r.failed + [s.inFlight.value]
              && r.queue == [] && r.discarded == s.queue && !r.listening && !r.timerArmed
              && r.closeHooked && r.swarmCloses == 0
    ensures ok && !Live(s) ==> r.lateWinners == s.lateWinners + [s.inFlight.value] && r.calls == s.calls
    ensures r.arrivals == s.arrivals
  {
    var id := s.inFlight.value;
    var t := s.(inFlight := None);
    if !ok then t.(failed := t.failed + [id])
    else if !t.timedOut && !t.connected then
      Cleanup(t.(closeHooked := true, connected := true)).(calls := t.calls + [Resolve(id)])
    else t.(lateWinners := t.lateWinners + [id])
  }

  /** The awaited `authConnection` settles; the loop body finishes and the loop head runs again. */
  function Settle(s: State, ok: bool): (r: State)
    requires Valid(s) && s.inFlight.Some?
    ensures Valid(r)
    ensures !ok ==> s.inFlight.value in r.failed && r.calls == s.calls
    ensures ok && Live(s) ==>
              && r.connected && r.calls == [Resolve(s.inFlight.value)]
              && r.attempted == r.failed + [s.inFlight.value]
              && r.queue == [] && r.discarded == s.queue && !r.listening && !r.timerArmed
              && r.closeHooked && r.swarmCloses == 0 && !r.connecting
    ensures ok && !Live(s) ==>
              && r.lateWinners == s.lateWinners + [s.inFlight.value] && r.calls == s.calls
              && !r.connecting && r.attempted == s.attempted
    ensures r.arrivals == s.arrivals
  {
    Next(AfterAuth(s, ok))
  }

  /** The timer fires: `cleanup()`, set `timeout`, reject. */
  function Timeout(s: State): (r: State)
    requires Valid(s)
    ensures Valid(r)
    ensures !s.timerArmed ==> r == s
    ensures s.timerArmed ==>
              && r.timedOut && r.calls == s.calls + [Reject] && r.queue == [] && r.discarded == s.queue
              && r.swarmCloses == 1 && !r.listening
              && r.inFlight == s.inFlight && r.attempted == s.attempted
  {
    if !s.timerArmed then s else Cleanup(s).(timedOut := true, calls := s.calls + [Reject])
  }

  /** The winner's once('close') handler: close the swarm. */
  function WinnerClosed(s: State): (r: State)
    requires Valid(s)
    ensures Valid(r)
    ensures s.closeHooked ==> r == s.(closeHooked := false, swarmCloses := s.swarmCloses + 1)
    ensures !s.closeHooked ==> r == s
  {
    if s.closeHooked then s.(closeHooked := false, swarmCloses := s.swarmCloses + 1) else s
  }

  // ---------------------------------------------------------------- runs

  /** What can happen to a pending `connect`. */
  datatype Event =
    | Arrival(socket: SocketId)   // the swarm emits `connection`
    | AuthSettled(ok: bool)       // the awaited `authConnection` settles
    | TimerFired
    | WinnerClose                 // the winning EncryptedSocket emits `close`

  function Step(s: State, e: Event): (r: State)
    requires Valid(s)
    ensures Valid(r)
  {
    match e
    case Arrival(id) => Arrive(s, id)
    case AuthSettled(ok) => if s.inFlight.Some? then Settle(s, ok) else s
    case TimerFired => Timeout(s)
    case WinnerClose => WinnerClosed(s)
  }

  function Run(s: State, events: seq<Event>): (r: State)
    requires Valid(s)
    ensures Valid(r)
    decreases |events|
  {
    if events == [] then s else Run(Step(s, events[0]), events[1..])
  }
}
