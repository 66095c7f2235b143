/** Properties of the candidate race in `connect` (module Connect). */
module ConnectProperties {
  import opened Wrappers
  import opened Connect

  /** Candidates are attempted in arrival order: the next one taken is the oldest still waiting. */
  lemma AttemptsInArrivalOrder(s: State)
    requires Valid(s)
    ensures s.attempted == s.arrivals[..|s.attempted|]
    ensures s.queue != [] ==> s.queue[0] == s.arrivals[|s.attempted|]
  {
    assert s.arrivals[..|s.attempted|] == s.attempted;
  }

  /** A winner is the first attempt that succeeded: every attempt before it failed. */
  lemma FirstSuccessWins(s: State)
    requires Valid(s) && s.connected
    ensures exists w :: s.calls == [Resolve(w)] && s.attempted == s.failed + [w]
    ensures !s.connecting && s.inFlight.None? && s.queue == []
  {
    assert s.calls == [Resolve(s.calls[0].socket)];
  }

  /**
   * Once the race is over, every socket that arrived was either attempted
   * (and then failed, won, or was destroyed as a late winner) or destroyed
   * by `cleanup`.
   */
  lemma EveryCandidateAccountedFor(s: State)
    requires Valid(s) && !Live(s) && s.inFlight.None?
    ensures s.arrivals == s.failed + s.lateWinners + Winners(s) + s.discarded
  {
  }

  /** After a win the timer has been cleared, so it can no longer reject. */
  lemma NoTimeoutAfterWin(s: State)
    requires Valid(s) && s.connected
    ensures Timeout(s) == s
  {
  }

  /**
   * The promise is settled at most once: the calls of `resolve`/`reject`
   * only ever grow, and never past one.
   */
  lemma {:induction false} SettlesOnce(s: State, events: seq<Event>)
    requires Valid(s)
    ensures var r := Run(s, events);
            |s.calls| <= |r.calls| <= 1 && r.calls[..|s.calls|] == s.calls
    decreases |events|
  {
    if events != [] {
      var t := Step(s, events[0]);
      assert |s.calls| <= |t.calls| && t.calls[..|s.calls|] == s.calls;
      SettlesOnce(t, events[1..]);
    }
  }

  /**
   * Once connected or timed out, the loop takes nothing more off the queue:
   * no socket arrives, none is attempted or discarded, the promise stays as
   * it was and the timer and listener stay off.
   */
  lemma {:induction false} NothingAfterTheEnd(s: State, events: seq<Event>)
    requires Valid(s) && !Live(s)
    ensures var r := Run(s, events);
            && !Live(r) && r.queue == [] && !r.listening && !r.timerArmed
            && r.arrivals == s.arrivals && r.attempted == s.attempted
            && r.discarded == s.discarded && r.calls == s.calls
    decreases |events|
  {
    if events != [] {
      var t := Step(s, events[0]);
      assert !Live(t) && t.arrivals == s.arrivals && t.attempted == s.attempted
          && t.discarded == s.discarded && t.calls == s.calls;
      NothingAfterTheEnd(t, events[1..]);
    }
  }

  /**
   * After a win the swarm is left open for the winner, and is closed once,
   * when the winner first emits `close`.
   */
  lemma {:induction false} SwarmClosesWithWinner(s: State, events: seq<Event>)
    requires Valid(s) && s.connected
    ensures Run(s, events).swarmCloses == if s.closeHooked && WinnerClose in events then 1 else s.swarmCloses
    decreases |events|
  {
    if events != [] {
      var t := Step(s, events[0]);
      assert t.connected;
      SwarmClosesWithWinner(t, events[1..]);
      if s.closeHooked && events[0] != WinnerClose {
        assert t.closeHooked;
        assert WinnerClose in events <==> WinnerClose in events[1..] by {
          assert events == [events[0]] + events[1..];
        }
      }
    }
  }

  /** Running two sequences of events one after the other is running their concatenation. */
  lemma {:induction false} RunConcat(s: State, first: seq<Event>, second: seq<Event>)
    requires Valid(s)
    ensures Run(s, first + second) == Run(Run(s, first), second)
    decreases |first|
  {
    if first != [] {
      assert (first + second)[1..] == first[1..] + second;
      RunConcat(Step(s, first[0]), first[1..], second);
    } else {
      assert first + second == second;
    }
  }

  /** Running two events is stepping twice. */
  lemma RunPair(s: State, first: Event, second: Event)
    requires Valid(s)
    ensures Run(s, [first, second]) == Step(Step(s, first), second)
  {
    var t := Step(s, first);
    assert [first, second][1..] == [second];
    assert Run(s, [first, second]) == Run(t, [second]);
    assert Run(t, [second]) == Run(Step(t, second), []);
  }

  /** The first candidate arrives, then two more while it is being authenticated. */
  lemma ThreeArrivals(requested: Option<int>, x: SocketId, y: SocketId, z: SocketId)
    ensures var r := Run(Start(requested), [Arrival(x), Arrival(y), Arrival(z)]);
            && Valid(r) && Live(r) && r.inFlight == Some(x) && r.queue == [y, z] && r.attempted == [x]
            && r.calls == [] && r.failed == [] && r.discarded == [] && r.timeoutMs == ConnectTimeout(requested)
  {
    var s0 := Start(requested);
    var s2 := Run(s0, [Arrival(x), Arrival(y)]);
    RunPair(s0, Arrival(x), Arrival(y));
    assert s2.inFlight == Some(x) && s2.queue == [y] && s2.listening && s2.connecting;
    RunConcat(s0, [Arrival(x), Arrival(y)], [Arrival(z)]);
    assert [Arrival(x), Arrival(y)] + [Arrival(z)] == [Arrival(x), Arrival(y), Arrival(z)];
    assert Run(s2, [Arrival(z)]) == Run(Arrive(s2, z), []);
  }

  /** With the first candidate in flight and two queued: it fails, the next one succeeds. */
  lemma FailThenWin(s: State, x: SocketId, y: SocketId, z: SocketId)
    requires Valid(s) && Live(s) && s.inFlight == Some(x) && s.queue == [y, z]
    requires s.attempted == [x] && s.failed == [] && s.calls == []
    ensures var r := Run(s, [AuthSettled(false), AuthSettled(true)]);
            && r.calls == [Resolve(y)] && r.failed == [x] && r.attempted == [x, y] && r.discarded == [z]
            && r.timeoutMs == s.timeoutMs && r.swarmCloses == 0 && r.closeHooked && r.connected
  {
    var a := AfterAuth(s, false);
    assert a.queue == [y, z] && a.failed == [x] && a.attempted == [x] && Live(a);
    var s4 := Settle(s, false);
    assert s4 == Next(a);
    assert s4.inFlight == Some(y) && s4.queue == [z] && s4.failed == [x] && s4.attempted == [x, y] && Live(s4);
    RunPair(s, AuthSettled(false), AuthSettled(true));
  }

  /**
   * Three candidates arrive, the later two while the first is being
   * authenticated; the first fails, the second succeeds.  The promise
   * resolves with the second, the third is destroyed unattempted, and the
   * swarm stays open until the winner closes, however often it does.
   */
  lemma SecondCandidateWins(requested: Option<int>, x: SocketId, y: SocketId, z: SocketId)
    ensures var r := Run(Start(requested), [Arrival(x), Arrival(y), Arrival(z), AuthSettled(false), AuthSettled(true)]);
            && r.calls == [Resolve(y)] && r.failed == [x] && r.attempted == [x, y] && r.discarded == [z]
            && r.timeoutMs == ConnectTimeout(requested) && r.swarmCloses == 0 && r.closeHooked
            && Run(r, [WinnerClose, WinnerClose]).swarmCloses == 1
  {
    var s0 := Start(requested);
    ThreeArrivals(requested, x, y, z);
    var s3 := Run(s0, [Arrival(x), Arrival(y), Arrival(z)]);
    FailThenWin(s3, x, y, z);
    RunConcat(s0, [Arrival(x), Arrival(y), Arrival(z)], [AuthSettled(false), AuthSettled(true)]);
    assert [Arrival(x), Arrival(y), Arrival(z)] + [AuthSettled(false), AuthSettled(true)]
        == [Arrival(x), Arrival(y), Arrival(z), AuthSettled(false), AuthSettled(true)];
    SwarmClosesWithWinner(Run(s3, [AuthSettled(false), AuthSettled(true)]), [WinnerClose, WinnerClose]);
  }

  /** With the first candidate in flight and one queued, the timer fires and then the attempt succeeds. */
  lemma TimeoutThenLateWin(s: State, x: SocketId, y: SocketId)
    requires Valid(s) && Live(s) && s.inFlight == Some(x) && s.queue == [y] && s.attempted == [x]
    requires s.calls == [] && s.discarded == []
    ensures var r := Run(s, [TimerFired, AuthSettled(true)]);
            && r.calls == [Reject] && r.lateWinners == [x] && r.discarded == [y] && r.attempted == [x]
            && r.timeoutMs == s.timeoutMs && r.swarmCloses == 1 && !r.connecting
  {
    var s3 := Timeout(s);
    assert s3.calls == [Reject] && s3.discarded == [y] && s3.inFlight == Some(x) && s3.lateWinners == [];
    RunPair(s, TimerFired, AuthSettled(true));
  }

  /**
   * The timer fires while the first of two candidates is being
   * authenticated; it then succeeds.  The promise is rejected, the queued
   * candidate is destroyed, and the late winner is destroyed instead of
   * being resolved.
   */
  lemma LateSuccessIsDestroyed(requested: Option<int>, x: SocketId, y: SocketId)
    ensures var r := Run(Start(requested), [Arrival(x), Arrival(y), TimerFired, AuthSettled(true)]);
            && r.calls == [Reject] && r.lateWinners == [x] && r.discarded == [y] && r.attempted == [x]
            && r.timeoutMs == ConnectTimeout(requested) && r.swarmCloses == 1 && !r.connecting
  {
    var s0 := Start(requested);
    var s2 := Run(s0, [Arrival(x), Arrival(y)]);
    RunPair(s0, Arrival(x), Arrival(y));
    assert s2.inFlight == Some(x) && s2.queue == [y] && s2.attempted == [x] && Live(s2);
    TimeoutThenLateWin(s2, x, y);
    RunConcat(s0, [Arrival(x), Arrival(y)], [TimerFired, AuthSettled(true)]);
    assert [Arrival(x), Arrival(y)] + [TimerFired, AuthSettled(true)]
        == [Arrival(x), Arrival(y), TimerFired, AuthSettled(true)];
  }
}
