/** Liveness of control sockets and the heartbeat sweep (`TunnelServer` in tunnel/src/server.ts, Express path). */
module Heartbeat {
  import opened Bytes
  import opened Messages

  datatype Liveness = Liveness(isAlive: bool, lastActivityMs: int)

  /** A previous ping went unanswered, or nothing was heard for too long. */
  predicate Dead(l: Liveness, now: int, timeout: int) {
    !l.isAlive || now - l.lastActivityMs > timeout
  }

  /** The entry of a tracked socket after the first loop of a sweep. */
  function Swept(live: map<Sock, Liveness>, ws: Sock, now: int, timeout: int): Liveness {
    if ws !in live then Liveness(true, now)
    else if Dead(live[ws], now, timeout) then live[ws]
    else live[ws].(isAlive := false)
  }

  function FirstLoop(live: map<Sock, Liveness>, tracked: set<Sock>, now: int, timeout: int): map<Sock, Liveness> {
    map ws | ws in live.Keys + tracked :: if ws in tracked then Swept(live, ws, now, timeout) else live[ws]
  }

  function TerminatedBy(live: map<Sock, Liveness>, tracked: set<Sock>, now: int, timeout: int): set<Sock> {
    set ws | ws in tracked && ws in live && Dead(live[ws], now, timeout)
  }

  /** Keys of sockets that are CLOSED or no longer tracked. */
  function StaleKeys(keys: set<Sock>, tracked: set<Sock>, closed: set<Sock>): set<Sock> {
    set ws | ws in keys && (ws in closed || ws !in tracked)
  }

  /** The fields of the server that the heartbeat touches; of the keys only the owners matter here. */
  datatype State = State(live: map<Sock, Liveness>, keys: set<Sock>)

  function AfterSweep(s: State, tracked: set<Sock>, closed: set<Sock>, now: int, timeout: int): State {
    var stale := StaleKeys(s.keys, tracked, closed);
    State(FirstLoop(s.live, tracked, now, timeout) - stale, s.keys - stale)
  }

  class HeartbeatState {
    var livenessBySocket: map<Sock, Liveness>
    var symmetricKeyBySocket: map<Sock, seq<byte>>
    const heartbeatTimeout: int

    ghost function View(): State
      reads this
    {
      State(livenessBySocket, symmetricKeyBySocket.Keys)
    }

    constructor (timeout: int)
      ensures View() == State(map[], {}) && heartbeatTimeout == timeout
    {
      livenessBySocket, symmetricKeyBySocket, heartbeatTimeout := map[], map[], timeout;
    }

    /** `#heartbeatSweep`: `clients` is the set of the WebSocket server, `closed` the sockets in state CLOSED. */
    method HeartbeatSweep(clients: set<Sock>, closed: set<Sock>, now: int) returns (terminated: set<Sock>)
      modifies this
      ensures View() == AfterSweep(old(View()), clients, closed, now, heartbeatTimeout)
      ensures terminated == TerminatedBy(old(livenessBySocket), clients, now, heartbeatTimeout)
      ensures forall ws :: ws in symmetricKeyBySocket <==>
        ws in old(symmetricKeyBySocket) && ws in clients && ws !in closed
      ensures forall ws :: ws in terminated <==>
        && ws in clients && ws in old(livenessBySocket)
        && (!old(livenessBySocket)[ws].isAlive
            || old(livenessBySocket)[ws].lastActivityMs + heartbeatTimeout < now)
      ensures forall ws :: ws in livenessBySocket <==>
        && (ws in old(livenessBySocket) || ws in clients)
        && !(ws in old(symmetricKeyBySocket) && (ws in closed || ws !in clients))
      ensures forall ws :: ws in livenessBySocket ==>
        livenessBySocket[ws] == if ws !in old(livenessBySocket) then Liveness(true, now)
                                else if ws in clients && ws !in terminated
                                then Liveness(false, old(livenessBySocket)[ws].lastActivityMs)
                                else old(livenessBySocket)[ws]
    {
      terminated := PingOrTerminate(clients, now);
      DropStaleKeys(clients, closed);
    }

    /** The first loop, in any order. */
    method PingOrTerminate(clients: set<Sock>, now: int) returns (terminated: set<Sock>)
      modifies this`livenessBySocket
      ensures livenessBySocket == FirstLoop(old(livenessBySocket), clients, now, heartbeatTimeout)
      ensures terminated == TerminatedBy(old(livenessBySocket), clients, now, heartbeatTimeout)
    {
      terminated := {};
      ghost var was := livenessBySocket;
      var todo := clients;
      while todo != {}
        invariant todo <= clients
        invariant livenessBySocket == FirstLoop(was, clients - todo, now, heartbeatTimeout)
        invariant terminated == TerminatedBy(was, clients - todo, now, heartbeatTimeout)
        decreases todo
      {
        var ws :| ws in todo;
        assert clients - (todo - {ws}) == clients - todo + {ws};
        FirstLoopStep(was, clients - todo, ws, now, heartbeatTimeout);
        todo := todo - {ws};
        if ws !in livenessBySocket {
          livenessBySocket := livenessBySocket[ws := Liveness(true, now)];
        } else {
          var l := livenessBySocket[ws];
          if l.isAlive == false || now - l.lastActivityMs > heartbeatTimeout {
            terminated := terminated + {ws};
          } else {
            livenessBySocket := livenessBySocket[ws := l.(isAlive := false)];
          }
        }
      }
      assert clients - todo == clients;
    }

    /** The second loop, in any order. */
    method DropStaleKeys(clients: set<Sock>, closed: set<Sock>)
      modifies this
      ensures symmetricKeyBySocket
           == old(symmetricKeyBySocket) - StaleKeys(old(symmetricKeyBySocket).Keys, clients, closed)
      ensures livenessBySocket == old(livenessBySocket) - StaleKeys(old(symmetricKeyBySocket).Keys, clients, closed)
    {
      var todo := symmetricKeyBySocket.Keys;
      ghost var all := todo;
      while todo != {}
        invariant todo <= all
        invariant symmetricKeyBySocket == old(symmetricKeyBySocket) - StaleKeys(all - todo, clients, closed)
        invariant livenessBySocket == old(livenessBySocket) - StaleKeys(all - todo, clients, closed)
        decreases todo
      {
        var ws :| ws in todo;
        assert all - (todo - {ws}) == all - todo + {ws};
        if ws in closed || ws !in clients {
          assert StaleKeys(all - todo + {ws}, clients, closed) == StaleKeys(all - todo, clients, closed) + {ws};
          symmetricKeyBySocket := symmetricKeyBySocket - {ws};
          livenessBySocket := livenessBySocket - {ws};
        } else {
          assert StaleKeys(all - todo + {ws}, clients, closed) == StaleKeys(all - todo, clients, closed);
        }
        todo := todo - {ws};
      }
      assert all - todo == all;
    }
  }

  lemma {:induction false} FirstLoopStep(was: map<Sock, Liveness>, done: set<Sock>, ws: Sock, now: int, timeout: int)
    requires ws !in done
    ensures FirstLoop(was, done + {ws}, now, timeout)
         == FirstLoop(was, done, now, timeout)[ws := Swept(was, ws, now, timeout)]
    ensures ws in FirstLoop(was, done, now, timeout) <==> ws in was
    ensures ws in was ==> FirstLoop(was, done, now, timeout)[ws] == was[ws]
    ensures TerminatedBy(was, done + {ws}, now, timeout)
         == TerminatedBy(was, done, now, timeout) + (if ws in was && Dead(was[ws], now, timeout) then {ws} else {})
  {
  }

  // ---- whole runs ----

  datatype Event =
    | Connected(ws: Sock, at: int)
    | Pong(ws: Sock, at: int)
    | Activity(ws: Sock, at: int)
    | KeyInstalled(ws: Sock, at: int)
    | ControlClosed(ws: Sock, at: int)
    | Sweep(tracked: set<Sock>, closed: set<Sock>, at: int)

  function Step(s: State, e: Event, timeout: int): State {
    match e
    case Connected(ws, t) => s.(live := s.live[ws := Liveness(true, t)])
    case Pong(ws, t) => if ws in s.live then s.(live := s.live[ws := Liveness(true, t)]) else s
    case Activity(ws, t) => if ws in s.live then s.(live := s.live[ws := s.live[ws].(lastActivityMs := t)]) else s
    case KeyInstalled(ws, _) => s.(keys := s.keys + {ws})
    case ControlClosed(ws, _) => State(s.live - {ws}, s.keys - {ws})
    case Sweep(tracked, closed, t) => AfterSweep(s, tracked, closed, t, timeout)
  }

  function After(s: State, run: seq<Event>, timeout: int): State {
    if run == [] then s else Step(After(s, run[..|run| - 1], timeout), run[|run| - 1], timeout)
  }

  predicate Monotone(run: seq<Event>) {
    forall i, j :: 0 <= i < j < |run| ==> run[i].at <= run[j].at
  }

  /** The socket stays connected: every sweep finds it tracked and not CLOSED, and it neither closes nor reconnects. */
  predicate StaysOpen(run: seq<Event>, ws: Sock) {
    forall i :: 0 <= i < |run| ==>
      && (run[i].Sweep? ==> ws in run[i].tracked && ws !in run[i].closed)
      && !(run[i].ControlClosed? && run[i].ws == ws)
      && !(run[i].Connected? && run[i].ws == ws)
  }

  predicate PongAt(run: seq<Event>, ws: Sock, k: nat)
    requires k < |run|
  {
    run[k].Pong? && run[k].ws == ws
  }

  /** The sweep before index `n`, or -1 for the connection itself. */
  function LastSweep(run: seq<Event>, n: nat): (i: int)
    requires n <= |run|
    ensures -1 <= i < n && (i >= 0 ==> run[i].Sweep?)
    ensures forall k :: i < k < n ==> !run[k].Sweep?
  {
    if n == 0 then -1 else if run[n - 1].Sweep? then n - 1 else LastSweep(run, n - 1)
  }

  function TimeOf(run: seq<Event>, i: int, connectedAt: int): int
    requires -1 <= i < |run|
  {
    if i < 0 then connectedAt else run[i].at
  }

  /** No sweep before index `n` terminated the socket. */
  ghost predicate Spared(s: State, run: seq<Event>, ws: Sock, n: nat, timeout: int)
    requires n <= |run|
  {
    forall j :: 0 <= j < n && run[j].Sweep? ==>
      ws !in TerminatedBy(After(s, run[..j], timeout).live, run[j].tracked, run[j].at, timeout)
  }

  /**
   Between any two consecutive sweeps the socket pongs, and they are at most `timeout` apart (so is the first from the
   connection).
   */
  ghost predicate Answers(run: seq<Event>, ws: Sock, connectedAt: int, timeout: int) {
    forall j :: 0 <= j < |run| && run[j].Sweep? ==>
      && run[j].at - TimeOf(run, LastSweep(run, j), connectedAt) <= timeout
      && (LastSweep(run, j) >= 0 ==> exists k :: LastSweep(run, j) < k < j && PongAt(run, ws, k))
  }

  lemma {:induction false} PrefixStep(s: State, run: seq<Event>, n: nat, timeout: int)
    requires n < |run|
    ensures After(s, run[..n + 1], timeout) == Step(After(s, run[..n], timeout), run[n], timeout)
  {
    assert run[..n + 1][..n] == run[..n];
  }

  /** What is on record about a socket that has answered so far. */
  ghost predicate OnRecord(s: State, run: seq<Event>, ws: Sock, connectedAt: int, n: nat, timeout: int)
    requires n <= |run|
  {
    var live, i := After(s, run[..n], timeout).live, LastSweep(run, n);
    && ws in live
    && ((i < 0 || exists k :: i < k < n && PongAt(run, ws, k)) ==>
          live[ws].isAlive && live[ws].lastActivityMs >= TimeOf(run, i, connectedAt))
  }

  /** A sweep finds the answer to the one before it, or the socket is new. */
  lemma {:induction false} OnRecordSweep(s: State, run: seq<Event>, ws: Sock, connectedAt: int, n: nat, timeout: int)
    requires n < |run| && run[n].Sweep? && StaysOpen(run, ws) && Answers(run, ws, connectedAt, timeout)
    requires OnRecord(s, run, ws, connectedAt, n, timeout)
    ensures OnRecord(s, run, ws, connectedAt, n + 1, timeout)
    ensures ws !in TerminatedBy(After(s, run[..n], timeout).live, run[n].tracked, run[n].at, timeout)
  {
    PrefixStep(s, run, n, timeout);
    hide After;
    var i, live := LastSweep(run, n), After(s, run[..n], timeout).live;
    assert live[ws].isAlive && live[ws].lastActivityMs >= TimeOf(run, i, connectedAt);
    assert LastSweep(run, n + 1) == n;
  }

  /** Between two sweeps a pong is put on record, and nothing else about the socket. */
  lemma {:induction false} OnRecordBetween(s: State, run: seq<Event>, ws: Sock, connectedAt: int, n: nat, timeout: int)
    requires n < |run| && !run[n].Sweep? && Monotone(run) && StaysOpen(run, ws)
    requires OnRecord(s, run, ws, connectedAt, n, timeout) && forall k :: 0 <= k < |run| ==> connectedAt <= run[k].at
    ensures OnRecord(s, run, ws, connectedAt, n + 1, timeout)
  {
    PrefixStep(s, run, n, timeout);
    hide After;
    var i := LastSweep(run, n);
    assert LastSweep(run, n + 1) == i;
    assert TimeOf(run, i, connectedAt) <= run[n].at;
    hide Monotone;
    if exists k :: i < k < n + 1 && PongAt(run, ws, k) {
      var k :| i < k < n + 1 && PongAt(run, ws, k);
      assert k < n || PongAt(run, ws, n);
    }
  }

  lemma {:induction false} OnRecordStep(s: State, run: seq<Event>, ws: Sock, connectedAt: int, n: nat, timeout: int)
    requires n < |run| && Monotone(run) && StaysOpen(run, ws) && Answers(run, ws, connectedAt, timeout)
    requires OnRecord(s, run, ws, connectedAt, n, timeout) && forall k :: 0 <= k < |run| ==> connectedAt <= run[k].at
    ensures OnRecord(s, run, ws, connectedAt, n + 1, timeout)
    ensures run[n].Sweep? ==> ws !in TerminatedBy(After(s, run[..n], timeout).live, run[n].tracked, run[n].at, timeout)
  {
    hide Monotone, StaysOpen, Answers, OnRecord, After, TerminatedBy;
    if run[n].Sweep? {
      OnRecordSweep(s, run, ws, connectedAt, n, timeout);
    } else {
      OnRecordBetween(s, run, ws, connectedAt, n, timeout);
    }
  }

  lemma {:induction false} OnRecordRun(s: State, run: seq<Event>, ws: Sock, connectedAt: int, n: nat, timeout: int)
    requires ws in s.live && s.live[ws] == Liveness(true, connectedAt) && n <= |run|
    requires Monotone(run) && StaysOpen(run, ws) && Answers(run, ws, connectedAt, timeout)
    requires forall k :: 0 <= k < |run| ==> connectedAt <= run[k].at
    ensures OnRecord(s, run, ws, connectedAt, n, timeout) && Spared(s, run, ws, n, timeout)
  {
    if n > 0 {
      OnRecordRun(s, run, ws, connectedAt, n - 1, timeout);
      OnRecordStep(s, run, ws, connectedAt, n - 1, timeout);
    }
  }

  /** A socket that pongs between every two consecutive sweeps, no more than the timeout apart, is never terminated. */
  lemma {:induction false} AnsweringIsNeverTerminated(s: State, run: seq<Event>, ws: Sock, connectedAt: int,
                                                      timeout: int)
    requires ws in s.live && s.live[ws] == Liveness(true, connectedAt)
    requires Monotone(run) && StaysOpen(run, ws) && Answers(run, ws, connectedAt, timeout)
    requires forall k :: 0 <= k < |run| ==> connectedAt <= run[k].at
    ensures Spared(s, run, ws, |run|, timeout)
  {
    OnRecordRun(s, run, ws, connectedAt, |run|, timeout);
  }

  /** Once pinged, a socket stays unanswered until it pongs. */
  lemma {:induction false} UnansweredStays(s: State, run: seq<Event>, ws: Sock, i: nat, n: nat, timeout: int)
    requires i < n <= |run| && StaysOpen(run, ws) && ws in After(s, run[..i], timeout).live
    requires run[i].Sweep? && ws !in TerminatedBy(After(s, run[..i], timeout).live, run[i].tracked, run[i].at, timeout)
    requires forall k :: i < k < n ==> !run[k].Sweep? && !PongAt(run, ws, k)
    ensures ws in After(s, run[..n], timeout).live && !After(s, run[..n], timeout).live[ws].isAlive
  {
    PrefixStep(s, run, n - 1, timeout);
    if i < n - 1 {
      UnansweredStays(s, run, ws, i, n - 1, timeout);
      assert !PongAt(run, ws, n - 1);
    }
  }

  /** A socket that does not pong between two consecutive sweeps is terminated by the second, if not by the first. */
  lemma {:induction false} SilentIsTerminated(s: State, run: seq<Event>, ws: Sock, i: nat, j: nat, timeout: int)
    requires i < j < |run| && run[i].Sweep? && run[j].Sweep? && StaysOpen(run, ws)
    requires ws in After(s, run[..i], timeout).live
    requires forall k :: i < k < j ==> !run[k].Sweep? && !PongAt(run, ws, k)
    ensures || ws in TerminatedBy(After(s, run[..i], timeout).live, run[i].tracked, run[i].at, timeout)
            || ws in TerminatedBy(After(s, run[..j], timeout).live, run[j].tracked, run[j].at, timeout)
  {
    if ws !in TerminatedBy(After(s, run[..i], timeout).live, run[i].tracked, run[i].at, timeout) {
      UnansweredStays(s, run, ws, i, j, timeout);
    }
  }

  // ---- which sweep terminates a socket ----

  /** When the socket was last heard before index `n`: a pong, a message, or its connection. */
  function LastHeard(run: seq<Event>, ws: Sock, connectedAt: int, n: nat): int
    requires n <= |run|
  {
    if n == 0 then connectedAt
    else if (run[n - 1].Pong? || run[n - 1].Activity?) && run[n - 1].ws == ws then run[n - 1].at
    else LastHeard(run, ws, connectedAt, n - 1)
  }

  /** A sweep before index `n` pinged the socket, and it has not ponged since. */
  predicate Unanswered(run: seq<Event>, ws: Sock, n: nat)
    requires n <= |run|
  {
    LastSweep(run, n) >= 0 && forall k :: LastSweep(run, n) < k < n ==> !PongAt(run, ws, k)
  }

  ghost predicate Recorded(s: State, run: seq<Event>, ws: Sock, connectedAt: int, n: nat, timeout: int)
    requires n <= |run|
  {
    var live := After(s, run[..n], timeout).live;
    && ws in live && live[ws] == Liveness(!Unanswered(run, ws, n), LastHeard(run, ws, connectedAt, n))
  }

  lemma {:induction false} RecordedStep(s: State, run: seq<Event>, ws: Sock, connectedAt: int, n: nat, timeout: int)
    requires n < |run| && StaysOpen(run, ws) && Recorded(s, run, ws, connectedAt, n, timeout)
    requires Spared(s, run, ws, n + 1, timeout)
    ensures Recorded(s, run, ws, connectedAt, n + 1, timeout)
  {
    PrefixStep(s, run, n, timeout);
    hide After;
    var i := LastSweep(run, n);
    if run[n].Sweep? {
      assert LastSweep(run, n + 1) == n;
    } else {
      assert LastSweep(run, n + 1) == i;
      if Unanswered(run, ws, n) && !PongAt(run, ws, n) {
        assert Unanswered(run, ws, n + 1);
      } else if PongAt(run, ws, n) {
        assert !Unanswered(run, ws, n + 1);
      } else if i >= 0 {
        var k :| i < k < n && PongAt(run, ws, k);
        assert !Unanswered(run, ws, n + 1);
      }
    }
  }

  lemma {:induction false} RecordedRun(s: State, run: seq<Event>, ws: Sock, connectedAt: int, n: nat, timeout: int)
    requires ws in s.live && s.live[ws] == Liveness(true, connectedAt) && n <= |run| && StaysOpen(run, ws)
    requires Spared(s, run, ws, n, timeout)
    ensures Recorded(s, run, ws, connectedAt, n, timeout)
  {
    if n > 0 {
      assert Spared(s, run, ws, n - 1, timeout);
      RecordedRun(s, run, ws, connectedAt, n - 1, timeout);
      RecordedStep(s, run, ws, connectedAt, n - 1, timeout);
    }
  }

  /**
   Over every run: a sweep is the first to terminate a socket if and only if the sweep before it pinged the
   socket and there was no pong since, or the socket was last heard longer ago than the timeout.
   */
  lemma {:induction false} TerminatedIff(s: State, run: seq<Event>, ws: Sock, connectedAt: int, j: nat, timeout: int)
    requires ws in s.live && s.live[ws] == Liveness(true, connectedAt) && StaysOpen(run, ws)
    requires j < |run| && run[j].Sweep? && Spared(s, run, ws, j, timeout)
    ensures ws in TerminatedBy(After(s, run[..j], timeout).live, run[j].tracked, run[j].at, timeout)
       <==> Unanswered(run, ws, j) || run[j].at - LastHeard(run, ws, connectedAt, j) > timeout
  {
    RecordedRun(s, run, ws, connectedAt, j, timeout);
  }
}
