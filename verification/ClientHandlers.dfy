/** The handlers of `TunnelClient` and `ClientRAMockWebSocket` as they update the fields. */
module ClientHandlers {
  import opened Bytes
  import opened Crypto
  import opened Messages
  import opened ClientSide

  class TunnelClient {
    var ws: ReadyState
    var closed: bool
    var symmetricKey: Option<seq<byte>>
    var serverX25519PublicKey: seq<byte>
    var webSockets: map<ConnId, Mock>
    var webSocketConnections: set<ConnId>
    var sentOn: seq<Item>
    var drawn: nat
    ghost var session: Option<seq<byte>>
    ghost var since: nat
    ghost var trusted: bool

    ghost function View(): Client
      reads this
    {
      Client(ws, closed, symmetricKey, serverX25519PublicKey, webSockets, webSocketConnections,
             session, since, trusted, sentOn, drawn)
    }

    constructor ()
      ensures View() == Client(Closed, false, None, [], map[], {}, None, 0, false, [], 0)
    {
      ws, closed, symmetricKey, serverX25519PublicKey := Closed, false, None, [];
      webSockets, webSocketConnections, sentOn, drawn := map[], {}, [], 0;
      session, since, trusted := None, 0, false;
    }

    method OnServerKx(e: Env, d: Digests, cfg: ClientConfig, publicKey: seq<byte>, v: Evidence,
                      key: seq<byte>, ephemeral: seq<byte>)
      modifies this
      ensures View() == HandleServerKx(e, d, cfg, old(View()), publicKey, v, key, ephemeral)
      ensures LawfulEnv(e) && |publicKey| == 32 && !old(trusted) ==>
        KxHandled(d, cfg, old(View()), View(), publicKey, v, key)
    {
      if LawfulEnv(e) && |publicKey| == 32 && !trusted {
        KxExact(e, d, cfg, View(), publicKey, v, key, ephemeral);
      }
      hide BoxSeal, EarlyChecks, LateChecks, LawfulEnv, KxHandled;
      if !EarlyChecks(cfg, v) {
        return;
      }
      var sealed := BoxSeal(e.suite, key, publicKey, ephemeral);
      if sealed.None? {
        return;
      }
      StoreKey(publicKey, key);
      if !LateChecks(d, cfg, v, publicKey) || ws != Open {
        return;
      }
      HandOver(sealed.value);
    }

    /** The key is stored before the last checks have run. */
    method StoreKey(publicKey: seq<byte>, key: seq<byte>)
      modifies this
      ensures View() == old(View()).(key := Some(key), session := Some(key), since := |old(sentOn)|,
                                     serverPublicKey := publicKey)
    {
      serverX25519PublicKey, symmetricKey := publicKey, Some(key);
      session, since := Some(key), |sentOn|;
    }

    method HandOver(sealed: seq<byte>)
      modifies this
      ensures View() == old(View()).(trusted := true, out := old(sentOn) + [Item(ClientKx(sealed), None)])
    {
      trusted, sentOn := true, sentOn + [Item(ClientKx(sealed), None)];
    }

    /** The control socket is open and has its key. */
    ghost predicate CanTransmit(e: Env)
      reads this
    {
      LawfulEnv(e) && ws == Open && symmetricKey.Some? && |symmetricKey.value| == 32
    }

    method Send(e: Env, m: Msg) returns (ok: bool)
      modifies this
      ensures ok == ClientSide.Send(e, old(View()), m).Some?
      ensures View() == TrySend(e, old(View()), m)
      ensures old(CanTransmit(e)) ==>
        && ok && Transmits(e, old(symmetricKey).value, old(sentOn), sentOn, [m])
        && drawn == old(drawn) + 1 && DrewNonce(e, old(drawn), sentOn[|old(sentOn)|].wire)
      ensures old(ws) != Open || old(symmetricKey).None? ==> !ok && sentOn == old(sentOn)
      ensures View() == old(View()).(out := sentOn, drawn := drawn)
    {
      if LawfulEnv(e) && symmetricKey.Some? && |symmetricKey.value| == 32 {
        EnvelopeOpens(e, symmetricKey.value, drawn, m);
        EnvelopeDraws(e, symmetricKey.value, drawn, m);
      }
      hide DrewNonce, Envelope, OpenEnvelope, LawfulEnv;
      if ws != Open || symmetricKey.None? {
        return false;
      }
      var w := Envelope(e, symmetricKey.value, drawn, m);
      if w.None? {
        return false;
      }
      sentOn := sentOn + [Item(w.value, Some(m))];
      drawn := drawn + 1;
      return true;
    }

    /** `onopen`: the hello goes out. */
    method OnOpen()
      modifies this
      ensures View() == WsOpened(old(View()))
      ensures old(ws) == Connecting ==> ws == Open && sentOn == old(sentOn) + [Item(ClientReady, None)]
      ensures old(ws) != Connecting ==> View() == old(View())
    {
      if ws == Connecting {
        ws := Open;
        sentOn := sentOn + [Item(ClientReady, None)];
      }
    }

    /** The end of `connect` of a tunneled socket: its request goes out, unless the port does not match. */
    method ConnectSocket(e: Env, x: ConnId, portMatches: bool)
      requires x in webSockets
      modifies this
      ensures View() == FinishConnect(e, old(View()), x, portMatches)
      ensures webSockets == old(webSockets)[x := old(webSockets)[x].(asked := true)]
      ensures !portMatches ==> sentOn == old(sentOn)
      ensures old(CanTransmit(e)) && portMatches ==>
        Transmits(e, old(symmetricKey).value, old(sentOn), sentOn, [WsConnect(x)])
    {
      hide Envelope, Transmits, LawfulEnv;
      webSockets := webSockets[x := webSockets[x].(asked := true)];
      if portMatches {
        var _ := Send(e, WsConnect(x));
      }
    }

    method SendOnSocket(e: Env, x: ConnId, data: Payload) returns (ok: bool)
      requires x in webSockets
      modifies this
      ensures View() == SocketSend(e, old(View()), x, data)
      ensures ok <==> old(webSockets[x].state) == Connecting || old(webSockets[x].state) == Open
      ensures !ok ==> View() == old(View())
      ensures ok ==>
        && webSockets[x].sent == old(webSockets)[x].sent + [data] && webSockets.Keys == old(webSockets).Keys
        && forall z :: z in webSockets && z != x ==> webSockets[z] == old(webSockets)[z]
      ensures old(webSockets[x].state) == Connecting ==>
        sentOn == old(sentOn) && webSockets[x].queue == old(webSockets[x].queue) + [data]
      ensures old(CanTransmit(e)) && old(webSockets[x].state) == Open ==>
        Transmits(e, old(symmetricKey).value, old(sentOn), sentOn, [WsMessage(x, data)])
    {
      hide Envelope, Transmits, LawfulEnv;
      var m := webSockets[x];
      if m.state == Connecting {
        webSockets := webSockets[x := m.(queue := m.queue + [data], sent := m.sent + [data])];
        return true;
      }
      if m.state != Open {
        return false;
      }
      webSockets := webSockets[x := m.(sent := m.sent + [data])];
      var _ := Send(e, WsMessage(x, data));
      return true;
    }

    method CloseSocket(e: Env, x: ConnId)
      requires x in webSockets
      modifies this
      ensures View() == SocketClose(e, old(View()), x)
      ensures webSockets.Keys == old(webSockets).Keys
      ensures webSockets[x].state == Closing || webSockets[x].state == Closed
      ensures webSockets[x].sent == old(webSockets)[x].sent && webSockets[x].received == old(webSockets)[x].received
      ensures forall z :: z in webSockets && z != x ==> webSockets[z] == old(webSockets)[z]
      ensures old(webSockets[x].state) == Closing || old(webSockets[x].state) == Closed ==> View() == old(View())
      ensures old(webSockets[x].state) == Connecting || old(webSockets[x].state) == Open ==>
        && webSockets[x].state == Closing && webSocketConnections == old(webSocketConnections) - {x}
        && (old(CanTransmit(e)) ==> Transmits(e, old(symmetricKey).value, old(sentOn), sentOn, [WsClose(x)]))
    {
      hide Envelope, Transmits, LawfulEnv;
      var m := webSockets[x];
      if m.state == Closing || m.state == Closed {
        return;
      }
      webSockets := webSockets[x := m.(state := Closing)];
      var _ := Send(e, WsClose(x));
      webSocketConnections := webSocketConnections - {x};
    }

    /** The queue is shifted and sent until it is empty. */
    method FlushQueue(e: Env, x: ConnId, queue: seq<Payload>)
      modifies this
      ensures View() == Flush(e, old(View()), x, queue)
      ensures old(CanTransmit(e)) ==>
        Transmits(e, old(symmetricKey).value, old(sentOn), sentOn, Payloads(x, queue))
      ensures View() == old(View()).(out := sentOn, drawn := drawn)
    {
      hide TrySend, Transmits, OpenEnvelope, LawfulEnv;
      NothingTransmitted(e, View());
      NoPayloads(x, queue);
      var left := queue;
      ghost var n := 0;
      while |left| > 0
        invariant 0 <= n <= |queue| && left == queue[n..]
        invariant View() == Flush(e, old(View()), x, queue[..n])
        invariant View() == old(View()).(out := sentOn, drawn := drawn)
        invariant old(CanTransmit(e)) ==>
          Transmits(e, old(symmetricKey).value, old(sentOn), sentOn, Payloads(x, queue[..n]))
        decreases |left|
      {
        assert queue[..n + 1] == queue[..n] + [left[0]];
        assert Payloads(x, queue[..n + 1]) == Payloads(x, queue[..n]) + [WsMessage(x, left[0])];
        ghost var before := sentOn;
        var _ := Send(e, WsMessage(x, left[0]));
        if old(CanTransmit(e)) {
          TransmitsMore(e, symmetricKey.value, old(sentOn), before, sentOn, Payloads(x, queue[..n]),
                        WsMessage(x, left[0]));
        }
        left := left[1..];
        n := n + 1;
      }
      assert queue[..n] == queue;
    }

    method HandleTunnelEvent(e: Env, x: ConnId, event: Event)
      requires x in webSockets
      modifies this
      ensures View() == HandleEvent(e, old(View()), x, event)
      ensures webSockets.Keys == old(webSockets).Keys
      ensures forall z :: z in webSockets && z != x ==> webSockets[z] == old(webSockets)[z]
      ensures event.ClosedByPeer? ==>
        && webSockets[x] == old(webSockets)[x].(state := Closed)
        && webSocketConnections == old(webSocketConnections) - {x}
        && sentOn == old(sentOn)
      ensures event.Opened? ==>
        && webSockets[x] == old(webSockets)[x].(state := Open, queue := [])
        && webSocketConnections == old(webSocketConnections)
        && (old(CanTransmit(e)) ==>
              Transmits(e, old(symmetricKey).value, old(sentOn), sentOn, Payloads(x, old(webSockets)[x].queue)))
      ensures event.Errored? ==> View() == old(View())
    {
      hide LawfulEnv, Transmits, Flush;
      match event {
        case Opened =>
          var m := webSockets[x];
          webSockets := webSockets[x := m.(state := Open, queue := [])];
          FlushQueue(e, x, m.queue);
        case ClosedByPeer =>
          webSockets := webSockets[x := webSockets[x].(state := Closed)];
          webSocketConnections := webSocketConnections - {x};
        case Errored =>
      }
    }

    /** A callback opens `n` tunneled sockets, with ids from `next` on. */
    method OpenSockets(next: ConnId, n: nat)
      modifies this`webSockets, this`webSocketConnections
      ensures webSocketConnections == old(webSocketConnections) + Ids(next, n)
      ensures webSockets == WithNew(old(webSockets), next, n)
    {
      for i := 0 to n
        invariant webSocketConnections == old(webSocketConnections) + Ids(next, i)
        invariant webSockets == WithNew(old(webSockets), next, i)
      {
        webSockets := webSockets[next + i := Mock(Connecting, [], [], [], false)];
        webSocketConnections := webSocketConnections + {next + i};
      }
    }

    /** One round: a registered socket is closed, and its callback opens `n` others. */
    method CloseNext(next: ConnId, n: nat, ghost was: map<ConnId, Mock>, ghost all: set<ConnId>, ghost base: ConnId)
      requires webSocketConnections != {} && base <= next
      requires Visited(was, all, webSockets, webSocketConnections)
      requires Added(was, all, webSockets, webSocketConnections, base, next)
      modifies this`webSockets, this`webSocketConnections
      ensures Visited(was, all, webSockets, webSocketConnections)
      ensures Added(was, all, webSockets, webSocketConnections, base, next + n)
      ensures |webSocketConnections| + 1 == |old(webSocketConnections)| + n
    {
      hide Visited, Added, Ids, WithNew;
      var x :| x in webSocketConnections;
      CloseOne(was, all, webSockets, webSocketConnections, base, next, x);
      if x in webSockets {
        webSockets := webSockets[x := webSockets[x].(state := Closed)];
      }
      webSocketConnections := webSocketConnections - {x};
      AddMore(was, all, webSockets, webSocketConnections, base, next, n);
      OpenSockets(next, n);
    }

    /**
     The loop of `onclose` and `close` over the live map, in any order. The close callback of round `i`
     opens `opens(i)` tunneled sockets, with ids from `base` on, and the loop reaches these as well.
     */
    method CloseEverySocket(opens: nat -> nat, base: ConnId, ghost rounds: nat)
      requires forall x :: x in webSockets || x in webSocketConnections ==> x < base
      requires EndsIn(|webSocketConnections|, opens, rounds)
      modifies this`webSockets, this`webSocketConnections
      ensures webSocketConnections == {}
      ensures AllClosed(old(webSockets), old(webSocketConnections), webSockets, base)
      ensures (forall i :: opens(i) == 0) ==> View() == CloseAllSockets(old(View()))
    {
      ghost var was, all, before := webSockets, webSocketConnections, View();
      var i, next := 0, base;
      NoneVisited(was, all, base);
      assert Total(opens, 0) == 0;
      hide Visited, Added, AllClosed, CloseAllSockets, Runs, Total, EndsIn;
      while webSocketConnections != {}
        invariant i <= rounds && next == base + Total(opens, i)
        invariant |webSocketConnections| + i == |all| + Total(opens, i)
        invariant Visited(was, all, webSockets, webSocketConnections)
        invariant Added(was, all, webSockets, webSocketConnections, base, next)
        decreases rounds - i
      {
        RoundsLeft(|all|, opens, rounds, i, |webSocketConnections|);
        CloseNext(next, opens(i), was, all, base);
        next := next + opens(i);
        i := i + 1;
      }
      AllVisited(was, all, webSockets, base, next);
      if forall n :: opens(n) == 0 {
        NoneOpened(opens, i);
        NoneAdded(before, webSockets, base);
      }
    }

    /**
     The close handler of a socket, which does not ask whether that is the `current` one: the key and the
     tunneled sockets go in any case. `opens`, `base` and `rounds` are those of the loop.
     */
    method OnClose(current: bool, opens: nat -> nat, base: ConnId, ghost rounds: nat)
      requires forall x :: x in webSockets || x in webSocketConnections ==> x < base
      requires EndsIn(|webSocketConnections|, opens, rounds)
      modifies this
      ensures symmetricKey.None? && webSocketConnections == {} && ws == if current then Closed else old(ws)
      ensures AllClosed(old(webSockets), old(webSocketConnections), webSockets, base)
      ensures (forall i :: opens(i) == 0) ==>
        View() == if current then WsClosed(old(View())) else CloseHandled(old(View()))
    {
      CloseEverySocket(opens, base, rounds);
      if current {
        ws := Closed;
      }
      symmetricKey := None;
    }

    method Close(opens: nat -> nat, base: ConnId, ghost rounds: nat)
      requires forall x :: x in webSockets || x in webSocketConnections ==> x < base
      requires EndsIn(|webSocketConnections|, opens, rounds)
      modifies this
      ensures closed && (old(closed) ==> View() == old(View()))
      ensures !old(closed) ==>
        && webSocketConnections == {} && ws == Closed && symmetricKey.None?
        && AllClosed(old(webSockets), old(webSocketConnections), webSockets, base)
      ensures (forall i :: opens(i) == 0) ==> View() == CloseClient(old(View()))
    {
      if closed {
        return;
      }
      closed := true;
      CloseEverySocket(opens, base, rounds);
      ws := Closed;
      symmetricKey := None;
    }
  }

  function Payloads(x: ConnId, queue: seq<Payload>): seq<Msg> {
    seq(|queue|, i requires 0 <= i < |queue| => WsMessage(x, queue[i]))
  }

  lemma {:induction false} NoPayloads(x: ConnId, queue: seq<Payload>)
    ensures Payloads(x, queue[..0]) == []
  {
  }

  lemma {:induction false} NothingTransmitted(e: Env, k: Client)
    ensures k.key.Some? ==> Transmits(e, k.key.value, k.out, k.out, [])
  {
    hide OpenEnvelope;
  }

  /** The registered sockets that are no longer registered are closed; nothing else changed about the old ones. */
  ghost predicate Visited(was: map<ConnId, Mock>, all: set<ConnId>, now: map<ConnId, Mock>, left: set<ConnId>) {
    forall x :: x in was ==> x in now && now[x] == if x in all && x !in left then was[x].(state := Closed) else was[x]
  }

  /** New sockets have new ids and are registered, or closed by now. */
  ghost predicate Added(was: map<ConnId, Mock>, all: set<ConnId>, now: map<ConnId, Mock>, left: set<ConnId>,
                        base: ConnId, next: ConnId) {
    && (forall x :: x in now && x !in was ==> base <= x < next && (x in left || now[x].state == Closed))
    && (forall x :: x in was || x in all ==> x < base)
    && (forall x :: x in left ==> x in all || base <= x < next)
  }

  /** Every registered socket is closed, and so is every socket that was opened meanwhile. */
  ghost predicate AllClosed(was: map<ConnId, Mock>, all: set<ConnId>, now: map<ConnId, Mock>, base: ConnId) {
    && (forall x :: x in was ==> x in now && now[x] == if x in all then was[x].(state := Closed) else was[x])
    && (forall x :: x in now && x !in was ==> base <= x && now[x].state == Closed)
  }

  function Ids(next: ConnId, n: nat): set<ConnId> {
    if n == 0 then {} else Ids(next, n - 1) + {next + n - 1}
  }

  lemma {:induction false} IdsRange(next: ConnId, n: nat)
    ensures |Ids(next, n)| == n && forall x :: x in Ids(next, n) <==> next <= x < next + n
  {
    if n > 0 {
      IdsRange(next, n - 1);
    }
  }

  function WithNew(socks: map<ConnId, Mock>, next: ConnId, n: nat): map<ConnId, Mock> {
    if n == 0 then socks else WithNew(socks, next, n - 1)[next + n - 1 := Mock(Connecting, [], [], [], false)]
  }

  lemma {:induction false} WithNewRange(socks: map<ConnId, Mock>, next: ConnId, n: nat)
    requires forall x :: x in socks ==> x < next
    ensures forall x :: x in WithNew(socks, next, n) <==> x in socks || next <= x < next + n
    ensures forall x :: x in socks ==> x in WithNew(socks, next, n) && WithNew(socks, next, n)[x] == socks[x]
  {
    if n > 0 {
      WithNewRange(socks, next, n - 1);
    }
  }

  lemma {:induction false} NoneVisited(was: map<ConnId, Mock>, all: set<ConnId>, base: ConnId)
    requires forall x :: x in was || x in all ==> x < base
    ensures Visited(was, all, was, all) && Added(was, all, was, all, base, base)
  {
  }

  lemma {:induction false} CloseOne(was: map<ConnId, Mock>, all: set<ConnId>, now: map<ConnId, Mock>, left: set<ConnId>,
                                    base: ConnId, next: ConnId, x: ConnId)
    requires Visited(was, all, now, left) && Added(was, all, now, left, base, next) && x in left
    ensures var now' := if x in now then now[x := now[x].(state := Closed)] else now;
            Visited(was, all, now', left - {x}) && Added(was, all, now', left - {x}, base, next)
  {
  }

  lemma {:induction false} AddMore(was: map<ConnId, Mock>, all: set<ConnId>, now: map<ConnId, Mock>, left: set<ConnId>,
                                   base: ConnId, next: ConnId, n: nat)
    requires Visited(was, all, now, left) && Added(was, all, now, left, base, next) && base <= next
    ensures var now', left' := WithNew(now, next, n), left + Ids(next, n);
            && Visited(was, all, now', left') && Added(was, all, now', left', base, next + n)
            && |left'| == |left| + n
  {
    hide WithNew, Ids;
    assert forall x :: x in now || x in left ==> x < next;
    IdsRange(next, n);
    WithNewRange(now, next, n);
    assert left !! Ids(next, n);
    assert forall x :: x in was ==> x < next;
    hide Visited;
    MoreVisited(was, all, now, left, WithNew(now, next, n), left + Ids(next, n));
  }

  lemma {:induction false} MoreVisited(was: map<ConnId, Mock>, all: set<ConnId>, now: map<ConnId, Mock>,
                                       left: set<ConnId>,
                                       now': map<ConnId, Mock>, left': set<ConnId>)
    requires Visited(was, all, now, left) && left <= left' && forall x :: x in now ==> x in now' && now'[x] == now[x]
    requires forall x :: x in left' && x !in left ==> x !in was
    ensures Visited(was, all, now', left')
  {
  }

  lemma {:induction false} AllVisited(was: map<ConnId, Mock>, all: set<ConnId>, now: map<ConnId, Mock>, base: ConnId,
                                      next: ConnId)
    requires Visited(was, all, now, {}) && Added(was, all, now, {}, base, next)
    ensures AllClosed(was, all, now, base) && (next == base ==> now.Keys <= was.Keys)
  {
  }

  lemma {:induction false} NoneAdded(k: Client, now: map<ConnId, Mock>, base: ConnId)
    requires AllClosed(k.mocks, k.registered, now, base) && now.Keys <= k.mocks.Keys
    ensures k.(mocks := now, registered := {}) == CloseAllSockets(k)
  {
  }

  // ---- when the loop ends ----

  /** How many sockets the callbacks of the first `n` rounds open. */
  function Total(opens: nat -> nat, n: nat): nat {
    if n == 0 then 0 else Total(opens, n - 1) + opens(n - 1)
  }

  /** The loop does `n` rounds: before each of them a socket is registered. */
  predicate Runs(start: nat, opens: nat -> nat, n: nat) {
    forall i :: 0 <= i < n ==> i < start + Total(opens, i)
  }

  /** It ends after `n` rounds. */
  predicate EndsIn(start: nat, opens: nat -> nat, n: nat) {
    Runs(start, opens, n) && n == start + Total(opens, n)
  }

  /** However long it runs, the callbacks open at most so many sockets. */
  ghost predicate Bounded(start: nat, opens: nat -> nat, bound: nat) {
    forall n: nat :: Runs(start, opens, n) ==> Total(opens, n) <= bound
  }

  lemma {:induction false} NoneOpened(opens: nat -> nat, n: nat)
    requires forall i :: opens(i) == 0
    ensures Total(opens, n) == 0
  {
    if n > 0 {
      NoneOpened(opens, n - 1);
    }
  }

  lemma {:induction false} TotalGrows(opens: nat -> nat, m: nat, n: nat)
    requires m <= n
    ensures Total(opens, m) <= Total(opens, n)
    decreases n
  {
    if m < n {
      TotalGrows(opens, m, n - 1);
    }
  }

  /** From round `n` on: either it has ended, or it runs on until there are more rounds than sockets. */
  lemma {:induction false} EndsWithin(start: nat, opens: nat -> nat, bound: nat, n: nat)
    requires n <= start + bound && Runs(start, opens, n)
    requires Bounded(start, opens, bound)
    ensures exists k: nat :: EndsIn(start, opens, k)
    decreases start + bound - n
  {
    if n < start + Total(opens, n) {
      assert Runs(start, opens, n + 1);
      EndsWithin(start, opens, bound, n + 1);
    } else {
      RunsAtMost(start, opens, n);
      assert EndsIn(start, opens, n);
    }
  }

  lemma {:induction false} RunsAtMost(start: nat, opens: nat -> nat, n: nat)
    requires Runs(start, opens, n)
    ensures n <= start + Total(opens, n)
  {
    if n > 0 {
      assert n - 1 < start + Total(opens, n - 1);
    }
  }

  lemma {:induction false} EndedRunsNoFurther(start: nat, opens: nat -> nat, n: nat, k: nat)
    requires EndsIn(start, opens, n) && Runs(start, opens, k)
    ensures k <= n
  {
  }

  lemma {:induction false} RoundsLeft(start: nat, opens: nat -> nat, rounds: nat, i: nat, left: nat)
    requires EndsIn(start, opens, rounds) && i <= rounds && left + i == start + Total(opens, i) && left > 0
    ensures i < rounds && Total(opens, i + 1) == Total(opens, i) + opens(i)
  {
  }

  /** The loop over the live map ends if and only if its callbacks open a bounded number of sockets in all. */
  lemma {:induction false} LoopEndsIff(start: nat, opens: nat -> nat)
    ensures (exists n: nat :: EndsIn(start, opens, n))
       <==> (exists bound: nat :: Bounded(start, opens, bound))
  {
    if exists n: nat :: EndsIn(start, opens, n) {
      var n: nat :| EndsIn(start, opens, n);
      forall k: nat | Runs(start, opens, k)
        ensures Total(opens, k) <= Total(opens, n)
      {
        EndedRunsNoFurther(start, opens, n, k);
        TotalGrows(opens, k, n);
      }
      assert Bounded(start, opens, Total(opens, n));
    }
    if exists bound: nat :: Bounded(start, opens, bound) {
      var bound: nat :| Bounded(start, opens, bound);
      EndsWithin(start, opens, bound, 0);
    }
  }

  /** A socket whose close callback opens a socket with the same callback keeps the loop going for ever. */
  lemma {:induction false} ReopeningNeverEnds(start: nat, n: nat)
    requires start > 0
    ensures !EndsIn(start, _ => 1, n)
  {
    OneEach(n);
  }

  lemma {:induction false} OneEach(n: nat)
    ensures Total(_ => 1, n) == n
  {
    if n > 0 {
      OneEach(n - 1);
    }
  }

  /** The key is handed over if and only if the socket is open and all checks passed; otherwise nothing is sent. */
  predicate KxHandled(d: Digests, cfg: ClientConfig, k: Client, t: Client, publicKey: seq<byte>, v: Evidence,
                      key: seq<byte>) {
    && (t.trusted <==> k.ws == Open && EarlyChecks(cfg, v) && LateChecks(d, cfg, v, publicKey))
    && (!t.trusted ==> t.out == k.out)
    && (t.trusted ==> |t.out| == |k.out| + 1 && t.key == Some(key) && t.serverPublicKey == publicKey)
  }

  lemma {:induction false} KxExact(e: Env, d: Digests, cfg: ClientConfig, k: Client, publicKey: seq<byte>, v: Evidence,
                                   key: seq<byte>, ephemeral: seq<byte>)
    requires LawfulEnv(e) && |publicKey| == 32 && !k.trusted
    ensures KxHandled(d, cfg, k, HandleServerKx(e, d, cfg, k, publicKey, v, key, ephemeral), publicKey, v, key)
  {
    SealDefined(e.suite, key, publicKey, ephemeral);
    hide BoxSeal, EarlyChecks, LateChecks;
  }

  lemma {:induction false} SealDefined(c: Suite, message: seq<byte>, recipient: seq<byte>, ephemeral: seq<byte>)
    requires Lawful(c) && |recipient| == 32
    ensures BoxSeal(c, message, recipient, ephemeral).Some?
  {
    hide WordsOf, BytesOf;
    assert |c.sharedSecret(ephemeral, recipient)| == 32;
  }

  /**
   The report data are the digest of the announced key: for SGX the first 32 bytes are its SHA-256, for TDX
   all are the SHA-512 of nonce, time and key, none of them empty, and for SEV-SNP the SHA-512 of the nonce,
   in either form, and the key.
   */
  ghost predicate Commits(d: Digests, tee: Tee, v: Evidence, publicKey: seq<byte>) {
    match tee
    case SgxTee => v.reportData[..if |v.reportData| < 32 then |v.reportData| else 32] == d.sha256(publicKey)
    case TdxTee => publicKey != [] && exists val, iat ::
      v.verifierData == VerifierNonce(Some(val), Some(iat)) && val != [] && iat != []
      && v.reportData == d.sha512(val + iat + publicKey)
    case SevTee => exists nonce ::
      && (v.verifierData == PlainNonce(nonce) || exists iat :: v.verifierData == VerifierNonce(Some(nonce), iat))
      && v.reportData == d.sha512(nonce + publicKey)
  }

  /** The key is handed over exactly when every configured check passed and the socket is still open. */
  lemma {:induction false} KeyHandedOverIff(e: Env, d: Digests, cfg: ClientConfig, k: Client, publicKey: seq<byte>,
                                            v: Evidence, key: seq<byte>, ephemeral: seq<byte>)
    requires LawfulEnv(e) && |publicKey| == 32 && !k.trusted
    ensures HandleServerKx(e, d, cfg, k, publicKey, v, key, ephemeral).trusted
       <==> (&& k.ws == Open && v.quotePresent && v.quoteVerified
             && (cfg.tee.SevTee? ==> v.vcekPresent)
             && (cfg.tee.SgxTee? && v.debugEnclave ==> cfg.allowDebug)
             && (cfg.customVerify ==> v.customAccepts)
             && (!cfg.tee.SevTee? ==>
                   (cfg.measurements || cfg.customVerify) && (cfg.measurements ==> v.measurementsMatch))
             && (if cfg.customBinding then v.customBindingAccepts else Commits(d, cfg.tee, v, publicKey)))
    ensures var t := HandleServerKx(e, d, cfg, k, publicKey, v, key, ephemeral);
            && (t.trusted <==> |t.out| > |k.out|)
            && (t.trusted ==> t.out == k.out + [Item(ClientKx(BoxSeal(e.suite, key, publicKey, ephemeral).value), None)]
                              && t.key == Some(key))
  {
    SealDefined(e.suite, key, publicKey, ephemeral);
    hide BoxSeal;
  }
}
