/** What is in flight arrives: from every reachable state, handling the channel delivers all that was sent. */
module TunnelDrains {
  import opened Bytes
  import opened Crypto
  import opened Messages
  import opened ServerSide
  import opened ServerTheorems
  import opened ClientSide
  import opened Steady
  import opened Tunnel
  import opened TunnelKeys
  import opened TunnelOrder
  import opened TunnelServes
  import opened TunnelTheorems
  import opened TunnelProgress

  // ---- a socket that is held has not been closed ----

  predicate Closes(it: Item, x: ConnId) {
    it.plain == Some(WsClose(x))
  }

  /** No close of `x` is under way. */
  predicate NoneCloses(items: seq<Item>, x: ConnId) {
    forall i :: 0 <= i < |items| ==> !Closes(items[i], x)
  }

  predicate Kept(m: ClientSide.Mock) {
    m.state == Connecting || m.state == Open
  }

  /** The client has closed every tunneled socket whose close is under way. */
  predicate NotClosing(y: Sys, x: ConnId) {
    x in y.k.mocks && Kept(y.k.mocks[x]) ==> NoneCloses(From(y.k.out, y.taken), x)
  }

  /** The client goes from `k` to `t` without closing `x`, and `x` was kept before if it is now. */
  predicate Spares(k: Client, t: Client, x: ConnId) {
    && k.out <= t.out && NoneCloses(More(k, t), x)
    && (x in t.mocks && Kept(t.mocks[x]) ==> x in k.mocks && Kept(k.mocks[x]))
  }

  lemma {:induction false} SparesKeeps(y: Sys, t: Client, x: ConnId)
    requires NotClosing(y, x) && y.taken <= |y.k.out| && Spares(y.k, t, x)
    ensures NotClosing(y.(k := t), x)
  {
    var a, more, b := From(y.k.out, y.taken), More(y.k, t), From(t.out, y.taken);
    assert b == a + more;
  }

  lemma {:induction false} SparesTwice(k: Client, t: Client, u: Client, x: ConnId)
    requires Spares(k, t, x) && Spares(t, u, x)
    ensures Spares(k, u, x)
  {
    assert More(k, u) == More(k, t) + More(t, u);
  }

  lemma {:induction false} SendSpares(g: Setting, k: Client, m: Msg, x: ConnId)
    requires LawfulEnv(g.e) && SessionOk(k) && m != WsClose(x)
    ensures Spares(k, TrySend(g.e, k, m), x) && SessionOk(TrySend(g.e, k, m)) && TrySend(g.e, k, m).mocks == k.mocks
  {
    SendSpec(g, k, m);
    hide TrySend, OpenEnvelope;
    var t := TrySend(g.e, k, m);
    if k.ws == Open && k.key.Some? {
      assert More(k, t) == [t.out[|k.out|]];
    } else {
      assert More(k, t) == [];
    }
  }

  lemma {:induction false} SetSpares(k: Client, c: ConnId, m: ClientSide.Mock, x: ConnId)
    requires c == x && Kept(m) ==> x in k.mocks && Kept(k.mocks[x])
    ensures Spares(k, Set(k, c, m), x)
  {
    assert More(k, Set(k, c, m)) == [];
  }

  lemma {:induction false} FlushSpares(g: Setting, k: Client, c: ConnId, queue: seq<Payload>, x: ConnId)
    requires LawfulEnv(g.e) && SessionOk(k)
    ensures Spares(k, Flush(g.e, k, c, queue), x) && SessionOk(Flush(g.e, k, c, queue))
    decreases |queue|
  {
    if queue == [] {
      assert More(k, k) == [];
    } else {
      hide Spares, TrySend, SessionOk;
      var t := Flush(g.e, k, c, queue[..|queue| - 1]);
      FlushSpares(g, k, c, queue[..|queue| - 1], x);
      SendSpares(g, t, WsMessage(c, queue[|queue| - 1]), x);
      SparesTwice(k, t, Flush(g.e, k, c, queue), x);
    }
  }

  /** The sockets that are registered are those that are kept. */
  predicate RegisteredKept(k: Client, x: ConnId) {
    x in k.mocks ==> (x in k.registered <==> Kept(k.mocks[x]))
  }

  lemma {:induction false} PlainSpares(g: Setting, k: Client, m: Msg, x: ConnId)
    requires LawfulEnv(g.e) && SessionOk(k) && RegisteredKept(k, x)
    ensures Spares(k, HandlePlain(g.e, k, m), x)
  {
    SelfSpares(k, x);
    hide Spares, Flush;
    if (m.WsEvent? || m.WsMessage?) && m.conn in k.registered && m.conn in k.mocks {
      var c, mock := m.conn, k.mocks[m.conn];
      if m.WsMessage? {
        SetSpares(k, c, mock.(received := mock.received + [m.data]), x);
      } else if m.event == Opened {
        var t := Set(k, c, mock.(state := Open, queue := []));
        SetSpares(k, c, mock.(state := Open, queue := []), x);
        FlushSpares(g, t, c, mock.queue, x);
        SparesTwice(k, t, Flush(g.e, t, c, mock.queue), x);
      } else if m.event == ClosedByPeer {
        ClosedByPeerSpares(k, c, x);
      }
    }
  }

  lemma {:induction false} SelfSpares(k: Client, x: ConnId)
    ensures Spares(k, k, x)
  {
    assert More(k, k) == [];
  }

  lemma {:induction false} ClosedByPeerSpares(k: Client, c: ConnId, x: ConnId)
    requires c in k.mocks
    ensures Spares(k, Set(k, c, k.mocks[c].(state := Closed)).(registered := k.registered - {c}), x)
  {
    assert More(k, Set(k, c, k.mocks[c].(state := Closed)).(registered := k.registered - {c})) == [];
  }

  lemma {:induction false} ActSpares(g: Setting, k: Client, act: ClientAction, x: ConnId)
    requires LawfulEnv(g.e) && SessionOk(k) && Known(k, act) && act != ClientAction.Closes(x) && act != NewConnection(x)
    ensures Spares(k, Act(g, k, act), x)
  {
    assert More(k, k) == [];
    hide TrySend;
    match act
    case NewConnection(c) =>
      assert More(k, NewSocket(k, c)) == [];
    case AsksFor(c, portMatches) =>
      var t := Set(k, c, k.mocks[c].(asked := true));
      SetSpares(k, c, k.mocks[c].(asked := true), x);
      SendSpares(g, t, WsConnect(c), x);
      SparesTwice(k, t, TrySend(g.e, t, WsConnect(c)), x);
    case Sends(c, data) =>
      SocketSendSpares(g, k, c, data, x);
    case Closes(c) =>
      SocketCloseSpares(g, k, c, x);
    case Requests(req, content) =>
      SendSpares(g, k, HttpRequest(req, content), x);
  }

  lemma {:induction false} SocketSendSpares(g: Setting, k: Client, c: ConnId, data: Payload, x: ConnId)
    requires LawfulEnv(g.e) && SessionOk(k) && c in k.mocks
    ensures Spares(k, SocketSend(g.e, k, c, data), x)
  {
    hide TrySend;
    assert More(k, k) == [];
    var m := k.mocks[c];
    var t := Set(k, c, m.(sent := m.sent + [data]));
    match m.state
    case Connecting =>
      SetSpares(k, c, m.(queue := m.queue + [data], sent := m.sent + [data]), x);
    case Open =>
      SetSpares(k, c, m.(sent := m.sent + [data]), x);
      SendSpares(g, t, WsMessage(c, data), x);
      SparesTwice(k, t, TrySend(g.e, t, WsMessage(c, data)), x);
    case _ =>
  }

  lemma {:induction false} SocketCloseSpares(g: Setting, k: Client, c: ConnId, x: ConnId)
    requires LawfulEnv(g.e) && SessionOk(k) && c in k.mocks && c != x
    ensures Spares(k, SocketClose(g.e, k, c), x)
  {
    hide TrySend;
    assert More(k, k) == [];
    var t := Set(k, c, k.mocks[c].(state := Closing));
    if Kept(k.mocks[c]) {
      var u := TrySend(g.e, t, WsClose(c));
      SetSpares(k, c, k.mocks[c].(state := Closing), x);
      SendSpares(g, t, WsClose(c), x);
      SparesTwice(k, t, u, x);
      assert More(k, u.(registered := u.registered - {c})) == More(k, u);
    }
  }

  /** A socket that the client closes is not kept. */
  lemma {:induction false} ClosedIsNotKept(g: Setting, k: Client, x: ConnId)
    requires x in k.mocks
    ensures x in SocketClose(g.e, k, x).mocks && !Kept(SocketClose(g.e, k, x).mocks[x])
  {
    hide Envelope;
  }

  /** A socket that is new has no close under way. */
  lemma {:induction false} NewIsNotClosing(g: Setting, y: Sys, x: ConnId)
    requires KeyInv(g, y) && x !in y.k.mocks
    ensures NotClosing(y.(k := NewSocket(y.k, x)), x)
  {
    hide OpenEnvelope, BoxSealOpen, Announced, KeysAgree, IdentityOk;
    var items := From(y.k.out, y.taken);
    forall i | 0 <= i < |items|
      ensures !Closes(items[i], x)
    {
      assert FromClient(g, y.k, y.s, y.k.out[y.taken + i], Early(y.k, y.taken + i));
    }
  }

  lemma {:induction false} ActNotClosing(g: Setting, y: Sys, act: ClientAction, x: ConnId)
    requires LawfulEnv(g.e) && KeyInv(g, y) && Can(g, y, Acts(act)) && NotClosing(y, x)
    ensures NotClosing(y.(k := Act(g, y.k, act)), x)
  {
    assert SessionOk(y.k) && y.taken <= |y.k.out|;
    hide KeyInv, Spares, LawfulEnv;
    if act == NewConnection(x) {
      NewIsNotClosing(g, y, x);
    } else if act == ClientAction.Closes(x) {
      ClosedIsNotKept(g, y.k, x);
    } else {
      ActSpares(g, y.k, act, x);
      SparesKeeps(y, Act(g, y.k, act), x);
    }
  }

  lemma {:induction false} KxSpares(g: Setting, k: Client, w: Wire, key: seq<byte>, ephemeral: seq<byte>, x: ConnId)
    requires w.ServerKx?
    ensures Spares(k, ClientHandles(g, k, w, key, ephemeral), x)
  {
    hide BoxSeal, EarlyChecks, LateChecks;
    var t := ClientHandles(g, k, w, key, ephemeral);
    if |t.out| == |k.out| {
      assert More(k, t) == [];
    } else {
      assert More(k, t) == [t.out[|k.out|]];
    }
  }

  lemma {:induction false} ReadSpares(g: Setting, k: Client, w: Wire, key: seq<byte>, ephemeral: seq<byte>, x: ConnId)
    requires LawfulEnv(g.e) && SessionOk(k) && RegisteredKept(k, x)
    ensures Spares(k, ClientHandles(g, k, w, key, ephemeral), x)
  {
    hide HandleServerKx, OpenEnvelope, HandlePlain, Spares, LawfulEnv, SessionOk, RegisteredKept;
    SelfSpares(k, x);
    if w.ServerKx? {
      KxSpares(g, k, w, key, ephemeral, x);
    } else if w.Enc? && k.key.Some? && OpenEnvelope(g.e, k.key.value, w).Some? {
      PlainSpares(g, k, OpenEnvelope(g.e, k.key.value, w).value, x);
    }
  }

  lemma {:induction false} ChangeSpares(k: Client, change: Change, x: ConnId)
    ensures Spares(k, Changed(k, change), x)
  {
    var t := Changed(k, change);
    if |t.out| == |k.out| {
      assert More(k, t) == [];
    } else {
      assert More(k, t) == [Item(ClientReady, None)];
    }
  }

  lemma {:induction false} CloseSpares(k: Client, x: ConnId)
    ensures Spares(k, CloseHandled(k), x)
  {
    assert More(k, CloseHandled(k)) == [];
  }

  lemma {:induction false} LinkRegistered(y: Sys, x: ConnId)
    requires x in y.k.mocks ==> LinkOk(LinkOf(y, x))
    ensures RegisteredKept(y.k, x)
  {
    hide Data, Requested, Out, Delivered, SentByApp, Hears, From, Mentions;
  }

  lemma {:induction false} StepNotClosing(g: Setting, y: Sys, a: Action, x: ConnId)
    requires LawfulEnv(g.e) && Inv(g, y) && Can(g, y, a) && NotClosing(y, x)
    ensures NotClosing(Do(g, y, a), x)
  {
    assert KeyInv(g, y) && SessionOk(y.k) && y.taken <= |y.k.out|;
    assert x in y.k.mocks ==> LinkOk(LinkOf(y, x));
    hide Inv, KeyInv, LinkOk, LinkOf, Act, Changed, ClientHandles, HandleControl, Next, Attach, Enabled, Foreign,
         Unused, Out, Spares, LawfulEnv, SessionOk, NotClosing, RegisteredKept, CloseHandled;
    match a
    case Acts(act) =>
      ActNotClosing(g, y, act, x);
    case Changes(change) =>
      ChangeSpares(y.k, change, x);
      SparesKeeps(y, Changed(y.k, change), x);
    case StaleCloses =>
      CloseSpares(y.k, x);
      SparesKeeps(y, CloseHandled(y.k), x);
      ReadNotClosing(y.(k := CloseHandled(y.k)), Do(g, y, a), x);
    case ClientReads(key, ephemeral) =>
      LinkRegistered(y, x);
      ReadSpares(g, y.k, Sent(y)[y.read].wire, key, ephemeral, x);
      var t := ClientHandles(g, y.k, Sent(y)[y.read].wire, key, ephemeral);
      SparesKeeps(y, t, x);
      ReadNotClosing(y.(k := t), Do(g, y, a), x);
    case ServerReads(_) =>
      HandledNotClosing(y, Do(g, y, a), x);
    case Connects(_, _, _) =>
      FreshNotClosing(Do(g, y, a), x);
    case ServerActs(_) =>
      ReadNotClosing(y, Do(g, y, a), x);
  }

  lemma {:induction false} HandledNotClosing(y: Sys, z: Sys, x: ConnId)
    requires NotClosing(y, x) && y.taken < |y.k.out| && z.k == y.k && z.taken == y.taken + 1
    ensures NotClosing(z, x)
  {
    assert From(y.k.out, y.taken + 1) == From(y.k.out, y.taken)[1..];
  }

  lemma {:induction false} FreshNotClosing(y: Sys, x: ConnId)
    requires y.k.out == [] && y.taken == 0
    ensures NotClosing(y, x)
  {
  }

  lemma {:induction false} ReadNotClosing(y: Sys, z: Sys, x: ConnId)
    requires NotClosing(y, x) && z.k == y.k && z.taken == y.taken
    ensures NotClosing(z, x)
  {
  }

  lemma {:induction false} RunNotClosing(g: Setting, y: Sys, run: seq<Action>, x: ConnId)
    requires LawfulEnv(g.e) && Inv(g, y) && Possible(g, y, run) && NotClosing(y, x)
    ensures NotClosing(Reached(g, y, run), x)
    decreases |run|
  {
    if run != [] {
      hide Inv, Do, Can, NotClosing;
      StepNotClosing(g, y, run[0], x);
      StepKeeps(g, y, run[0]);
      RunNotClosing(g, Do(g, y, run[0]), run[1..], x);
    }
  }

  // ---- the server handles what is under way ----

  /** Another connection is made. */
  lemma {:induction false} ConnectHears(e: Env, s: Server, via: Sock, c: ConnId, sock: Sock, x: ConnId)
    requires Hears(s, sock, x) && c != x
    ensures Hears(HandleConnect(e, s, via, c, []), sock, x)
  {
    hide SendEncrypted;
    var a := AddMock(s, via, c);
    assert AppRun(e, a, []) == a;
    SendFrame(e, s, via, WsEvent(c, Errored));
    SendFrame(e, a, via, WsEvent(c, Opened));
  }

  lemma {:induction false} OtherMockCloses(s: Server, m: nat, sock: Sock, x: ConnId)
    requires Hears(s, sock, x) && m != s.sockets[x].mock
    ensures Hears(EmitClose(s, m), sock, x)
  {
  }

  /** Another connection is closed. */
  lemma {:induction false} CloseHears(e: Env, s: Server, c: ConnId, sock: Sock, x: ConnId)
    requires RegistryOk(s) && Hears(s, sock, x) && c != x
    ensures Hears(HandleClose(e, s, c, []), sock, x)
  {
    if c in s.sockets {
      assert SocketOk(s, c) && SocketOk(s, x);
      hide RegistryOk, EmitClose;
      var m := s.sockets[c].mock;
      OtherMockCloses(s, m, sock, x);
      assert AppRun(e, EmitClose(s, m), []) == EmitClose(s, m);
    }
  }

  /** A message that does not close `x` leaves its mock open, when the application does nothing in the callback. */
  lemma {:induction false} StillHears(e: Env, s: Server, via: Sock, m: Msg, sock: Sock, x: ConnId)
    requires RegistryOk(s) && Hears(s, sock, x) && m != WsClose(x) && (m.WsConnect? ==> m.conn !in s.made)
    ensures Hears(Dispatch(e, s, via, m, []), sock, x)
  {
    ReceiverIsMade(s, x);
    hide RegistryOk, HandleConnect, HandleClose;
    match m
    case HttpRequest(req, _) =>
    case WsConnect(c) =>
      ConnectHears(e, s, via, c, sock, x);
    case WsMessage(c, data) =>
      var l := Log(s, GotMessage(via, c, data));
      assert AppRun(e, l, []) == l;
    case WsClose(c) =>
      CloseHears(e, s, c, sock, x);
    case _ =>
  }

  lemma {:induction false} HandlingHears(g: Setting, y: Sys, x: ConnId)
    requires Inv(g, y) && Can(g, y, ServerReads([])) && Hears(y.s, y.sock, x) && !Closes(Head(y), x)
    ensures Hears(Do(g, y, ServerReads([])).s, y.sock, x) && y.sock in Do(g, y, ServerReads([])).s.open
  {
    TakesEnabled(g, y, []);
    RegistrySettled(y.s);
    var w := Head(y).wire;
    assert KeyInv(g, y);
    hide KeyInv, LinkOk, LinkOf, RegistryOk, Housed, Dispatch, OpenEnvelope, BoxSealOpen, Settled;
    if Openable(g.e, y.s, y.sock, w) {
      OpensToPlain(g, y);
      StillHears(g.e, y.s, y.sock, Head(y).plain.value, y.sock, x);
      DispatchKeepsKeys(g.e, y.s, y.sock, Head(y).plain.value, []);
    } else {
      Gated(g.e, y.s, y.sock, w, []);
    }
  }

  /** The server handles the next `n` messages. */
  function Drain(n: nat): seq<Action> {
    if n == 0 then [] else [ServerReads([])] + Drain(n - 1)
  }

  /** A reachable state in which both ends hold the connection. */
  ghost predicate Draining(g: Setting, y: Sys, x: ConnId) {
    Inv(g, y) && NotClosing(y, x) && BothHold(y, x)
  }

  lemma {:induction false} NextIsNoClose(g: Setting, y: Sys, x: ConnId)
    requires Draining(g, y, x) && y.taken < |y.k.out|
    ensures Can(g, y, ServerReads([])) && !Closes(Head(y), x)
  {
    hide Inv, Hears;
    assert From(y.k.out, y.taken)[0] == Head(y);
  }

  lemma {:induction false} HandledFrame(g: Setting, y: Sys)
    requires Can(g, y, ServerReads([]))
    ensures var z := Do(g, y, ServerReads([])); z.k == y.k && z.taken == y.taken + 1 && z.sock == y.sock
  {
    hide HandleControl, Out;
  }

  /** One message is handled. */
  lemma {:induction false} DrainOne(g: Setting, y: Sys, x: ConnId) returns (z: Sys)
    requires LawfulEnv(g.e) && Draining(g, y, x) && y.taken < |y.k.out|
    ensures Leads(g, y, [ServerReads([])], z) && Draining(g, z, x)
    ensures z.k == y.k && z.taken == y.taken + 1
  {
    hide Inv, Hears, LawfulEnv, NotClosing, Can, Do, Leads, Closes;
    NextIsNoClose(g, y, x);
    z := Do(g, y, ServerReads([]));
    HandledFrame(g, y);
    HandlingHears(g, y, x);
    StepNotClosing(g, y, ServerReads([]), x);
    StepKeeps(g, y, ServerReads([]));
    LeadsBy(g, y, ServerReads([]));
  }

  lemma {:induction false} LeadsNowhere(g: Setting, y: Sys)
    ensures Leads(g, y, [], y)
  {
    hide Can, Do;
  }

  lemma {:induction false} DrainHolds(g: Setting, y: Sys, n: nat, x: ConnId) returns (z: Sys)
    requires LawfulEnv(g.e) && Draining(g, y, x) && n == |y.k.out| - y.taken
    ensures Leads(g, y, Drain(n), z) && Draining(g, z, x) && z.k == y.k && z.taken == |z.k.out|
    decreases n
  {
    hide Draining, Leads, LawfulEnv;
    if n == 0 {
      z := y;
      LeadsNowhere(g, y);
    } else {
      var y1 := DrainOne(g, y, x);
      z := DrainHolds(g, y1, n - 1, x);
      LeadsOn(g, y, [ServerReads([])], y1, Drain(n - 1), z);
    }
  }

  lemma {:induction false} ReachedNotClosing(g: Setting, start: Sys, run: seq<Action>, x: ConnId)
    requires LawfulEnv(g.e) && Start(start) && Possible(g, start, run)
    ensures Inv(g, Reached(g, start, run)) && NotClosing(Reached(g, start, run), x)
  {
    NothingClosing(start, x);
    StartInv(g, start);
    hide Reached, Possible, Inv, Start, NotClosing, LawfulEnv, Do, Can;
    RunKeeps(g, start, run);
    RunNotClosing(g, start, run, x);
  }

  /**
   From every reachable state in which both ends hold a connection, the messages that are under way can
   all be handled, and then exactly what the client passed to `send` has been delivered.
   */
  lemma {:induction false} DrainDelivers(g: Setting, start: Sys, run: seq<Action>, y: Sys, x: ConnId) returns (z: Sys)
    requires LawfulEnv(g.e) && Start(start) && Leads(g, start, run, y) && BothHold(y, x)
    ensures y.taken <= |y.k.out| && Leads(g, y, Drain(|y.k.out| - y.taken), z)
    ensures z.k == y.k && Delivered(z.s.app, x, Home(z.s, x)) == y.k.mocks[x].sent
  {
    hide Reached, Possible, Inv, Delivered, Hears, Start, NotClosing, LawfulEnv, Drain;
    ReachedNotClosing(g, start, run, x);
    InvCursor(g, y);
    hide Leads;
    z := DrainHolds(g, y, |y.k.out| - y.taken, x);
    AllDelivered(g, z, x);
  }

  lemma {:induction false} NothingClosing(y: Sys, x: ConnId)
    requires Start(y)
    ensures NotClosing(y, x)
  {
  }

  lemma {:induction false} InvCursor(g: Setting, y: Sys)
    requires Inv(g, y)
    ensures y.taken <= |y.k.out|
  {
    hide RegistryOk, Housed, LinkOk, LinkOf, IdentityOk, SessionOk, ClientItems, Announced, KeysAgree;
  }
}
