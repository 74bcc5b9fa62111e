/** Safety of the tunnel server over whole runs, whatever arrives and whatever the application does. */
module ServerTheorems {
  import opened Bytes
  import opened Crypto
  import opened Messages
  import opened ServerSide

  // ---- what sending and application code can change ----

  /** A mock stays as it was, or is closed with one `close` event. */
  predicate MockEvolves(a: Mock, b: Mock) {
    b == a || (a.state == Open && b == a.(state := Closed, closes := a.closes + 1))
  }

  predicate Settled(s: Server) {
    forall m :: 0 <= m < |s.mocks| ==> s.mocks[m].state == Open || s.mocks[m].state == Closed
  }

  /** The log grows by closings and by what the application sends. */
  predicate QuietLog(s: Server, t: Server) {
    && |s.app| <= |t.app| && t.app[..|s.app|] == s.app
    && forall i :: |s.app| <= i < |t.app| ==> t.app[i].GotClose? || t.app[i].AppSent?
  }

  /** Only mocks close, clients leave, and messages and such events are added. */
  predicate AppEvolves(s: Server, t: Server) {
    && QuietLog(s, t) && s.out.Keys <= t.out.Keys
    && t.(out := s.out, drawn := s.drawn, app := s.app, clients := s.clients, mocks := s.mocks) == s
    && t.clients <= s.clients && |t.mocks| == |s.mocks|
    && forall m :: 0 <= m < |s.mocks| ==> MockEvolves(s.mocks[m], t.mocks[m])
  }

  lemma {:induction false} SendFrame(e: Env, s: Server, sock: Sock, m: Msg)
    ensures SendEncrypted(e, s, sock, m).(out := s.out, drawn := s.drawn) == s
    ensures s.out.Keys <= SendEncrypted(e, s, sock, m).out.Keys
  {
  }

  lemma {:induction false} QuietTwice(s: Server, t: Server, u: Server)
    requires QuietLog(s, t) && QuietLog(t, u)
    ensures QuietLog(s, u)
  {
    assert u.app[..|s.app|] == u.app[..|t.app|][..|s.app|];
    forall i | |s.app| <= i < |u.app|
      ensures u.app[i].GotClose? || u.app[i].AppSent?
    {
      assert i < |t.app| ==> u.app[i] == u.app[..|t.app|][i];
    }
  }

  lemma {:induction false} EvolvesTwice(s: Server, t: Server, u: Server)
    requires AppEvolves(s, t) && AppEvolves(t, u)
    ensures AppEvolves(s, u)
  {
    QuietTwice(s, t, u);
    hide QuietLog;
    forall m | 0 <= m < |s.mocks|
      ensures MockEvolves(s.mocks[m], u.mocks[m])
    {
      assert MockEvolves(s.mocks[m], t.mocks[m]) && MockEvolves(t.mocks[m], u.mocks[m]);
    }
  }

  lemma {:induction false} SettledEvolves(s: Server, t: Server)
    requires Settled(s) && AppEvolves(s, t)
    ensures Settled(t)
  {
    assert forall m :: 0 <= m < |s.mocks| ==> MockEvolves(s.mocks[m], t.mocks[m]);
  }

  lemma {:induction false} EmitCloseEvolves(s: Server, m: nat)
    requires Settled(s)
    ensures AppEvolves(s, EmitClose(s, m)) && (m < |s.mocks| ==> EmitClose(s, m).mocks[m].state == Closed)
  {
    if m < |s.mocks| && s.mocks[m].state == Open {
      var t := EmitClose(s, m);
      assert t.mocks == s.mocks[m := s.mocks[m].(state := Closed, closes := s.mocks[m].closes + 1)];
    } else {
      assert EmitClose(s, m) == s;
    }
  }

  lemma {:induction false} MockCloseEvolves(e: Env, s: Server, m: nat)
    requires Settled(s)
    ensures AppEvolves(s, MockClose(e, s, m)) && (m < |s.mocks| ==> MockClose(e, s, m).mocks[m].state == Closed)
  {
    hide SendEncrypted;
    if m < |s.mocks| {
      SendFrame(e, SetState(s, m, Closing), s.mocks[m].ctl, WsEvent(s.mocks[m].conn, ClosedByPeer));
    }
  }

  lemma {:induction false} CloseEachEvolves(e: Env, s: Server, order: seq<nat>)
    requires Settled(s)
    ensures AppEvolves(s, CloseEach(e, s, order))
    decreases |order|
  {
    if order != [] {
      hide MockClose;
      var t := MockClose(e, s, order[0]);
      MockCloseEvolves(e, s, order[0]);
      SettledEvolves(s, t);
      CloseEachEvolves(e, t, order[1..]);
      EvolvesTwice(s, t, CloseEach(e, t, order[1..]));
    }
  }

  lemma {:induction false} AppActEvolves(e: Env, s: Server, a: AppAction)
    requires Settled(s)
    ensures AppEvolves(s, AppAct(e, s, a))
  {
    hide SendEncrypted, MockClose, CloseEach;
    match a
    case DoSend(m, data) =>
      if m < |s.mocks| {
        SendFrame(e, Log(s, AppSent(s.mocks[m].conn, data)), s.mocks[m].ctl, WsMessage(s.mocks[m].conn, data));
      }
    case DoClose(m) =>
      MockCloseEvolves(e, s, m);
    case WssClose(order) =>
      CloseEachEvolves(e, s, order);
    case Respond(sock, req, content) =>
      SendFrame(e, s, sock, HttpResponse(req, content));
  }

  lemma {:induction false} AppRunEvolves(e: Env, s: Server, script: seq<AppAction>)
    requires Settled(s)
    ensures AppEvolves(s, AppRun(e, s, script))
    decreases |script|
  {
    if script != [] {
      hide AppAct;
      var t := AppAct(e, s, script[0]);
      AppActEvolves(e, s, script[0]);
      SettledEvolves(s, t);
      AppRunEvolves(e, t, script[1..]);
      EvolvesTwice(s, t, AppRun(e, t, script[1..]));
    }
  }

  lemma {:induction false} ClientLeaves(s: Server, t: Server, m: nat)
    requires AppEvolves(s, t)
    ensures AppEvolves(s, t.(clients := t.clients - {m}))
  {
    hide QuietLog, MockEvolves;
    QuietSame(s, t, t.(clients := t.clients - {m}));
  }

  lemma {:induction false} QuietSame(s: Server, t: Server, u: Server)
    requires QuietLog(s, t) && u.app == t.app
    ensures QuietLog(s, u)
  {
  }

  lemma {:induction false} ClosedStays(s: Server, t: Server, m: nat)
    requires AppEvolves(s, t) && m < |s.mocks| && s.mocks[m].state == Closed
    ensures t.mocks[m].state == Closed
  {
    hide QuietLog;
    assert MockEvolves(s.mocks[m], t.mocks[m]);
  }

  lemma {:induction false} RetireEvolves(e: Env, s: Server, m: nat, react: seq<AppAction>)
    requires Settled(s)
    ensures var t := Retire(e, s, m, react);
            AppEvolves(s, t) && m !in t.clients && (m < |s.mocks| ==> m < |t.mocks| && t.mocks[m].state == Closed)
  {
    hide AppRun, EmitClose, AppEvolves;
    if m < |s.mocks| && s.mocks[m].state != Closed {
      var t := EmitClose(s, m);
      var u := AppRun(e, t, react);
      EmitCloseEvolves(s, m);
      SettledEvolves(s, t);
      AppRunEvolves(e, t, react);
      EvolvesTwice(s, t, u);
      ClientLeaves(s, u, m);
      SameMocks(s, t);
      SameMocks(t, u);
      ClosedStays(t, u, m);
    } else {
      SelfEvolves(s);
      ClientLeaves(s, s, m);
    }
  }

  lemma {:induction false} SameMocks(s: Server, t: Server)
    requires AppEvolves(s, t)
    ensures |t.mocks| == |s.mocks|
  {
    hide QuietLog, MockEvolves;
  }

  // ---- the connection map and the client set under application code ----

  lemma {:induction false} MockCloseFields(e: Env, s: Server, m: nat)
    ensures MockClose(e, s, m).sockets == s.sockets && MockClose(e, s, m).clients == s.clients
  {
    hide SendEncrypted;
    if m < |s.mocks| {
      SendFrame(e, SetState(s, m, Closing), s.mocks[m].ctl, WsEvent(s.mocks[m].conn, ClosedByPeer));
    }
  }

  lemma {:induction false} CloseEachFields(e: Env, s: Server, order: seq<nat>)
    ensures CloseEach(e, s, order).sockets == s.sockets
    decreases |order|
  {
    hide MockClose;
    if order != [] {
      MockCloseFields(e, s, order[0]);
      CloseEachFields(e, MockClose(e, s, order[0]), order[1..]);
    }
  }

  lemma {:induction false} ActFields(e: Env, s: Server, a: AppAction)
    ensures AppAct(e, s, a).sockets == s.sockets
    ensures AppAct(e, s, a).clients == if a.WssClose? then {} else s.clients
  {
    hide SendEncrypted, MockClose, CloseEach;
    match a
    case DoSend(m, data) =>
      if m < |s.mocks| {
        SendFrame(e, Log(s, AppSent(s.mocks[m].conn, data)), s.mocks[m].ctl, WsMessage(s.mocks[m].conn, data));
      }
    case DoClose(m) =>
      MockCloseFields(e, s, m);
    case WssClose(order) =>
      CloseEachFields(e, s, order);
    case Respond(sock, req, content) =>
      SendFrame(e, s, sock, HttpResponse(req, content));
  }

  /** The application shuts the whole mock server down. */
  predicate ShutsDown(script: seq<AppAction>) {
    exists i :: 0 <= i < |script| && script[i].WssClose?
  }

  lemma {:induction false} ShutsDownHead(script: seq<AppAction>)
    requires script != []
    ensures ShutsDown(script) <==> script[0].WssClose? || ShutsDown(script[1..])
  {
    assert forall i :: 0 <= i < |script[1..]| ==> script[1..][i] == script[i + 1];
    if ShutsDown(script[1..]) {
      var i :| 0 <= i < |script[1..]| && script[1..][i].WssClose?;
      assert script[i + 1].WssClose?;
    }
  }

  /** Application code cannot touch the connection map, and it changes the client set only by clearing it. */
  lemma {:induction false} RunFields(e: Env, s: Server, script: seq<AppAction>)
    ensures AppRun(e, s, script).sockets == s.sockets
    ensures AppRun(e, s, script).clients == if ShutsDown(script) then {} else s.clients
    decreases |script|
  {
    if script != [] {
      ShutsDownHead(script);
      hide AppAct, ShutsDown;
      ActFields(e, s, script[0]);
      RunFields(e, AppAct(e, s, script[0]), script[1..]);
    }
  }

  // ---- the registry ----

  predicate SocketOk(s: Server, conn: ConnId)
    requires conn in s.sockets
  {
    var c := s.sockets[conn];
    c.mock < |s.mocks| && s.mocks[c.mock].conn == conn && s.mocks[c.mock].ctl == c.ctl
  }

  /** The entry of `sockets` for the mock's connection is this very mock. */
  predicate Registered(s: Server, m: nat)
    requires m < |s.mocks|
  {
    s.mocks[m].conn in s.sockets && s.sockets[s.mocks[m].conn].mock == m
  }

  /** A mock is open and registered, or closed after exactly one `close` event. */
  predicate MockOk(s: Server, m: nat)
    requires m < |s.mocks|
  {
    && s.mocks[m].conn in s.made && s.made[s.mocks[m].conn] == s.mocks[m].ctl
    && ((s.mocks[m].state == Open && s.mocks[m].closes == 0 && Registered(s, m))
        || (s.mocks[m].state == Closed && s.mocks[m].closes == 1))
  }

  /** The maps agree; in particular the clients are among the mocks that `sockets` holds. */
  ghost predicate RegistryOk(s: Server) {
    && (forall conn :: conn in s.sockets ==> SocketOk(s, conn))
    && (forall m :: m in s.clients ==> m < |s.mocks| && Registered(s, m))
    && (forall m :: 0 <= m < |s.mocks| ==> MockOk(s, m))
  }

  /** A mock that takes messages was made on the socket of its entry. */
  lemma {:induction false} ReceiverIsMade(s: Server, c: ConnId)
    requires RegistryOk(s) && Receives(s, c)
    ensures c in s.made && s.made[c] == s.sockets[c].ctl
  {
    assert SocketOk(s, c) && MockOk(s, s.sockets[c].mock);
  }

  lemma {:induction false} RegistrySettled(s: Server)
    requires RegistryOk(s)
    ensures Settled(s)
  {
    forall m | 0 <= m < |s.mocks|
      ensures s.mocks[m].state == Open || s.mocks[m].state == Closed
    {
      assert MockOk(s, m);
    }
  }

  lemma {:induction false} RegistryEvolves(s: Server, t: Server)
    requires RegistryOk(s) && AppEvolves(s, t)
    ensures RegistryOk(t)
  {
    forall m | 0 <= m < |t.mocks|
      ensures MockOk(t, m)
    {
      assert MockOk(s, m) && MockEvolves(s.mocks[m], t.mocks[m]);
    }
    forall conn | conn in t.sockets
      ensures SocketOk(t, conn)
    {
      assert SocketOk(s, conn);
      assert MockEvolves(s.mocks[s.sockets[conn].mock], t.mocks[s.sockets[conn].mock]);
    }
    forall m | m in t.clients
      ensures m < |t.mocks| && Registered(t, m)
    {
      assert MockEvolves(s.mocks[m], t.mocks[m]);
    }
  }

  lemma {:induction false} AddMockOk(s: Server, sock: Sock, conn: ConnId)
    requires RegistryOk(s) && conn !in s.made
    ensures RegistryOk(AddMock(s, sock, conn))
  {
    var t := AddMock(s, sock, conn);
    forall c | c in s.sockets
      ensures c != conn
    {
      assert SocketOk(s, c) && MockOk(s, s.sockets[c].mock);
    }
    forall m | 0 <= m < |t.mocks|
      ensures MockOk(t, m)
    {
      assert m < |s.mocks| ==> MockOk(s, m);
    }
    forall c | c in t.sockets
      ensures SocketOk(t, c)
    {
      assert c != conn ==> SocketOk(s, c);
    }
    forall m | m in t.clients
      ensures m < |t.mocks| && Registered(t, m)
    {
      assert m < |s.mocks| ==> MockOk(s, m);
    }
  }

  lemma {:induction false} SendOk(e: Env, s: Server, sock: Sock, m: Msg)
    requires RegistryOk(s)
    ensures RegistryOk(SendEncrypted(e, s, sock, m))
  {
    hide SendEncrypted;
    SendFrame(e, s, sock, m);
    RegistryEvolves(s, SendEncrypted(e, s, sock, m));
  }

  lemma {:induction false} AppRunOk(e: Env, s: Server, script: seq<AppAction>)
    requires RegistryOk(s)
    ensures RegistryOk(AppRun(e, s, script))
  {
    hide AppRun;
    RegistrySettled(s);
    AppRunEvolves(e, s, script);
    RegistryEvolves(s, AppRun(e, s, script));
  }

  /** Dropping entries of mocks that are closed and no longer clients keeps the registry in order. */
  lemma {:induction false} DropOk(s: Server, gone: set<ConnId>)
    requires RegistryOk(s)
    requires forall conn :: conn in gone && conn in s.sockets ==>
      && s.sockets[conn].mock !in s.clients && s.sockets[conn].mock < |s.mocks|
      && s.mocks[s.sockets[conn].mock].state == Closed
    ensures RegistryOk(s.(sockets := s.sockets - gone))
  {
    var t := s.(sockets := s.sockets - gone);
    forall m | 0 <= m < |t.mocks|
      ensures MockOk(t, m)
    {
      assert MockOk(s, m);
    }
    forall conn | conn in t.sockets
      ensures SocketOk(t, conn)
    {
      assert SocketOk(s, conn);
    }
  }

  lemma {:induction false} HandleCloseOk(e: Env, s: Server, conn: ConnId, react: seq<AppAction>)
    requires RegistryOk(s)
    ensures RegistryOk(HandleClose(e, s, conn, react))
  {
    if conn in s.sockets {
      hide Retire;
      var m := s.sockets[conn].mock;
      assert SocketOk(s, conn);
      RegistrySettled(s);
      RetireEvolves(e, s, m, react);
      var t := Retire(e, s, m, react);
      RegistryEvolves(s, t);
      DropOk(t, {conn});
    }
  }

  lemma {:induction false} DispatchOk(e: Env, s: Server, sock: Sock, m: Msg, react: seq<AppAction>)
    requires RegistryOk(s) && (m.WsConnect? ==> m.conn !in s.made)
    ensures RegistryOk(Dispatch(e, s, sock, m, react))
  {
    hide AppRun, SendEncrypted, HandleClose;
    match m
    case HttpRequest(req, _) =>
      FieldsOnlyOk(s, Log(s, GotRequest(sock, req)));
    case WsConnect(conn) =>
      if s.hono && sock !in s.contexts {
        SendOk(e, s, sock, WsEvent(conn, Errored));
      } else {
        var t := AddMock(s, sock, conn);
        AddMockOk(s, sock, conn);
        AppRunOk(e, t, react);
        SendOk(e, AppRun(e, t, react), sock, WsEvent(conn, Opened));
      }
    case WsMessage(conn, data) =>
      FieldsOnlyOk(s, Log(s, GotMessage(sock, conn, data)));
      AppRunOk(e, Log(s, GotMessage(sock, conn, data)), react);
    case WsClose(conn) =>
      HandleCloseOk(e, s, conn, react);
    case _ =>
  }

  /** Every entry points at a mock of its id. */
  ghost predicate EntriesOk(s: Server) {
    Settled(s) && forall conn :: conn in s.sockets ==>
      s.sockets[conn].mock < |s.mocks| && s.mocks[s.sockets[conn].mock].conn == conn
  }

  lemma {:induction false} RegistryEntries(s: Server)
    requires RegistryOk(s)
    ensures EntriesOk(s)
  {
    RegistrySettled(s);
    assert forall conn :: conn in s.sockets ==> SocketOk(s, conn);
  }

  lemma {:induction false} EntriesEvolve(s: Server, t: Server)
    requires EntriesOk(s) && AppEvolves(s, t)
    ensures EntriesOk(t)
  {
    SettledEvolves(s, t);
    forall conn | conn in t.sockets
      ensures t.sockets[conn].mock < |t.mocks| && t.mocks[t.sockets[conn].mock].conn == conn
    {
      assert MockEvolves(s.mocks[s.sockets[conn].mock], t.mocks[s.sockets[conn].mock]);
    }
  }

  /** The connection ids in the order are retired; nothing else about the registry changes. */
  ghost predicate EachRetired(s: Server, t: Server, sock: Sock, order: seq<ConnId>) {
    && AppEvolves(s, t)
    && forall conn :: conn in order && conn in s.sockets && s.sockets[conn].ctl == sock ==>
         && s.sockets[conn].mock < |t.mocks| && s.sockets[conn].mock !in t.clients
         && t.mocks[s.sockets[conn].mock].state == Closed
  }

  lemma {:induction false} EachRetiredOne(s: Server, t: Server, u: Server, sock: Sock, front: seq<ConnId>, conn: ConnId)
    requires EachRetired(s, t, sock, front) && AppEvolves(t, u)
    requires conn in s.sockets && s.sockets[conn].ctl == sock ==>
      && s.sockets[conn].mock < |u.mocks| && s.sockets[conn].mock !in u.clients
      && u.mocks[s.sockets[conn].mock].state == Closed
    ensures EachRetired(s, u, sock, front + [conn])
  {
    EvolvesTwice(s, t, u);
    hide QuietLog;
    assert forall k :: 0 <= k < |t.mocks| ==> MockEvolves(t.mocks[k], u.mocks[k]);
  }

  lemma {:induction false} EntriesRetired(e: Env, s: Server, sock: Sock, order: seq<ConnId>,
                                          react: nat -> seq<AppAction>)
    requires EntriesOk(s)
    ensures EachRetired(s, RetireEach(e, s, sock, order, react), sock, order)
    decreases |order|
  {
    if order != [] {
      var front, conn := order[..|order| - 1], order[|order| - 1];
      EntriesRetired(e, s, sock, front, react);
      hide Retire;
      var t := RetireEach(e, s, sock, front, react);
      EntriesEvolve(s, t);
      assert order == front + [conn];
      var m := if conn in t.sockets then t.sockets[conn].mock else 0;
      RetireEvolves(e, t, m, react(|order| - 1));
      SelfEvolves(t);
      hide AppEvolves, EntriesOk;
      EachRetiredOne(s, t, RetireEach(e, s, sock, order, react), sock, front, conn);
    }
  }

  lemma {:induction false} SelfEvolves(s: Server)
    ensures AppEvolves(s, s)
  {
  }

  lemma {:induction false} RetireEachEvolves(e: Env, s: Server, sock: Sock, order: seq<ConnId>,
                                             react: nat -> seq<AppAction>)
    requires RegistryOk(s)
    ensures AppEvolves(s, RetireEach(e, s, sock, order, react))
    ensures EachRetired(s, RetireEach(e, s, sock, order, react), sock, order)
  {
    RegistryEntries(s);
    EntriesRetired(e, s, sock, order, react);
  }

  lemma {:induction false} ForgetOk(s: Server, sock: Sock)
    requires RegistryOk(s)
    ensures RegistryOk(Forget(s, sock))
  {
    var t := Forget(s, sock);
    assert forall m :: 0 <= m < |s.mocks| ==> MockOk(s, m) ==> MockOk(t, m);
    assert forall conn :: conn in s.sockets ==> SocketOk(s, conn) ==> SocketOk(t, conn);
    assert forall m :: m in s.clients ==> Registered(s, m) ==> Registered(t, m);
  }

  /** The mock, if there is one of that number, has emitted `close` exactly once. */
  predicate ClosedOnce(mocks: seq<Mock>, m: nat) {
    m < |mocks| ==> mocks[m].state == Closed && mocks[m].closes == 1
  }

  /** The entries and the key of the socket are gone, other entries are not, and every mock made on it closed once. */
  ghost predicate ControlGone(s: Server, t: Server, sock: Sock) {
    && t.sockets == s.sockets - Owned(s, sock)
    && t.keys == s.keys - {sock} && t.open == s.open - {sock} && t.contexts == s.contexts - {sock}
    && t.clients <= s.clients && |t.mocks| == |s.mocks| && t.made == s.made
    && (forall m :: 0 <= m < |s.mocks| ==> MockEvolves(s.mocks[m], t.mocks[m]))
    && (forall m :: 0 <= m < |t.mocks| && t.mocks[m].ctl == sock ==> ClosedOnce(t.mocks, m))
  }

  /**
   Closing a control socket removes exactly its own entries and its own key, leaves the entries of
   other sockets alone, and every mock ever made on it has then emitted `close` exactly once,
   whatever the application does in the close callbacks and whatever it closed before.
   */
  lemma {:induction false} ControlClosedExact(e: Env, s: Server, sock: Sock, order: seq<ConnId>,
                                              react: nat -> seq<AppAction>)
    requires RegistryOk(s) && forall conn :: conn in Owned(s, sock) ==> conn in order
    ensures RegistryOk(ControlClosed(e, s, sock, order, react))
    ensures ControlGone(s, ControlClosed(e, s, sock, order, react), sock)
  {
    var f := Forget(s, sock);
    ForgetOk(s, sock);
    RetireEachEvolves(e, f, sock, order, react);
    hide RetireEach, QuietLog;
    var t := RetireEach(e, f, sock, order, react);
    RegistryEvolves(f, t);
    assert Owned(t, sock) == Owned(s, sock);
    DropOk(t, Owned(t, sock));
    forall m | 0 <= m < |t.mocks| && t.mocks[m].ctl == sock
      ensures ClosedOnce(t.mocks, m)
    {
      assert MockOk(t, m);
      if Registered(t, m) {
        assert SocketOk(t, t.mocks[m].conn);
        assert t.mocks[m].conn in Owned(s, sock);
      }
    }
  }

  // ---- what the handlers promise ----

  lemma {:induction false} MockCloseExact(e: Env, s: Server, m: nat)
    requires RegistryOk(s)
    ensures RegistryOk(MockClose(e, s, m)) && ClosedOnce(MockClose(e, s, m).mocks, m)
  {
    hide MockClose;
    RegistrySettled(s);
    MockCloseEvolves(e, s, m);
    RegistryEvolves(s, MockClose(e, s, m));
    if m < |s.mocks| {
      assert MockOk(MockClose(e, s, m), m);
    }
  }

  lemma {:induction false} ClosedOnceStays(s: Server, t: Server, m: nat)
    requires AppEvolves(s, t) && ClosedOnce(s.mocks, m)
    ensures ClosedOnce(t.mocks, m)
  {
    hide QuietLog;
    if m < |s.mocks| {
      assert MockEvolves(s.mocks[m], t.mocks[m]);
    }
  }

  lemma {:induction false} CloseEachExact(e: Env, s: Server, order: seq<nat>)
    requires RegistryOk(s)
    ensures RegistryOk(CloseEach(e, s, order))
    ensures forall m :: m in order ==> ClosedOnce(CloseEach(e, s, order).mocks, m)
    decreases |order|
  {
    hide MockClose, RegistryOk, ClosedOnce, AppEvolves;
    if order != [] {
      var t := MockClose(e, s, order[0]);
      MockCloseExact(e, s, order[0]);
      RegistrySettled(t);
      CloseEachEvolves(e, t, order[1..]);
      ClosedOnceStays(t, CloseEach(e, t, order[1..]), order[0]);
      CloseEachExact(e, t, order[1..]);
    }
  }

  lemma {:induction false} WssCloseExact(e: Env, s: Server, order: seq<nat>)
    requires RegistryOk(s)
    ensures var t := AppAct(e, s, WssClose(order));
            RegistryOk(t) && t.clients == {} && forall m :: m in order ==> ClosedOnce(t.mocks, m)
  {
    hide CloseEach, AppEvolves;
    CloseEachExact(e, s, order);
    RegistrySettled(s);
    AppActEvolves(e, s, WssClose(order));
    RegistryEvolves(s, AppAct(e, s, WssClose(order)));
  }

  /** A `ws_close` removes exactly its entry, and the mock has emitted `close` exactly once and is no client. */
  lemma {:induction false} HandleCloseExact(e: Env, s: Server, conn: ConnId, react: seq<AppAction>)
    requires RegistryOk(s)
    ensures var t := HandleClose(e, s, conn, react);
            && RegistryOk(t) && t.sockets == s.sockets - {conn}
            && (conn in s.sockets ==> ClosedOnce(t.mocks, s.sockets[conn].mock) && s.sockets[conn].mock !in t.clients)
  {
    HandleCloseOk(e, s, conn, react);
    if conn in s.sockets {
      var m := s.sockets[conn].mock;
      RegistrySettled(s);
      RetireEvolves(e, s, m, react);
      assert SocketOk(s, conn);
      hide Retire;
      assert MockOk(HandleClose(e, s, conn, react), m);
    }
  }

  /** An accepted connect registers one new open mock under the id and leaves the other entries alone. */
  lemma {:induction false} ConnectExact(e: Env, s: Server, sock: Sock, conn: ConnId, react: seq<AppAction>)
    requires RegistryOk(s) && conn !in s.made
    ensures var t := HandleConnect(e, s, sock, conn, react);
            && RegistryOk(t)
            && (s.hono && sock !in s.contexts ==> t.sockets == s.sockets && t.made == s.made)
            && (!(s.hono && sock !in s.contexts) ==>
                  t.sockets == s.sockets[conn := Conn(|s.mocks|, sock)] && t.made == s.made[conn := sock])
  {
    DispatchOk(e, s, sock, WsConnect(conn), react);
    RegistrySettled(s);
    hide AppRun, SendEncrypted, RegistryOk;
    SendFrame(e, s, sock, WsEvent(conn, Errored));
    var t := AddMock(s, sock, conn);
    AppRunEvolves(e, t, react);
    SendFrame(e, AppRun(e, t, react), sock, WsEvent(conn, Opened));
  }

  // ---- whole runs ----

  datatype Step =
    | Attaches(sock: Sock, secret: seq<byte>, fetched: Option<seq<byte>>)
    | Control(sock: Sock, wire: Wire, react: seq<AppAction>)
    | AppActs(script: seq<AppAction>)
    | TransportLost(sock: Sock)
    | Closes(sock: Sock, order: seq<ConnId>, callbacks: nat -> seq<AppAction>)
    | SweepKeys(stale: set<Sock>)

  /** The envelope opens under the key that its control socket holds. */
  predicate Openable(e: Env, s: Server, sock: Sock, w: Wire) {
    !w.ClientKx? && sock in s.keys && OpenEnvelope(e, s.keys[sock], w).Some?
  }

  /**
   A socket is attached once and speaks while it is open; connection ids are fresh; the close
   handler visits every entry of its socket; keys are swept only for sockets that are not open.
   Nothing is assumed about the messages.
   */
  predicate Enabled(e: Env, s: Server, step: Step) {
    match step
    case Attaches(sock, _, _) => sock !in s.open && sock !in s.out && sock !in s.keys
    case Control(sock, w, _) =>
      sock in s.open
      && (Openable(e, s, sock, w) && OpenEnvelope(e, s.keys[sock], w).value.WsConnect?
          ==> OpenEnvelope(e, s.keys[sock], w).value.conn !in s.made)
    case Closes(sock, order, _) => forall conn :: conn in Owned(s, sock) ==> conn in order
    case SweepKeys(stale) => stale !! s.open
    case _ => true
  }

  function Next(e: Env, s: Server, step: Step): Server {
    match step
    case Attaches(sock, secret, fetched) => Attach(e, s, sock, secret, fetched)
    case Control(sock, w, react) => HandleControl(e, s, sock, w, react)
    case AppActs(script) => AppRun(e, s, script)
    case TransportLost(sock) => s.(open := s.open - {sock})
    case Closes(sock, order, callbacks) => ControlClosed(e, s, sock, order, callbacks)
    case SweepKeys(stale) => s.(keys := s.keys - stale)
  }

  predicate ValidRun(e: Env, s: Server, run: seq<Step>)
    decreases |run|
  {
    run != [] ==> Enabled(e, s, run[0]) && ValidRun(e, Next(e, s, run[0]), run[1..])
  }

  function After(e: Env, s: Server, run: seq<Step>): Server
    decreases |run|
  {
    if run == [] then s else After(e, Next(e, s, run[0]), run[1..])
  }

  /** The server as it is constructed. */
  predicate Initial(s: Server) {
    && s.keys == map[] && s.contexts == {} && s.open == {} && s.sockets == map[] && s.clients == {}
    && s.mocks == [] && s.made == map[] && s.out == map[] && s.app == [] && s.quote.None? && !s.keyReady
  }

  lemma {:induction false} FieldsOnlyOk(s: Server, t: Server)
    requires RegistryOk(s) && t.sockets == s.sockets && t.clients == s.clients && t.mocks == s.mocks && t.made == s.made
    ensures RegistryOk(t)
  {
    assert forall m :: 0 <= m < |s.mocks| ==> MockOk(s, m) ==> MockOk(t, m);
    assert forall conn :: conn in s.sockets ==> SocketOk(s, conn) ==> SocketOk(t, conn);
    assert forall m :: m in s.clients ==> Registered(s, m) ==> Registered(t, m);
  }

  lemma {:induction false} RegistryControl(e: Env, s: Server, step: Step)
    requires RegistryOk(s) && Enabled(e, s, step) && step.Control?
    ensures RegistryOk(Next(e, s, step))
  {
    hide AppRun, Dispatch, ControlClosed, BoxSealOpen, OpenEnvelope, RegistryOk, Attach;
    if Openable(e, s, step.sock, step.wire) {
      DispatchOk(e, s, step.sock, OpenEnvelope(e, s.keys[step.sock], step.wire).value, step.react);
    } else {
      FieldsOnlyOk(s, Next(e, s, step));
    }
  }

  lemma {:induction false} AnnounceFrame(s: Server, sock: Sock)
    ensures var t := Announce(s, sock);
            && t.(open := s.open, out := s.out) == s && t.open <= s.open && s.out.Keys <= t.out.Keys
            && (sock in t.open ==> sock in t.out) && (forall y :: y != sock ==> (y in t.open <==> y in s.open))
  {
    if s.quote.None? {
      assert Announce(s, sock) == s.(open := s.open - {sock});
    } else {
      assert Announce(s, sock).out.Keys == s.out.Keys + {sock};
    }
  }

  lemma {:induction false} AttachFrame(e: Env, s: Server, sock: Sock, secret: seq<byte>, fetched: Option<seq<byte>>)
    ensures var t := Attach(e, s, sock, secret, fetched);
            && t.sockets == s.sockets && t.clients == s.clients && t.mocks == s.mocks && t.made == s.made
            && t.app == s.app && t.keys == s.keys && t.open <= s.open + {sock}
            && s.out.Keys <= t.out.Keys && (sock in t.open ==> sock in s.open || sock in t.out)
            && (forall y :: y != sock ==> (y in t.open <==> y in s.open))
  {
    hide Announce;
    var enrolled := Enroll(s, sock);
    AnnounceFrame(if s.keyReady then enrolled else AfterGetQuote(e, enrolled, secret, fetched), sock);
  }

  lemma {:induction false} RegistryStep(e: Env, s: Server, step: Step)
    requires RegistryOk(s) && Enabled(e, s, step)
    ensures RegistryOk(Next(e, s, step))
  {
    hide AppRun, HandleControl, ControlClosed, RegistryOk, Openable, Attach;
    match step
    case Attaches(sock, secret, fetched) =>
      AttachFrame(e, s, sock, secret, fetched);
      FieldsOnlyOk(s, Next(e, s, step));
    case Control(_, _, _) =>
      RegistryControl(e, s, step);
    case AppActs(script) =>
      AppRunOk(e, s, script);
    case Closes(sock, order, callbacks) =>
      ControlClosedExact(e, s, sock, order, callbacks);
    case _ =>
      FieldsOnlyOk(s, Next(e, s, step));
  }

  lemma {:induction false} RegistryAfter(e: Env, s: Server, run: seq<Step>)
    requires RegistryOk(s) && ValidRun(e, s, run)
    ensures RegistryOk(After(e, s, run))
    decreases |run|
  {
    if run != [] {
      RegistryStep(e, s, run[0]);
      RegistryAfter(e, Next(e, s, run[0]), run[1..]);
    }
  }

  /**
   In every reachable state the clients that the application sees are mocks that `sockets` holds,
   and every mock is open and registered or has emitted `close` exactly once.
   */
  lemma {:induction false} RegistryConsistent(e: Env, s: Server, run: seq<Step>)
    requires Initial(s) && ValidRun(e, s, run)
    ensures var t := After(e, s, run);
            && (forall m :: m in t.clients ==> m < |t.mocks| && Registered(t, m))
            && (forall m :: 0 <= m < |t.mocks| ==> MockOk(t, m))
  {
    RegistryAfter(e, s, run);
  }

  // ---- gating ----

  /** A message that does not open under an installed key can at most install the first key of its socket. */
  lemma {:induction false} Gated(e: Env, s: Server, sock: Sock, w: Wire, react: seq<AppAction>)
    requires !Openable(e, s, sock, w)
    ensures HandleControl(e, s, sock, w, react).(keys := s.keys) == s
    ensures sock in s.keys || !w.ClientKx? ==> HandleControl(e, s, sock, w, react) == s
    ensures forall k :: k in s.keys ==>
      k in HandleControl(e, s, sock, w, react).keys && HandleControl(e, s, sock, w, react).keys[k] == s.keys[k]
  {
    hide BoxSealOpen, OpenEnvelope, Dispatch;
  }

  predicate EventVia(event: AppEvent, x: Sock) {
    (event.GotRequest? || event.GotConnection? || event.GotMessage?) && event.via == x
  }

  /** Nothing that came over `x` has reached the application or the registry. */
  ghost predicate NoTrace(s: Server, x: Sock) {
    && (forall i :: 0 <= i < |s.app| ==> !EventVia(s.app[i], x))
    && (forall m :: 0 <= m < |s.mocks| ==> s.mocks[m].ctl != x)
  }

  lemma {:induction false} QuietKeepsNoTrace(s: Server, t: Server, x: Sock)
    requires NoTrace(s, x) && AppEvolves(s, t)
    ensures NoTrace(t, x)
  {
    forall i | 0 <= i < |t.app|
      ensures !EventVia(t.app[i], x)
    {
      assert i < |s.app| ==> t.app[i] == t.app[..|s.app|][i];
    }
    forall m | 0 <= m < |t.mocks|
      ensures t.mocks[m].ctl != x
    {
      assert MockEvolves(s.mocks[m], t.mocks[m]);
    }
  }

  lemma {:induction false} NoTraceApp(e: Env, s: Server, script: seq<AppAction>, x: Sock)
    requires NoTrace(s, x) && Settled(s)
    ensures NoTrace(AppRun(e, s, script), x)
  {
    hide AppRun;
    AppRunEvolves(e, s, script);
    QuietKeepsNoTrace(s, AppRun(e, s, script), x);
  }

  lemma {:induction false} NoTraceDispatch(e: Env, s: Server, sock: Sock, m: Msg, react: seq<AppAction>, x: Sock)
    requires NoTrace(s, x) && RegistryOk(s) && sock != x && (m.WsConnect? ==> m.conn !in s.made)
    ensures NoTrace(Dispatch(e, s, sock, m, react), x)
  {
    RegistrySettled(s);
    hide AppRun, SendEncrypted, Retire, RegistryOk;
    match m
    case WsConnect(conn) =>
      SendFrame(e, s, sock, WsEvent(conn, Errored));
      var t := AddMock(s, sock, conn);
      NoTraceApp(e, t, react, x);
      SendFrame(e, AppRun(e, t, react), sock, WsEvent(conn, Opened));
    case WsMessage(conn, data) =>
      NoTraceApp(e, Log(s, GotMessage(sock, conn, data)), react, x);
    case WsClose(conn) =>
      if conn in s.sockets {
        RetireEvolves(e, s, s.sockets[conn].mock, react);
        QuietKeepsNoTrace(s, Retire(e, s, s.sockets[conn].mock, react), x);
      }
    case _ =>
  }

  lemma {:induction false} NoTraceStep(e: Env, s: Server, step: Step, x: Sock)
    requires NoTrace(s, x) && RegistryOk(s) && Enabled(e, s, step)
    requires step.Control? && step.sock == x ==> !Openable(e, s, x, step.wire)
    ensures NoTrace(Next(e, s, step), x)
  {
    hide AppRun, Dispatch, RetireEach, BoxSealOpen, OpenEnvelope, RegistryOk, Attach;
    match step
    case Attaches(sock, secret, fetched) =>
      AttachFrame(e, s, sock, secret, fetched);
    case Control(sock, w, react) =>
      if Openable(e, s, sock, w) {
        NoTraceDispatch(e, s, sock, OpenEnvelope(e, s.keys[sock], w).value, react, x);
      } else {
        Gated(e, s, sock, w, react);
      }
    case AppActs(script) =>
      RegistrySettled(s);
      NoTraceApp(e, s, script, x);
    case Closes(sock, order, callbacks) =>
      var f := Forget(s, sock);
      ForgetOk(s, sock);
      RetireEachEvolves(e, f, sock, order, callbacks);
      QuietKeepsNoTrace(f, RetireEach(e, f, sock, order, callbacks), x);
    case _ =>
  }

  /** Socket `x` never presents, while it holds a key, an envelope that opens under it. */
  predicate NeverOpens(e: Env, s: Server, run: seq<Step>, x: Sock)
    decreases |run|
  {
    run != [] ==>
      && (run[0].Control? && run[0].sock == x ==> !Openable(e, s, x, run[0].wire))
      && NeverOpens(e, Next(e, s, run[0]), run[1..], x)
  }

  /**
   Over every run: a socket that never presents an envelope that opens under its installed key
   leaves no trace. No request, connection or message of it reaches the application, and no mock
   is made for it.
   */
  lemma {:induction false} UnopenedLeavesNoTrace(e: Env, s: Server, run: seq<Step>, x: Sock)
    requires RegistryOk(s) && NoTrace(s, x) && ValidRun(e, s, run) && NeverOpens(e, s, run, x)
    ensures NoTrace(After(e, s, run), x)
    decreases |run|
  {
    if run != [] {
      RegistryStep(e, s, run[0]);
      NoTraceStep(e, s, run[0], x);
      UnopenedLeavesNoTrace(e, Next(e, s, run[0]), run[1..], x);
    }
  }

  // ---- keys ----

  /** Messages and application code leave `open` and the installed keys alone. */
  lemma {:induction false} DispatchKeepsKeys(e: Env, s: Server, sock: Sock, m: Msg, react: seq<AppAction>)
    requires Settled(s)
    ensures var t := Dispatch(e, s, sock, m, react);
            t.keys == s.keys && t.open == s.open && t.out.Keys >= s.out.Keys
  {
    hide AppRun, SendEncrypted, Retire;
    match m
    case WsConnect(conn) =>
      SendFrame(e, s, sock, WsEvent(conn, Errored));
      var t := AddMock(s, sock, conn);
      AppRunEvolves(e, t, react);
      SendFrame(e, AppRun(e, t, react), sock, WsEvent(conn, Opened));
    case WsMessage(conn, data) =>
      AppRunEvolves(e, Log(s, GotMessage(sock, conn, data)), react);
    case WsClose(conn) =>
      if conn in s.sockets {
        RetireEvolves(e, s, s.sockets[conn].mock, react);
      }
    case _ =>
  }

  predicate KeysKept(s: Server, t: Server, x: Sock) {
    && t.open <= t.out.Keys && s.out.Keys <= t.out.Keys
    && (x in s.out && x !in s.open ==> x !in t.open)
    && (x in s.keys && x in s.open && x in t.open ==> x in t.keys && t.keys[x] == s.keys[x])
  }

  lemma {:induction false} KeyControl(e: Env, s: Server, step: Step, x: Sock)
    requires RegistryOk(s) && Enabled(e, s, step) && s.open <= s.out.Keys && step.Control?
    ensures KeysKept(s, Next(e, s, step), x)
  {
    RegistrySettled(s);
    hide AppRun, Dispatch, ControlClosed, BoxSealOpen, OpenEnvelope, RegistryOk, Attach;
    if Openable(e, s, step.sock, step.wire) {
      DispatchKeepsKeys(e, s, step.sock, OpenEnvelope(e, s.keys[step.sock], step.wire).value, step.react);
    } else {
      Gated(e, s, step.sock, step.wire, step.react);
    }
  }

  /**
   One step: an open socket was announced to, a lost one stays lost, and a key changes only by going with its socket.
   */
  lemma {:induction false} KeyStep(e: Env, s: Server, step: Step, x: Sock)
    requires RegistryOk(s) && Enabled(e, s, step) && s.open <= s.out.Keys
    ensures KeysKept(s, Next(e, s, step), x)
  {
    RegistrySettled(s);
    hide AppRun, HandleControl, RetireEach, RegistryOk, Openable, Attach;
    match step
    case Attaches(sock, secret, fetched) =>
      AttachFrame(e, s, sock, secret, fetched);
    case Control(_, _, _) =>
      KeyControl(e, s, step, x);
    case AppActs(script) =>
      AppRunEvolves(e, s, script);
    case Closes(sock, order, callbacks) =>
      var f := Forget(s, sock);
      ForgetOk(s, sock);
      RetireEachEvolves(e, f, sock, order, callbacks);
    case _ =>
  }

  /** Every connection was made on a socket that had been announced to. */
  ghost predicate Housed(s: Server) {
    s.open <= s.out.Keys && forall conn :: conn in s.made ==> s.made[conn] in s.out
  }

  lemma {:induction false} DispatchMade(e: Env, s: Server, sock: Sock, m: Msg, react: seq<AppAction>)
    requires Settled(s)
    ensures var t := Dispatch(e, s, sock, m, react);
            t.made == s.made || (m.WsConnect? && t.made == s.made[m.conn := sock])
  {
    hide AppRun, SendEncrypted, Retire;
    match m
    case WsConnect(conn) =>
      SendFrame(e, s, sock, WsEvent(conn, Errored));
      var t := AddMock(s, sock, conn);
      AppRunEvolves(e, t, react);
      SendFrame(e, AppRun(e, t, react), sock, WsEvent(conn, Opened));
    case WsMessage(conn, data) =>
      AppRunEvolves(e, Log(s, GotMessage(sock, conn, data)), react);
    case WsClose(conn) =>
      if conn in s.sockets {
        RetireEvolves(e, s, s.sockets[conn].mock, react);
      }
    case _ =>
  }

  /** The message that a step opens at the server, if it is one and opens. */
  function Presented(e: Env, s: Server, step: Step): Option<Msg> {
    if step.Control? && Openable(e, s, step.sock, step.wire) then OpenEnvelope(e, s.keys[step.sock], step.wire)
    else None
  }

  lemma {:induction false} ControlMade(e: Env, s: Server, step: Step)
    requires RegistryOk(s) && Enabled(e, s, step) && step.Control?
    ensures var t, m := Next(e, s, step), Presented(e, s, step);
            || t.made == s.made
            || (m.Some? && m.value.WsConnect? && m.value.conn !in s.made && t.made == s.made[m.value.conn := step.sock])
  {
    RegistrySettled(s);
    hide Dispatch, BoxSealOpen, OpenEnvelope, RegistryOk;
    if Openable(e, s, step.sock, step.wire) {
      DispatchMade(e, s, step.sock, OpenEnvelope(e, s.keys[step.sock], step.wire).value, step.react);
    }
  }

  /** Only a connect adds to `made`, and only its own id. */
  lemma {:induction false} StepMade(e: Env, s: Server, step: Step)
    requires RegistryOk(s) && Enabled(e, s, step)
    ensures var t, m := Next(e, s, step), Presented(e, s, step);
            || t.made == s.made
            || (m.Some? && m.value.WsConnect? && m.value.conn !in s.made && t.made == s.made[m.value.conn := step.sock])
  {
    RegistrySettled(s);
    hide AppRun, RetireEach, RegistryOk, Attach, HandleControl, Openable, QuietLog, MockEvolves;
    match step
    case Attaches(sock, secret, fetched) =>
      AttachFrame(e, s, sock, secret, fetched);
    case Control(sock, w, react) =>
      ControlMade(e, s, step);
    case AppActs(script) =>
      AppRunEvolves(e, s, script);
    case Closes(sock, order, callbacks) =>
      ForgetOk(s, sock);
      RetireEachEvolves(e, Forget(s, sock), sock, order, callbacks);
    case _ =>
  }

  lemma {:induction false} HousedStep(e: Env, s: Server, step: Step)
    requires RegistryOk(s) && Enabled(e, s, step) && Housed(s)
    ensures Housed(Next(e, s, step))
  {
    hide Next, RegistryOk;
    StepMade(e, s, step);
    KeyStep(e, s, step, 0);
  }

  lemma {:induction false} LostStaysLost(e: Env, s: Server, run: seq<Step>, x: Sock)
    requires RegistryOk(s) && ValidRun(e, s, run) && s.open <= s.out.Keys && x in s.out && x !in s.open
    ensures x !in After(e, s, run).open
    decreases |run|
  {
    if run != [] {
      KeyStep(e, s, run[0], x);
      RegistryStep(e, s, run[0]);
      LostStaysLost(e, Next(e, s, run[0]), run[1..], x);
    }
  }

  /** Over every run, the key of a socket that is still open is the key that was installed first. */
  lemma {:induction false} KeyNeverChanges(e: Env, s: Server, run: seq<Step>, x: Sock)
    requires RegistryOk(s) && ValidRun(e, s, run) && s.open <= s.out.Keys && x in s.keys && x in s.open
    requires x in After(e, s, run).open
    ensures x in After(e, s, run).keys && After(e, s, run).keys[x] == s.keys[x]
    decreases |run|
  {
    if run != [] {
      var t := Next(e, s, run[0]);
      KeyStep(e, s, run[0], x);
      RegistryStep(e, s, run[0]);
      if x in t.open {
        KeyNeverChanges(e, t, run[1..], x);
      } else {
        LostStaysLost(e, t, run[1..], x);
      }
    }
  }
}
