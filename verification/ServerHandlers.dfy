/** The handlers of `TunnelServer` (tunnel/src/server.ts) as they update its fields. */
module ServerHandlers {
  import opened Bytes
  import opened Crypto
  import opened Messages
  import opened ServerSide
  import opened ServerTheorems
  import opened Ownership

  class TunnelServer {
    const hono: bool
    var x25519PublicKey: seq<byte>
    var x25519PrivateKey: seq<byte>
    var quote: Option<seq<byte>>
    var keyReady: bool
    var symmetricKeyBySocket: map<Sock, seq<byte>>
    var extraContextBySocket: set<Sock>
    var openSockets: set<Sock>
    var sockets: map<ConnId, Conn>
    var clients: set<nat>
    var mocks: seq<Mock>
    var drawn: nat
    var sentOn: map<Sock, seq<Item>>
    var app: seq<AppEvent>
    ghost var made: map<ConnId, Sock>

    ghost function View(): Server
      reads this
    {
      Server(hono, x25519PublicKey, x25519PrivateKey, quote, keyReady, symmetricKeyBySocket, extraContextBySocket,
             openSockets, sockets, clients, mocks, made, sentOn, drawn, app)
    }

    /** The maps agree: see `RegistryOk`. Every handler keeps this, given that connection ids are fresh. */
    ghost predicate Valid()
      reads this
    {
      RegistryOk(View())
    }

    constructor (e: Env, hono: bool, secret: seq<byte>)
      ensures View() == Server(hono, e.suite.publicKey(secret), secret, None, false, map[], {}, {}, map[], {}, [],
                               map[], map[], 0, [])
      ensures Valid() && Initial(View())
    {
      this.hono := hono;
      x25519PublicKey, x25519PrivateKey, quote, keyReady := e.suite.publicKey(secret), secret, None, false;
      symmetricKeyBySocket, extraContextBySocket, openSockets := map[], {}, {};
      sockets, clients, mocks, drawn, sentOn, app, made := map[], {}, [], 0, map[], [], map[];
    }

    method Transmit(sock: Sock, it: Item)
      modifies this`sentOn
      ensures View() == Post(old(View()), sock, it)
    {
      var before := if sock in sentOn then sentOn[sock] else [];
      sentOn := sentOn[sock := before + [it]];
    }

    method SendEncrypted(e: Env, sock: Sock, m: Msg)
      modifies this
      ensures View() == ServerSide.SendEncrypted(e, old(View()), sock, m)
      ensures SentOne(e, old(View()), View(), sock, m)
    {
      SendExact(e, View(), sock, m);
      if sock !in symmetricKeyBySocket || |symmetricKeyBySocket[sock]| != 32 || sock !in openSockets {
        return;
      }
      var w := Envelope(e, symmetricKeyBySocket[sock], drawn, m);
      if w.Some? {
        drawn := drawn + 1;
        Transmit(sock, Item(w.value, Some(m)));
      }
    }

    method EmitClose(m: nat)
      modifies this
      ensures View() == ServerSide.EmitClose(old(View()), m)
      ensures |mocks| == |old(mocks)|
      ensures forall i :: 0 <= i < |mocks| ==>
        mocks[i] == if i == m && old(mocks)[i].state != Closed
                    then old(mocks)[i].(state := Closed, closes := old(mocks)[i].closes + 1) else old(mocks)[i]
      ensures app == if m < |old(mocks)| && old(mocks)[m].state != Closed then old(app) + [GotClose(m)] else old(app)
    {
      if m >= |mocks| || mocks[m].state == Closed {
        return;
      }
      mocks := mocks[m := mocks[m].(state := Closed, closes := mocks[m].closes + 1)];
      app := app + [GotClose(m)];
    }

    method CloseMock(e: Env, m: nat)
      modifies this
      ensures View() == MockClose(e, old(View()), m)
      ensures old(Valid()) ==> Valid() && ClosedOnce(mocks, m)
      ensures old(Valid()) ==> MockClosed(e, old(View()), View(), m)
    {
      ghost var was := View();
      if RegistryOk(was) {
        MockCloseExact(e, was, m);
        MockCloseTells(e, was, m);
      }
      hide RegistryOk, SentOne, MockClosed;
      if m >= |mocks| || mocks[m].state == Closing || mocks[m].state == Closed {
        return;
      }
      mocks := mocks[m := mocks[m].(state := Closing)];
      SendEncrypted(e, mocks[m].ctl, WsEvent(mocks[m].conn, ClosedByPeer));
      EmitClose(m);
    }

    method SendOnMock(e: Env, m: nat, data: Payload)
      modifies this
      ensures View() == MockSend(e, old(View()), m, data)
      ensures old(Valid()) ==> Valid()
      ensures m >= |old(mocks)| || old(mocks)[m].state != Open ==> View() == old(View())
      ensures m < |old(mocks)| && old(mocks)[m].state == Open ==>
        && app == old(app) + [AppSent(old(mocks)[m].conn, data)]
        && SentOne(e, old(View()).(app := app), View(), old(mocks)[m].ctl, WsMessage(old(mocks)[m].conn, data))
    {
      ghost var was := View();
      if RegistryOk(was) {
        ActOk(e, was, DoSend(m, data));
      }
      hide RegistryOk, ServerSide.SendEncrypted;
      if m >= |mocks| || mocks[m].state != Open {
        return;
      }
      app := app + [AppSent(mocks[m].conn, data)];
      SendEncrypted(e, mocks[m].ctl, WsMessage(mocks[m].conn, data));
    }

    /** `close` of the mock server. */
    method CloseAllClients(e: Env, order: seq<nat>)
      modifies this
      ensures View() == AppAct(e, old(View()), WssClose(order))
      ensures old(Valid()) ==> Valid() && forall m :: m in order ==> ClosedOnce(mocks, m)
      ensures clients == {}
    {
      ghost var was := View();
      if RegistryOk(was) {
        WssCloseExact(e, was, order);
      }
      hide RegistryOk, ClosedOnce, MockClose;
      var i := 0;
      while i < |order|
        invariant 0 <= i <= |order|
        invariant CloseEach(e, View(), order[i..]) == CloseEach(e, old(View()), order)
      {
        assert order[i..][0] == order[i] && order[i..][1..] == order[i + 1..];
        CloseMock(e, order[i]);
        i := i + 1;
      }
      clients := {};
    }

    /** The application's code. */
    method RunApplication(e: Env, script: seq<AppAction>)
      modifies this
      ensures View() == AppRun(e, old(View()), script)
      ensures old(Valid()) ==> Valid()
      ensures sockets == old(sockets)
    {
      ghost var was := View();
      RunFields(e, was, script);
      if RegistryOk(was) {
        AppRunOk(e, was, script);
      }
      hide RegistryOk, ClosedOnce, AppAct;
      var i := 0;
      while i < |script|
        invariant 0 <= i <= |script|
        invariant AppRun(e, View(), script[i..]) == AppRun(e, old(View()), script)
      {
        assert script[i..][0] == script[i] && script[i..][1..] == script[i + 1..];
        Perform(e, script[i]);
        i := i + 1;
      }
    }

    method Perform(e: Env, action: AppAction)
      modifies this
      ensures View() == AppAct(e, old(View()), action)
      ensures action.Respond? ==>
        SentOne(e, old(View()), View(), action.sock, HttpResponse(action.req, action.content))
    {
      hide SentOne, MockClosed, RegistryOk, ClosedOnce, MockClose, ServerSide.SendEncrypted;
      match action {
        case DoSend(m, data) => SendOnMock(e, m, data);
        case DoClose(m) => CloseMock(e, m);
        case WssClose(order) => CloseAllClients(e, order);
        case Respond(sock, req, content) => SendEncrypted(e, sock, HttpResponse(req, content));
      }
    }

    /** A new mock socket, not yet known to anybody. */
    method CreateMock(sock: Sock, conn: ConnId) returns (m: nat)
      modifies this`mocks, this`made
      ensures m == |old(mocks)|
      ensures View() == old(View()).(mocks := old(mocks) + [Mock(conn, sock, Open, 0)], made := old(made)[conn := sock])
    {
      m := |mocks|;
      mocks := mocks + [Mock(conn, sock, Open, 0)];
      made := made[conn := sock];
    }

    /** `addClient`, up to the connection callback. */
    method AddClient(sock: Sock, m: nat)
      modifies this`clients, this`app
      ensures View() == Log(old(View()).(clients := old(clients) + {m}), GotConnection(sock, m))
    {
      clients := clients + {m};
      app := app + [GotConnection(sock, m)];
    }

    /** A new mock, known to the registry and to the application. */
    method RegisterMock(sock: Sock, conn: ConnId)
      modifies this
      ensures View() == AddMock(old(View()), sock, conn)
    {
      var m := CreateMock(sock, conn);
      sockets := sockets[conn := Conn(m, sock)];
      AddClient(sock, m);
    }

    method HandleTunnelWebSocketConnect(e: Env, sock: Sock, conn: ConnId, react: seq<AppAction>)
      modifies this
      ensures View() == HandleConnect(e, old(View()), sock, conn, react)
      ensures old(Valid()) && conn !in old(made) ==>
        && Valid()
        && sockets == if hono && sock !in old(extraContextBySocket) then old(sockets)
                      else old(sockets)[conn := Conn(|old(mocks)|, sock)]
      ensures hono && sock !in old(extraContextBySocket) ==>
        SentOne(e, old(View()), View(), sock, WsEvent(conn, Errored))
      ensures old(Valid()) && !(hono && sock !in old(extraContextBySocket)) ==>
        && old(app) + [GotConnection(sock, |old(mocks)|)] <= app
        && (LawfulEnv(e) && CanSend(View(), sock) ==> EndsWith(e, View(), sock, WsEvent(conn, Opened)))
    {
      ghost var was := View();
      if RegistryOk(was) && conn !in made {
        ConnectExact(e, was, sock, conn, react);
      }
      if RegistryOk(was) && !(hono && sock !in extraContextBySocket) {
        ConnectTells(e, was, sock, conn, react);
      }
      hide RegistryOk, AppRun, AddMock, ServerSide.SendEncrypted, SentOne, EndsWith;
      if hono && sock !in extraContextBySocket {
        SendEncrypted(e, sock, WsEvent(conn, Errored));
        return;
      }
      RegisterMock(sock, conn);
      RunApplication(e, react);
      SendEncrypted(e, sock, WsEvent(conn, Opened));
    }

    method HandleTunnelWebSocketMessage(e: Env, sock: Sock, conn: ConnId, data: Payload, react: seq<AppAction>)
      modifies this
      ensures View() == HandleMessage(e, old(View()), sock, conn, data, react)
      ensures old(Valid()) ==> Valid() && MessageHandled(old(View()), View(), sock, conn, data)
    {
      ghost var was := View();
      if RegistryOk(was) {
        MessageExact(e, was, sock, conn, data, react);
      }
      hide RegistryOk, AppRun, MessageHandled;
      if conn !in sockets {
        return;
      }
      var m := sockets[conn].mock;
      if m < |mocks| && mocks[m].state == Open {
        app := app + [GotMessage(sock, conn, data)];
        RunApplication(e, react);
      }
    }

    /** `emitClose`, its callback, and `deleteClient`. */
    method RetireMock(e: Env, m: nat, react: seq<AppAction>)
      modifies this
      ensures View() == Retire(e, old(View()), m, react)
    {
      if m < |mocks| && mocks[m].state != Closed {
        EmitClose(m);
        RunApplication(e, react);
      }
      clients := clients - {m};
    }

    method HandleTunnelWebSocketClose(e: Env, conn: ConnId, react: seq<AppAction>)
      modifies this
      ensures View() == HandleClose(e, old(View()), conn, react)
      ensures old(Valid()) ==> Valid() && sockets == old(sockets) - {conn}
      ensures old(Valid()) && conn in old(sockets) ==>
        ClosedOnce(mocks, old(sockets)[conn].mock) && old(sockets)[conn].mock !in clients
      ensures conn !in old(sockets) ==> View() == old(View())
      ensures old(Valid()) && Receives(old(View()), conn) ==> old(app) + [GotClose(old(sockets)[conn].mock)] <= app
    {
      ghost var was := View();
      if RegistryOk(was) {
        HandleCloseExact(e, was, conn, react);
        HandleCloseTells(e, was, conn, react);
      }
      hide RegistryOk, Retire, ClosedOnce;
      if conn in sockets {
        RetireMock(e, sockets[conn].mock, react);
        sockets := sockets - {conn};
      }
    }

    method HandleControlMessage(e: Env, sock: Sock, w: Wire, react: seq<AppAction>)
      modifies this
      ensures View() == HandleControl(e, old(View()), sock, w, react)
      ensures old(Valid()) && Fresh(e, old(View()), sock, w) ==> Valid()
      ensures !Openable(e, old(View()), sock, w) ==> View() == old(View()).(keys := symmetricKeyBySocket)
      ensures old(Valid()) && sock in old(symmetricKeyBySocket) ==> symmetricKeyBySocket == old(symmetricKeyBySocket)
    {
      ghost var was := View();
      ControlExact(e, was, sock, w, react);
      hide RegistryOk, Dispatch, BoxSealOpen, OpenEnvelope;
      if w.ClientKx? {
        if sock !in symmetricKeyBySocket {
          var key := BoxSealOpen(e.suite, w.sealedSymmetricKey, x25519PublicKey, x25519PrivateKey);
          if key.Some? {
            symmetricKeyBySocket := symmetricKeyBySocket[sock := key.value];
          }
        }
        return;
      }
      if sock !in symmetricKeyBySocket {
        return;
      }
      var message := OpenEnvelope(e, symmetricKeyBySocket[sock], w);
      if message.None? {
        return;
      }
      DispatchMessage(e, sock, message.value, react);
    }

    method DispatchMessage(e: Env, sock: Sock, m: Msg, react: seq<AppAction>)
      modifies this
      ensures View() == Dispatch(e, old(View()), sock, m, react)
      ensures m.HttpRequest? ==> View() == old(View()).(app := old(app) + [GotRequest(sock, m.req)])
      ensures m.HttpResponse? || m.WsEvent? ==> View() == old(View())
    {
      hide RegistryOk, HandleConnect, HandleMessage, HandleClose;
      match m {
        case HttpRequest(req, _) => app := app + [GotRequest(sock, req)];
        case WsConnect(conn) => HandleTunnelWebSocketConnect(e, sock, conn, react);
        case WsMessage(conn, data) => HandleTunnelWebSocketMessage(e, sock, conn, data, react);
        case WsClose(conn) => HandleTunnelWebSocketClose(e, conn, react);
        case _ =>
      }
    }

    /** `#getQuote`, taken as one step: the key pair is replaced first, also when the fetch fails. */
    method GetQuote(e: Env, secret: seq<byte>, fetched: Option<seq<byte>>)
      modifies this
      ensures View() == AfterGetQuote(e, old(View()), secret, fetched)
      ensures x25519PublicKey == e.suite.publicKey(x25519PrivateKey) && x25519PrivateKey == secret
      ensures quote == (if fetched.Some? then fetched else old(quote)) && keyReady == (old(keyReady) || fetched.Some?)
    {
      x25519PublicKey, x25519PrivateKey := e.suite.publicKey(secret), secret;
      if fetched.Some? {
        quote := fetched;
        keyReady := true;
      }
    }

    /** `#sendServerKx`: `secret` and `fetched` serve a quote that is not ready yet. */
    method SendServerKx(e: Env, sock: Sock, secret: seq<byte>, fetched: Option<seq<byte>>)
      modifies this
      ensures var ready := if old(keyReady) then old(View()) else AfterGetQuote(e, old(View()), secret, fetched);
              View() == Announce(ready, sock)
    {
      if !keyReady {
        GetQuote(e, secret, fetched);
      }
      if quote.None? {
        openSockets := openSockets - {sock};
        return;
      }
      Transmit(sock, Item(ServerKx(x25519PublicKey, quote.value), None));
    }

    /** A new control connection, with its announcement. */
    method OnControlConnection(e: Env, sock: Sock, secret: seq<byte>, fetched: Option<seq<byte>>)
      modifies this
      ensures View() == Attach(e, old(View()), sock, secret, fetched)
      ensures old(Valid()) ==> Valid()
      ensures old(keyReady) ==>
        x25519PublicKey == old(x25519PublicKey) && x25519PrivateKey == old(x25519PrivateKey) && quote == old(quote)
      ensures !old(keyReady) ==>
        && x25519PublicKey == e.suite.publicKey(x25519PrivateKey) && x25519PrivateKey == secret
        && quote == (if fetched.Some? then fetched else old(quote)) && keyReady == fetched.Some?
      ensures openSockets == if quote.Some? then old(openSockets) + {sock} else old(openSockets) - {sock}
      ensures extraContextBySocket == if hono then old(extraContextBySocket) + {sock} else old(extraContextBySocket)
      ensures sock !in old(sentOn) && sock in openSockets ==>
        quote.Some? && sock in sentOn && sentOn[sock] == [Item(ServerKx(x25519PublicKey, quote.value), None)]
    {
      AttachExact(e, View(), sock, secret, fetched);
      AttachFields(e, View(), sock, secret, fetched);
      hide RegistryOk, Announce, AfterGetQuote;
      openSockets := openSockets + {sock};
      if hono {
        extraContextBySocket := extraContextBySocket + {sock};
      }
      SendServerKx(e, sock, secret, fetched);
    }

    /** The loop over the entries of `sockets`, in the order given. */
    method RetireOwned(e: Env, sock: Sock, order: seq<ConnId>,
                       react: nat -> seq<AppAction>) returns (toRemove: set<ConnId>)
      modifies this
      ensures View() == RetireEach(e, old(View()), sock, order, react)
      ensures sockets == old(sockets) && toRemove == OwnedAmong(sockets, sock, order)
    {
      hide Retire, OwnedAmong;
      toRemove := {};
      assert OwnedAmong(sockets, sock, order[..0]) == {} by {
        NoneOwned(sockets, sock, order);
      }
      for i := 0 to |order|
        invariant View() == RetireEach(e, old(View()), sock, order[..i], react)
        invariant sockets == old(sockets) && toRemove == OwnedAmong(sockets, sock, order[..i])
      {
        assert order[..i + 1][..i] == order[..i];
        OwnedOneMore(sockets, sock, order, i);
        var conn := order[i];
        if conn in sockets && sockets[conn].ctl == sock {
          KeepsSockets(e, View(), sockets[conn].mock, react(i));
          RetireMock(e, sockets[conn].mock, react(i));
          toRemove := toRemove + {conn};
        }
      }
      assert order[..|order|] == order;
    }

    method ForgetSocket(sock: Sock)
      modifies this
      ensures View() == Forget(old(View()), sock)
    {
      symmetricKeyBySocket := symmetricKeyBySocket - {sock};
      extraContextBySocket := extraContextBySocket - {sock};
      openSockets := openSockets - {sock};
    }

    /** The `close` handler of a control socket; `order` lists at least its own entries. */
    method OnControlClose(e: Env, sock: Sock, order: seq<ConnId>, react: nat -> seq<AppAction>)
      requires forall conn :: conn in Owned(View(), sock) ==> conn in order
      modifies this
      ensures View() == ControlClosed(e, old(View()), sock, order, react)
      ensures old(Valid()) ==> Valid() && ControlGone(old(View()), View(), sock)
    {
      ghost var was := View();
      if RegistryOk(was) {
        ControlClosedExact(e, was, sock, order, react);
      }
      OwnedIsAll(was, sock, order);
      hide RetireEach, RegistryOk, ControlGone, Owned, OwnedAmong;
      ForgetSocket(sock);
      var toRemove := RetireOwned(e, sock, order, react);
      OwnedSame(was, View(), sock);
      sockets := sockets - toRemove;
    }
  }

  /**
   On a keyed open socket exactly this message went out, in an envelope that opens to it; otherwise nothing changed.
   */
  ghost predicate SentOne(e: Env, s: Server, t: Server, sock: Sock, m: Msg) {
    && t.(out := s.out, drawn := s.drawn) == s
    && (LawfulEnv(e) && CanSend(s, sock) ==>
          && Transmits(e, s.keys[sock], Out(s, sock), Out(t, sock), [m]) && t.drawn == s.drawn + 1
          && DrewNonce(e, s.drawn, Out(t, sock)[|Out(s, sock)|].wire))
    && (!CanSend(s, sock) ==> t == s)
    && forall z :: z != sock ==> Out(t, z) == Out(s, z)
  }

  lemma {:induction false} SendExact(e: Env, s: Server, sock: Sock, m: Msg)
    ensures SentOne(e, s, SendEncrypted(e, s, sock, m), sock, m)
  {
    if CanSend(s, sock) && LawfulEnv(e) {
      EnvelopeOpens(e, s.keys[sock], s.drawn, m);
      EnvelopeDraws(e, s.keys[sock], s.drawn, m);
    }
    hide Envelope, OpenEnvelope, LawfulEnv, DrewNonce;
  }

  /** The last message on the socket is this one, and it opens. */
  ghost predicate EndsWith(e: Env, s: Server, sock: Sock, m: Msg) {
    && sock in s.keys && Out(s, sock) != []
    && var last := Out(s, sock)[|Out(s, sock)| - 1];
       last.plain == Some(m) && OpenEnvelope(e, s.keys[sock], last.wire) == Some(m)
  }

  lemma {:induction false} SentIsLast(e: Env, s: Server, t: Server, sock: Sock, m: Msg)
    requires SentOne(e, s, t, sock, m) && LawfulEnv(e) && CanSend(s, sock)
    ensures EndsWith(e, t, sock, m)
  {
    hide OpenEnvelope, LawfulEnv;
    var n := |Out(s, sock)|;
    assert Out(t, sock)[n + 0].plain == Some([m][0]);
  }

  /** The application gets one close event, and the client one `ws_event` that says so; a closed mock does nothing. */
  ghost predicate MockClosed(e: Env, s: Server, t: Server, m: nat) {
    if m < |s.mocks| && s.mocks[m].state == Open then
      var c := s.mocks[m];
      && t.mocks == s.mocks[m := c.(state := Closed, closes := c.closes + 1)] && t.app == s.app + [GotClose(m)]
      && SentOne(e, s, t.(mocks := s.mocks, app := s.app), c.ctl, WsEvent(c.conn, ClosedByPeer))
    else t == s
  }

  lemma {:induction false} MockCloseTells(e: Env, s: Server, m: nat)
    requires RegistryOk(s)
    ensures MockClosed(e, s, MockClose(e, s, m), m)
  {
    RegistrySettled(s);
    hide RegistryOk;
    if m < |s.mocks| && s.mocks[m].state == Open {
      SendExact(e, SetState(s, m, Closing), s.mocks[m].ctl, WsEvent(s.mocks[m].conn, ClosedByPeer));
      SendExact(e, s, s.mocks[m].ctl, WsEvent(s.mocks[m].conn, ClosedByPeer));
      hide Envelope, Transmits;
    }
  }

  lemma {:induction false} ConnectTells(e: Env, s: Server, sock: Sock, conn: ConnId, react: seq<AppAction>)
    requires RegistryOk(s) && !(s.hono && sock !in s.contexts)
    ensures var t := HandleConnect(e, s, sock, conn, react);
            && s.app + [GotConnection(sock, |s.mocks|)] <= t.app
            && (LawfulEnv(e) && CanSend(t, sock) ==> EndsWith(e, t, sock, WsEvent(conn, Opened)))
  {
    RegistrySettled(s);
    var a := AddMock(s, sock, conn);
    var b := AppRun(e, a, react);
    var t := SendEncrypted(e, b, sock, WsEvent(conn, Opened));
    AppRunEvolves(e, a, react);
    SendFrame(e, b, sock, WsEvent(conn, Opened));
    hide AppRun, SendEncrypted, RegistryOk, Settled, LawfulEnv, EndsWith;
    SendExact(e, b, sock, WsEvent(conn, Opened));
    if LawfulEnv(e) && CanSend(t, sock) {
      assert CanSend(b, sock);
      SentIsLast(e, b, t, sock, WsEvent(conn, Opened));
    }
  }

  lemma {:induction false} HandleCloseTells(e: Env, s: Server, conn: ConnId, react: seq<AppAction>)
    requires RegistryOk(s)
    ensures Receives(s, conn) ==> s.app + [GotClose(s.sockets[conn].mock)] <= HandleClose(e, s, conn, react).app
  {
    RegistrySettled(s);
    hide RegistryOk, AppRun;
    if Receives(s, conn) {
      var m := s.sockets[conn].mock;
      EmitCloseEvolves(s, m);
      SettledEvolves(s, EmitClose(s, m));
      AppRunEvolves(e, EmitClose(s, m), react);
    }
  }

  /** A connect that opens is for an id that was never connected. */
  predicate Fresh(e: Env, s: Server, sock: Sock, w: Wire) {
    Openable(e, s, sock, w) && OpenEnvelope(e, s.keys[sock], w).value.WsConnect? ==>
      OpenEnvelope(e, s.keys[sock], w).value.conn !in s.made
  }

  lemma {:induction false} ControlExact(e: Env, s: Server, sock: Sock, w: Wire, react: seq<AppAction>)
    ensures var t := HandleControl(e, s, sock, w, react);
            && (RegistryOk(s) && Fresh(e, s, sock, w) ==> RegistryOk(t))
            && (!Openable(e, s, sock, w) ==> t == s.(keys := t.keys))
            && (RegistryOk(s) && sock in s.keys ==> t.keys == s.keys)
  {
    hide RegistryOk, Dispatch, BoxSealOpen, OpenEnvelope;
    var t := HandleControl(e, s, sock, w, react);
    if !Openable(e, s, sock, w) {
      Gated(e, s, sock, w, react);
      if RegistryOk(s) {
        FieldsOnlyOk(s, t);
      }
    } else if RegistryOk(s) {
      var m := OpenEnvelope(e, s.keys[sock], w).value;
      RegistrySettled(s);
      DispatchKeepsKeys(e, s, sock, m, react);
      if Fresh(e, s, sock, w) {
        DispatchOk(e, s, sock, m, react);
      }
    }
  }

  lemma {:induction false} AnnounceOut(s: Server, sock: Sock)
    requires sock !in s.out && sock in Announce(s, sock).open
    ensures s.quote.Some? && Out(Announce(s, sock), sock) == [Item(ServerKx(s.publicKey, s.quote.value), None)]
    ensures sock in Announce(s, sock).out
  {
  }

  lemma {:induction false} AttachExact(e: Env, s: Server, sock: Sock, secret: seq<byte>, fetched: Option<seq<byte>>)
    ensures var t := Attach(e, s, sock, secret, fetched);
            && (RegistryOk(s) ==> RegistryOk(t))
            && (s.keyReady ==> t.publicKey == s.publicKey && t.privateKey == s.privateKey && t.quote == s.quote)
            && (!s.keyReady ==> t.publicKey == e.suite.publicKey(t.privateKey))
            && (sock !in s.out && sock in t.open ==>
                  t.quote.Some? && Out(t, sock) == [Item(ServerKx(t.publicKey, t.quote.value), None)] && sock in t.out)
  {
    AttachFrame(e, s, sock, secret, fetched);
    if RegistryOk(s) {
      FieldsOnlyOk(s, Attach(e, s, sock, secret, fetched));
    }
    hide RegistryOk, Announce;
    var ready := if s.keyReady then Enroll(s, sock) else AfterGetQuote(e, Enroll(s, sock), secret, fetched);
    AnnounceFrame(ready, sock);
    if sock !in s.out && sock in Announce(ready, sock).open {
      AnnounceOut(ready, sock);
    }
  }

  lemma {:induction false} AttachFields(e: Env, s: Server, sock: Sock, secret: seq<byte>, fetched: Option<seq<byte>>)
    ensures var t := Attach(e, s, sock, secret, fetched);
            && (!s.keyReady ==>
                  && t.privateKey == secret && t.quote == (if fetched.Some? then fetched else s.quote)
                  && t.keyReady == fetched.Some?)
            && t.open == (if t.quote.Some? then s.open + {sock} else s.open - {sock})
            && t.contexts == (if s.hono then s.contexts + {sock} else s.contexts)
  {
  }

  lemma {:induction false} ActOk(e: Env, s: Server, a: AppAction)
    requires RegistryOk(s)
    ensures RegistryOk(AppAct(e, s, a))
  {
    hide AppAct;
    RegistrySettled(s);
    AppActEvolves(e, s, a);
    RegistryEvolves(s, AppAct(e, s, a));
  }

  /** No entry changes, and the payload is the next event if and only if its mock takes messages. */
  predicate MessageHandled(s: Server, t: Server, sock: Sock, conn: ConnId, data: Payload) {
    && t.sockets == s.sockets && s.app <= t.app
    && if Receives(s, conn) then |t.app| > |s.app| && t.app[|s.app|] == GotMessage(sock, conn, data) else t == s
  }

  lemma {:induction false} MessageExact(e: Env, s: Server, sock: Sock, conn: ConnId, data: Payload,
                                        react: seq<AppAction>)
    requires RegistryOk(s)
    ensures var t := HandleMessage(e, s, sock, conn, data, react);
            RegistryOk(t) && MessageHandled(s, t, sock, conn, data)
  {
    DispatchOk(e, s, sock, WsMessage(conn, data), react);
    RegistrySettled(s);
    DispatchLog(e, s, sock, WsMessage(conn, data), react);
    hide AppRun, RegistryOk;
    RunFields(e, Log(s, GotMessage(sock, conn, data)), react);
  }

  lemma {:induction false} OwnedIsAll(s: Server, sock: Sock, order: seq<ConnId>)
    requires forall conn :: conn in Owned(s, sock) ==> conn in order
    ensures OwnedAmong(s.sockets, sock, order) == Owned(s, sock)
  {
  }

  lemma {:induction false} NoneOwned(sockets: map<ConnId, Conn>, sock: Sock, order: seq<ConnId>)
    ensures OwnedAmong(sockets, sock, order[..0]) == {}
  {
  }

  lemma {:induction false} OwnedSame(s: Server, t: Server, sock: Sock)
    requires t.sockets == s.sockets
    ensures Owned(t, sock) == Owned(s, sock)
  {
  }

  lemma {:induction false} OwnedOneMore(sockets: map<ConnId, Conn>, sock: Sock, order: seq<ConnId>, i: nat)
    requires i < |order|
    ensures OwnedAmong(sockets, sock, order[..i + 1])
         == OwnedAmong(sockets, sock, order[..i])
            + if order[i] in sockets && sockets[order[i]].ctl == sock then {order[i]} else {}
  {
    assert order[..i + 1] == order[..i] + [order[i]];
  }

  function OwnedAmong(sockets: map<ConnId, Conn>, sock: Sock, order: seq<ConnId>): set<ConnId> {
    set conn | conn in order && conn in sockets && sockets[conn].ctl == sock
  }

  lemma {:induction false} KeepsSockets(e: Env, s: Server, m: nat, react: seq<AppAction>)
    ensures Retire(e, s, m, react).sockets == s.sockets
  {
    hide AppRun;
    RunFields(e, EmitClose(s, m), react);
  }
}
