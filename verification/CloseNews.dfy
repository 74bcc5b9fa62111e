/** A server that closes a mock says so on its control socket: what every step keeps about that. */
module CloseNews {
  import opened Bytes
  import opened Crypto
  import opened Messages
  import opened ServerSide
  import opened ServerTheorems
  import opened ServerHandlers
  import opened Steady

  predicate IsNews(it: Item, x: ConnId) {
    it.plain == Some(WsEvent(x, ClosedByPeer))
  }

  /** From index `n` on, some message on the socket says that `x` is closed. */
  predicate Told(s: Server, sock: Sock, x: ConnId, n: nat) {
    exists i :: n <= i < |Out(s, sock)| && IsNews(Out(s, sock)[i], x)
  }

  /** The socket is up, and the entry of `x` is held although its mock is closed. */
  predicate ClosedHere(s: Server, sock: Sock, x: ConnId) {
    MadeOn(s, sock, x) && CanSend(s, sock) && x in s.sockets && !Receives(s, x)
  }

  /** Messages are only added, and if the mock of `x` is closed meanwhile, one of them says so. */
  ghost predicate Heralds(s: Server, t: Server, sock: Sock, x: ConnId) {
    && Out(s, sock) <= Out(t, sock)
    && (ClosedHere(t, sock, x) ==> ClosedHere(s, sock, x) || Told(t, sock, x, |Out(s, sock)|))
  }

  lemma {:induction false} ToldStays(s: Server, t: Server, sock: Sock, x: ConnId, n: nat)
    requires Out(s, sock) <= Out(t, sock) && Told(s, sock, x, n)
    ensures Told(t, sock, x, n)
  {
    hide Out;
    var i :| n <= i < |Out(s, sock)| && IsNews(Out(s, sock)[i], x);
    assert Out(t, sock)[i] == Out(s, sock)[i];
  }

  lemma {:induction false} ToldLater(s: Server, sock: Sock, x: ConnId, m: nat, n: nat)
    requires n <= m && Told(s, sock, x, m)
    ensures Told(s, sock, x, n)
  {
    hide Out;
  }

  lemma {:induction false} HeraldsTwice(s: Server, t: Server, u: Server, sock: Sock, x: ConnId)
    requires Heralds(s, t, sock, x) && Heralds(t, u, sock, x)
    ensures Heralds(s, u, sock, x)
  {
    hide Out, ClosedHere, Told;
    if ClosedHere(u, sock, x) && !ClosedHere(s, sock, x) {
      if ClosedHere(t, sock, x) {
        ToldStays(t, u, sock, x, |Out(s, sock)|);
      } else {
        ToldLater(u, sock, x, |Out(t, sock)|, |Out(s, sock)|);
      }
    }
  }

  /** Nothing about `x` changes, and its socket can send no more than before. */
  lemma {:induction false} QuietHeralds(s: Server, t: Server, sock: Sock, x: ConnId)
    requires Out(t, sock) == Out(s, sock) && t.mocks == s.mocks && t.made == s.made
    requires t.sockets == s.sockets && (CanSend(t, sock) ==> CanSend(s, sock))
    ensures Heralds(s, t, sock, x)
  {
  }

  // ---- sending, and application code ----

  lemma {:induction false} SendHeralds(e: Env, s: Server, to: Sock, m: Msg, sock: Sock, x: ConnId)
    requires LawfulEnv(e)
    ensures Heralds(s, SendEncrypted(e, s, to, m), sock, x)
  {
    SendResult(e, s, to, m, sock);
    hide SendEncrypted, OpenEnvelope, LawfulEnv, Out;
  }

  /** A mock of another connection is closed, or of one whose socket is down. */
  lemma {:induction false} EmitHeralds(s: Server, m: nat, sock: Sock, x: ConnId)
    requires CanSend(s, sock) && MadeOn(s, sock, x) && x in s.sockets ==> s.sockets[x].mock != m
    ensures Heralds(s, EmitClose(s, m), sock, x)
  {
  }

  lemma {:induction false} EntryAtHome(s: Server, sock: Sock, x: ConnId)
    requires RegistryOk(s) && MadeOn(s, sock, x) && x in s.sockets
    ensures var m := s.sockets[x].mock;
            m < |s.mocks| && s.mocks[m].conn == x && s.mocks[m].ctl == sock && s.sockets[x].ctl == sock
    ensures s.mocks[s.sockets[x].mock].state == Open || s.mocks[s.sockets[x].mock].state == Closed
  {
    assert SocketOk(s, x) && MockOk(s, s.sockets[x].mock);
  }

  lemma {:induction false} MockCloseHeralds(e: Env, s: Server, m: nat, sock: Sock, x: ConnId)
    requires LawfulEnv(e) && RegistryOk(s)
    ensures Heralds(s, MockClose(e, s, m), sock, x)
  {
    MockCloseTells(e, s, m);
    MockCloseFields(e, s, m);
    var t := MockClose(e, s, m);
    if MadeOn(s, sock, x) && x in s.sockets {
      EntryAtHome(s, sock, x);
    }
    hide RegistryOk, MockClose, OpenEnvelope, LawfulEnv;
    if m < |s.mocks| && s.mocks[m].state == Open {
      MockClosedHeralds(e, s, t, m, sock, x);
    }
  }

  lemma {:induction false} MockClosedHeralds(e: Env, s: Server, t: Server, m: nat, sock: Sock, x: ConnId)
    requires LawfulEnv(e) && m < |s.mocks| && s.mocks[m].state == Open && MockClosed(e, s, t, m)
    requires t.sockets == s.sockets
    requires MadeOn(s, sock, x) && x in s.sockets ==>
      var c := s.sockets[x].mock; c < |s.mocks| && s.mocks[c].conn == x && s.mocks[c].ctl == sock
    ensures Heralds(s, t, sock, x)
  {
    hide OpenEnvelope, LawfulEnv;
    var c := s.mocks[m];
    var u := t.(mocks := s.mocks, app := s.app);
    assert Out(u, sock) == Out(t, sock);
    if CanSend(s, c.ctl) {
      var n := |Out(s, c.ctl)|;
      assert Out(u, c.ctl)[n + 0].plain == Some([WsEvent(c.conn, ClosedByPeer)][0]);
      assert c.ctl == sock ==> Told(t, sock, c.conn, n) by {
        if c.ctl == sock {
          assert IsNews(Out(t, sock)[n], c.conn);
        }
      }
    }
  }

  lemma {:induction false} CloseEachHeralds(e: Env, s: Server, order: seq<nat>, sock: Sock, x: ConnId)
    requires LawfulEnv(e) && RegistryOk(s)
    ensures Heralds(s, CloseEach(e, s, order), sock, x)
    decreases |order|
  {
    if order == [] {
      QuietHeralds(s, s, sock, x);
    } else {
      hide Heralds, MockClose, RegistryOk, LawfulEnv;
      var t := MockClose(e, s, order[0]);
      MockCloseExact(e, s, order[0]);
      MockCloseHeralds(e, s, order[0], sock, x);
      CloseEachHeralds(e, t, order[1..], sock, x);
      HeraldsTwice(s, t, CloseEach(e, s, order), sock, x);
    }
  }

  lemma {:induction false} AppActHeralds(e: Env, s: Server, a: AppAction, sock: Sock, x: ConnId)
    requires LawfulEnv(e) && RegistryOk(s)
    ensures Heralds(s, AppAct(e, s, a), sock, x)
  {
    hide Heralds, MockClose, SendEncrypted, CloseEach, RegistryOk, LawfulEnv;
    match a
    case DoSend(m, data) =>
      QuietHeralds(s, s, sock, x);
      if m < |s.mocks| && s.mocks[m].state == Open {
        var l := Log(s, AppSent(s.mocks[m].conn, data));
        QuietHeralds(s, l, sock, x);
        SendHeralds(e, l, s.mocks[m].ctl, WsMessage(s.mocks[m].conn, data), sock, x);
        HeraldsTwice(s, l, AppAct(e, s, a), sock, x);
      }
    case DoClose(m) =>
      MockCloseHeralds(e, s, m, sock, x);
    case WssClose(order) =>
      var t := CloseEach(e, s, order);
      CloseEachHeralds(e, s, order, sock, x);
      QuietHeralds(t, t.(clients := {}), sock, x);
      HeraldsTwice(s, t, t.(clients := {}), sock, x);
    case Respond(to, req, content) =>
      SendHeralds(e, s, to, HttpResponse(req, content), sock, x);
  }

  lemma {:induction false} AppRunHeralds(e: Env, s: Server, script: seq<AppAction>, sock: Sock, x: ConnId)
    requires LawfulEnv(e) && RegistryOk(s)
    ensures Heralds(s, AppRun(e, s, script), sock, x)
    decreases |script|
  {
    if script == [] {
      QuietHeralds(s, s, sock, x);
    } else {
      hide Heralds, AppAct, RegistryOk, LawfulEnv;
      var t := AppAct(e, s, script[0]);
      ActOk(e, s, script[0]);
      AppActHeralds(e, s, script[0], sock, x);
      AppRunHeralds(e, t, script[1..], sock, x);
      HeraldsTwice(s, t, AppRun(e, s, script), sock, x);
    }
  }

  // ---- messages ----

  lemma {:induction false} AddMockHeralds(s: Server, via: Sock, c: ConnId, sock: Sock, x: ConnId)
    requires RegistryOk(s) && c !in s.made
    ensures Heralds(s, AddMock(s, via, c), sock, x)
  {
    if x != c && MadeOn(s, sock, x) && x in s.sockets {
      EntryAtHome(s, sock, x);
    }
    hide RegistryOk;
    assert Out(AddMock(s, via, c), sock) == Out(s, sock);
  }

  lemma {:induction false} ConnectHeralds(e: Env, s: Server, via: Sock, c: ConnId, react: seq<AppAction>, sock: Sock,
                                          x: ConnId)
    requires LawfulEnv(e) && RegistryOk(s) && c !in s.made
    ensures Heralds(s, HandleConnect(e, s, via, c, react), sock, x)
  {
    hide Heralds, AddMock, AppRun, SendEncrypted, RegistryOk, LawfulEnv;
    if s.hono && via !in s.contexts {
      SendHeralds(e, s, via, WsEvent(c, Errored), sock, x);
    } else {
      var a := AddMock(s, via, c);
      var b := AppRun(e, a, react);
      AddMockOk(s, via, c);
      AddMockHeralds(s, via, c, sock, x);
      AppRunHeralds(e, a, react, sock, x);
      HeraldsTwice(s, a, b, sock, x);
      SendHeralds(e, b, via, WsEvent(c, Opened), sock, x);
      HeraldsTwice(s, b, HandleConnect(e, s, via, c, react), sock, x);
    }
  }

  lemma {:induction false} MessageHeralds(e: Env, s: Server, via: Sock, c: ConnId, data: Payload,
                                          react: seq<AppAction>, sock: Sock, x: ConnId)
    requires LawfulEnv(e) && RegistryOk(s)
    ensures Heralds(s, HandleMessage(e, s, via, c, data, react), sock, x)
  {
    hide Heralds, AppRun, LawfulEnv;
    QuietHeralds(s, s, sock, x);
    if Receives(s, c) {
      var l := Log(s, GotMessage(via, c, data));
      FieldsOnlyOk(s, l);
      hide RegistryOk;
      QuietHeralds(s, l, sock, x);
      AppRunHeralds(e, l, react, sock, x);
      HeraldsTwice(s, l, AppRun(e, l, react), sock, x);
    }
  }

  lemma {:induction false} EmitOk(s: Server, m: nat)
    requires RegistryOk(s)
    ensures RegistryOk(EmitClose(s, m))
  {
    RegistrySettled(s);
    EmitCloseEvolves(s, m);
    hide EmitClose;
    RegistryEvolves(s, EmitClose(s, m));
  }

  lemma {:induction false} RetireHeralds(e: Env, s: Server, m: nat, react: seq<AppAction>, sock: Sock, x: ConnId)
    requires LawfulEnv(e) && RegistryOk(s)
    requires CanSend(s, sock) && MadeOn(s, sock, x) && x in s.sockets ==> s.sockets[x].mock != m
    ensures Heralds(s, Retire(e, s, m, react), sock, x)
  {
    hide Heralds, AppRun, EmitClose, RegistryOk, LawfulEnv;
    QuietHeralds(s, s.(clients := s.clients - {m}), sock, x);
    if m < |s.mocks| && s.mocks[m].state != Closed {
      var t := EmitClose(s, m);
      var u := AppRun(e, t, react);
      EmitOk(s, m);
      EmitHeralds(s, m, sock, x);
      AppRunHeralds(e, t, react, sock, x);
      HeraldsTwice(s, t, u, sock, x);
      QuietHeralds(u, u.(clients := u.clients - {m}), sock, x);
      HeraldsTwice(s, u, u.(clients := u.clients - {m}), sock, x);
    }
  }

  /** Entries of other connections go. */
  lemma {:induction false} DropHeralds(s: Server, gone: set<ConnId>, sock: Sock, x: ConnId)
    ensures Heralds(s, s.(sockets := s.sockets - gone), sock, x)
  {
  }

  lemma {:induction false} OtherMock(s: Server, c: ConnId, sock: Sock, x: ConnId)
    requires RegistryOk(s) && c in s.sockets && c != x && x in s.sockets
    ensures s.sockets[x].mock != s.sockets[c].mock
  {
    assert SocketOk(s, c) && SocketOk(s, x);
  }

  /** The entry of `x` goes, with whatever is done meanwhile. */
  lemma {:induction false} GoneHeralds(e: Env, s: Server, t: Server, sock: Sock, x: ConnId)
    requires Out(s, sock) <= Out(t, sock) && (x !in t.sockets || !CanSend(t, sock))
    ensures Heralds(s, t, sock, x)
  {
  }

  lemma {:induction false} RetireGrows(e: Env, s: Server, m: nat, react: seq<AppAction>, sock: Sock)
    requires LawfulEnv(e) && RegistryOk(s)
    ensures Out(s, sock) <= Out(Retire(e, s, m, react), sock)
  {
    hide AppRun, RegistryOk, LawfulEnv;
    EmitOk(s, m);
    AppRunHeralds(e, EmitClose(s, m), react, sock, 0);
  }

  lemma {:induction false} HandleCloseHeralds(e: Env, s: Server, c: ConnId, react: seq<AppAction>, sock: Sock,
                                              x: ConnId)
    requires LawfulEnv(e) && RegistryOk(s)
    ensures Heralds(s, HandleClose(e, s, c, react), sock, x)
  {
    hide Heralds, Retire, RegistryOk, LawfulEnv, Out, Receives;
    QuietHeralds(s, s, sock, x);
    if c in s.sockets {
      var m := s.sockets[c].mock;
      var t := Retire(e, s, m, react);
      if c == x {
        RetireGrows(e, s, m, react, sock);
        SameOut(t, HandleClose(e, s, c, react), sock);
        GoneHeralds(e, s, HandleClose(e, s, c, react), sock, x);
      } else {
        if x in s.sockets {
          OtherMock(s, c, sock, x);
        }
        RetireHeralds(e, s, m, react, sock, x);
        DropHeralds(t, {c}, sock, x);
        HeraldsTwice(s, t, HandleClose(e, s, c, react), sock, x);
      }
    }
  }

  lemma {:induction false} SameOut(s: Server, t: Server, sock: Sock)
    requires t.out == s.out
    ensures Out(t, sock) == Out(s, sock)
  {
  }

  lemma {:induction false} DispatchHeralds(e: Env, s: Server, via: Sock, m: Msg, react: seq<AppAction>, sock: Sock,
                                           x: ConnId)
    requires LawfulEnv(e) && RegistryOk(s) && (m.WsConnect? ==> m.conn !in s.made)
    ensures Heralds(s, Dispatch(e, s, via, m, react), sock, x)
  {
    hide Heralds, HandleConnect, HandleMessage, HandleClose, RegistryOk, LawfulEnv;
    QuietHeralds(s, s, sock, x);
    match m
    case HttpRequest(req, _) =>
      QuietHeralds(s, Log(s, GotRequest(via, req)), sock, x);
    case WsConnect(c) =>
      ConnectHeralds(e, s, via, c, react, sock, x);
    case WsMessage(c, data) =>
      MessageHeralds(e, s, via, c, data, react, sock, x);
    case WsClose(c) =>
      HandleCloseHeralds(e, s, c, react, sock, x);
    case _ =>
  }

  // ---- control sockets ----

  /** While the socket of `x` is open, it has its key. */
  predicate KeyedHome(s: Server, sock: Sock, x: ConnId) {
    MadeOn(s, sock, x) && sock in s.open ==> sock in s.keys
  }

  lemma {:induction false} ControlHeralds(e: Env, s: Server, via: Sock, w: Wire, react: seq<AppAction>, sock: Sock,
                                          x: ConnId)
    requires LawfulEnv(e) && RegistryOk(s) && Enabled(e, s, Control(via, w, react)) && KeyedHome(s, sock, x)
    ensures Heralds(s, HandleControl(e, s, via, w, react), sock, x)
  {
    hide Heralds, Dispatch, BoxSealOpen, OpenEnvelope, RegistryOk, LawfulEnv;
    if Openable(e, s, via, w) {
      DispatchHeralds(e, s, via, OpenEnvelope(e, s.keys[via], w).value, react, sock, x);
    } else {
      Gated(e, s, via, w, react);
      KeyHeralds(s, HandleControl(e, s, via, w, react), sock, x);
    }
  }

  /** At most the first key of a socket is installed. */
  lemma {:induction false} KeyHeralds(s: Server, t: Server, sock: Sock, x: ConnId)
    requires t.(keys := s.keys) == s && KeyedHome(s, sock, x)
    requires forall k :: k in s.keys ==> k in t.keys && t.keys[k] == s.keys[k]
    ensures Heralds(s, t, sock, x)
  {
  }

  lemma {:induction false} RetireEachHeralds(e: Env, s: Server, via: Sock, order: seq<ConnId>,
                                             react: nat -> seq<AppAction>, sock: Sock, x: ConnId)
    requires LawfulEnv(e) && RegistryOk(s) && (via == sock ==> !CanSend(s, sock))
    ensures Heralds(s, RetireEach(e, s, via, order, react), sock, x)
    decreases |order|
  {
    hide Heralds, Retire, RegistryOk, LawfulEnv, QuietLog, MockEvolves;
    if order == [] {
      QuietHeralds(s, s, sock, x);
    } else {
      var front, c := order[..|order| - 1], order[|order| - 1];
      var t := RetireEach(e, s, via, front, react);
      RetireEachHeralds(e, s, via, front, react, sock, x);
      RetireEachEvolves(e, s, via, front, react);
      RegistryEvolves(s, t);
      if c in t.sockets && t.sockets[c].ctl == via {
        if MadeOn(t, sock, x) && x in t.sockets && via != sock {
          EntryAtHome(t, sock, x);
          OtherMock(t, c, sock, x);
        }
        RetireHeralds(e, t, t.sockets[c].mock, react(|order| - 1), sock, x);
        HeraldsTwice(s, t, RetireEach(e, s, via, order, react), sock, x);
      }
    }
  }

  lemma {:induction false} ClosedHeralds(e: Env, s: Server, via: Sock, order: seq<ConnId>,
                                         react: nat -> seq<AppAction>, sock: Sock, x: ConnId)
    requires LawfulEnv(e) && RegistryOk(s)
    ensures Heralds(s, ControlClosed(e, s, via, order, react), sock, x)
  {
    hide Heralds, RetireEach, RegistryOk, LawfulEnv, Owned;
    var f := Forget(s, via);
    ForgetOk(s, via);
    QuietHeralds(s, f, sock, x);
    var t := RetireEach(e, f, via, order, react);
    RetireEachHeralds(e, f, via, order, react, sock, x);
    HeraldsTwice(s, f, t, sock, x);
    DropHeralds(t, Owned(t, via), sock, x);
    HeraldsTwice(s, t, ControlClosed(e, s, via, order, react), sock, x);
  }

  lemma {:induction false} AttachHeralds(e: Env, s: Server, via: Sock, secret: seq<byte>, fetched: Option<seq<byte>>,
                                         sock: Sock, x: ConnId)
    requires via != sock
    ensures Heralds(s, Attach(e, s, via, secret, fetched), sock, x)
  {
    AttachFrame(e, s, via, secret, fetched);
    AttachElsewhere(e, s, via, secret, fetched, sock);
    hide Attach, Out;
    QuietHeralds(s, Attach(e, s, via, secret, fetched), sock, x);
  }

  lemma {:induction false} AttachElsewhere(e: Env, s: Server, via: Sock, secret: seq<byte>,
                                           fetched: Option<seq<byte>>, sock: Sock)
    requires via != sock
    ensures Out(Attach(e, s, via, secret, fetched), sock) == Out(s, sock)
  {
  }

  /**
   Every step of the server says on the socket of `x` that its mock is closed, if it closes it and keeps its entry.
   */
  lemma {:induction false} StepHeralds(e: Env, s: Server, step: Step, sock: Sock, x: ConnId)
    requires LawfulEnv(e) && RegistryOk(s) && Enabled(e, s, step) && KeyedHome(s, sock, x)
    requires step.Attaches? ==> step.sock != sock
    ensures Heralds(s, Next(e, s, step), sock, x)
  {
    hide Heralds, AppRun, HandleControl, ControlClosed, RegistryOk, LawfulEnv, Attach;
    match step
    case Attaches(via, secret, fetched) =>
      AttachHeralds(e, s, via, secret, fetched, sock, x);
    case Control(via, w, react) =>
      ControlHeralds(e, s, via, w, react, sock, x);
    case AppActs(script) =>
      AppRunHeralds(e, s, script, sock, x);
    case Closes(via, order, callbacks) =>
      ClosedHeralds(e, s, via, order, callbacks, sock, x);
    case _ =>
      QuietHeralds(s, Next(e, s, step), sock, x);
  }
}
