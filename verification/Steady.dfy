/** What server activity that is not about one connection leaves as it is for that connection. */
module Steady {
  import opened Bytes
  import opened Messages
  import opened ServerSide
  import opened ServerTheorems

  /** The control socket that `x` was connected over. */
  function Home(s: Server, x: ConnId): Option<Sock> {
    if x in s.made then Some(s.made[x]) else None
  }

  /** A payload for `x` that came over its home, or over any socket if there is none. */
  predicate Brings(e: AppEvent, x: ConnId, home: Option<Sock>) {
    e.GotMessage? && e.conn == x && (home.Some? ==> e.via == home.value)
  }

  /**
   The payloads of connection `x` that the application received over `home`, in order; with no home, over any socket.
   */
  function Delivered(app: seq<AppEvent>, x: ConnId, home: Option<Sock>): seq<Payload> {
    if app == [] then []
    else
      var e := app[|app| - 1];
      Delivered(app[..|app| - 1], x, home) + if Brings(e, x, home) then [e.data] else []
  }

  /** The payloads that it sent on the mock of `x`, in order. */
  function SentByApp(app: seq<AppEvent>, x: ConnId): seq<Payload> {
    if app == [] then []
    else
      var e := app[|app| - 1];
      SentByApp(app[..|app| - 1], x) + if e.AppSent? && e.conn == x then [e.data] else []
  }

  lemma {:induction false} LogAppend(app: seq<AppEvent>, e: AppEvent, x: ConnId, home: Option<Sock>)
    ensures Delivered(app + [e], x, home) == Delivered(app, x, home) + if Brings(e, x, home) then [e.data] else []
    ensures SentByApp(app + [e], x) == SentByApp(app, x) + if e.AppSent? && e.conn == x then [e.data] else []
  {
    assert (app + [e])[..|app|] == app;
  }

  /** The mock of `x` on control socket `sock` takes messages. */
  predicate Hears(s: Server, sock: Sock, x: ConnId) {
    Receives(s, x) && s.sockets[x].ctl == sock
  }

  predicate MadeOn(s: Server, sock: Sock, x: ConnId) {
    x in s.made && s.made[x] == sock
  }

  /**
   An item that a keyed server sends: it opens to its plaintext, and if it is about `x`, then `x` was made on this
   socket.
   */
  predicate SealedItem(e: Env, s: Server, sock: Sock, x: ConnId, it: Item) {
    && it.plain.Some? && sock in s.keys && OpenEnvelope(e, s.keys[sock], it.wire) == it.plain
    && (it.plain == Some(WsEvent(x, Opened)) || (it.plain.value.WsMessage? && it.plain.value.conn == x) ==>
          MadeOn(s, sock, x))
  }

  /** Keys, identities and the mock of `x`. */
  predicate SameSide(s: Server, t: Server, sock: Sock, x: ConnId) {
    && t.publicKey == s.publicKey && t.privateKey == s.privateKey && t.quote == s.quote && t.keyReady == s.keyReady
    && (sock in t.keys ==> sock in s.keys && t.keys[sock] == s.keys[sock])
    && (sock in t.open ==> sock in s.open && (sock in s.keys ==> sock in t.keys))
    && (x in t.made <==> x in s.made) && (x in s.made ==> t.made[x] == s.made[x])
    && Delivered(t.app, x, Home(t, x)) == Delivered(s.app, x, Home(s, x)) && t.open <= s.open
    && (Hears(t, sock, x) ==> Hears(s, sock, x))
  }

  function NewItems(s: Server, t: Server, sock: Sock): seq<Item>
    requires |Out(s, sock)| <= |Out(t, sock)|
  {
    Out(t, sock)[|Out(s, sock)|..]
  }

  /** Of what is said (`d`), `n` goes out: a first part, all of it, or nothing. */
  predicate Flow(n: seq<Payload>, d: seq<Payload>, all: bool, none: bool) {
    n <= d && (all ==> n == d) && (none ==> n == [])
  }

  /** Payloads on `x` go out on this socket. */
  predicate Carries(s: Server, sock: Sock, x: ConnId) {
    MadeOn(s, sock, x) && CanSend(s, sock)
  }

  predicate Grown(s: Server, t: Server, sock: Sock, x: ConnId) {
    Out(s, sock) <= Out(t, sock) && SentByApp(s.app, x) <= SentByApp(t.app, x)
  }

  /** What the application said on `x` between the two states. */
  function NewlySaid(s: Server, t: Server, x: ConnId): seq<Payload>
    requires |SentByApp(s.app, x)| <= |SentByApp(t.app, x)|
  {
    SentByApp(t.app, x)[|SentByApp(s.app, x)|..]
  }

  predicate SealedAfter(e: Env, s: Server, t: Server, sock: Sock, x: ConnId) {
    forall i :: |Out(s, sock)| <= i < |Out(t, sock)| ==> SealedItem(e, s, sock, x, Out(t, sock)[i])
  }

  /** What the application sends on `x` is what goes out for `x` on its socket, as long as that is open. */
  predicate Balanced(e: Env, s: Server, t: Server, sock: Sock, x: ConnId) {
    && Grown(s, t, sock, x) && SealedAfter(e, s, t, sock, x)
    && (x !in s.made ==> SentByApp(t.app, x) == SentByApp(s.app, x))
    && Flow(Data(NewItems(s, t, sock), x), NewlySaid(s, t, x),
            Carries(s, sock, x) && sock in t.open, !Carries(s, sock, x))
  }

  predicate Steady(e: Env, s: Server, t: Server, sock: Sock, x: ConnId) {
    SameSide(s, t, sock, x) && Balanced(e, s, t, sock, x)
  }

  /** Nothing was said and nothing was sent on `x`. */
  lemma {:induction false} SilentSteady(e: Env, s: Server, t: Server, sock: Sock, x: ConnId)
    requires SameSide(s, t, sock, x) && Out(t, sock) == Out(s, sock) && SentByApp(t.app, x) == SentByApp(s.app, x)
    ensures Steady(e, s, t, sock, x)
  {
    assert NewItems(s, t, sock) == [];
  }

  lemma {:induction false} SidesTwice(s: Server, t: Server, u: Server, sock: Sock, x: ConnId)
    requires SameSide(s, t, sock, x) && SameSide(t, u, sock, x)
    ensures SameSide(s, u, sock, x)
  {
    hide Hears, Delivered;
  }

  lemma {:induction false} SplitGrowth(a: seq<Item>, b: seq<Item>, c: seq<Item>, x: ConnId)
    requires a <= b <= c
    ensures a <= c && Data(c[|a|..], x) == Data(b[|a|..], x) + Data(c[|b|..], x)
  {
    assert c[|a|..] == b[|a|..] + c[|b|..];
    DataConcat(b[|a|..], c[|b|..], x);
  }

  lemma {:induction false} SteadyTwice(e: Env, s: Server, t: Server, u: Server, sock: Sock, x: ConnId)
    requires Steady(e, s, t, sock, x) && Steady(e, t, u, sock, x)
    ensures Steady(e, s, u, sock, x)
  {
    SidesTwice(s, t, u, sock, x);
    BalancedTwice(e, s, t, u, sock, x);
  }

  lemma {:induction false} BalancedTwice(e: Env, s: Server, t: Server, u: Server, sock: Sock, x: ConnId)
    requires SameSide(s, t, sock, x) && SameSide(t, u, sock, x)
    requires Balanced(e, s, t, sock, x) && Balanced(e, t, u, sock, x)
    ensures Balanced(e, s, u, sock, x)
  {
    SealedTwice(e, s, t, u, sock, x);
    CarriesOn(s, t, sock, x);
    CarriesOn(t, u, sock, x);
    SplitNews(s, t, u, sock, x);
    hide SealedAfter, Flow, Carries, SameSide, NewlySaid, NewItems, Out, SentByApp, Data;
    FlowTwice(Data(NewItems(s, t, sock), x), Data(NewItems(t, u, sock), x), NewlySaid(s, t, x), NewlySaid(t, u, x),
              Carries(s, sock, x), Carries(t, sock, x), sock in t.open, sock in u.open);
  }

  /** A socket that still carries payloads carried them before, and it does while it is open. */
  lemma {:induction false} CarriesOn(s: Server, t: Server, sock: Sock, x: ConnId)
    requires SameSide(s, t, sock, x)
    ensures Carries(t, sock, x) <==> Carries(s, sock, x) && sock in t.open
    ensures sock in t.open ==> sock in s.open
  {
    hide Delivered, Hears;
  }

  lemma {:induction false} FlowTwice(n1: seq<Payload>, n2: seq<Payload>, d1: seq<Payload>, d2: seq<Payload>,
                                     before: bool, between: bool, open1: bool, open2: bool)
    requires Flow(n1, d1, before && open1, !before) && Flow(n2, d2, between && open2, !between)
    requires (between <==> before && open1) && (open2 ==> open1)
    ensures Flow(n1 + n2, d1 + d2, before && open2, !before)
  {
  }

  lemma {:induction false} SplitNews(s: Server, t: Server, u: Server, sock: Sock, x: ConnId)
    requires Grown(s, t, sock, x) && Grown(t, u, sock, x)
    ensures Grown(s, u, sock, x)
    ensures Data(NewItems(s, u, sock), x) == Data(NewItems(s, t, sock), x) + Data(NewItems(t, u, sock), x)
    ensures NewlySaid(s, u, x) == NewlySaid(s, t, x) + NewlySaid(t, u, x)
  {
    hide Out, SentByApp;
    SplitGrowth(Out(s, sock), Out(t, sock), Out(u, sock), x);
  }

  lemma {:induction false} SealedTwice(e: Env, s: Server, t: Server, u: Server, sock: Sock, x: ConnId)
    requires SameSide(s, t, sock, x) && Grown(s, t, sock, x) && Grown(t, u, sock, x)
    requires SealedAfter(e, s, t, sock, x) && SealedAfter(e, t, u, sock, x)
    ensures SealedAfter(e, s, u, sock, x)
  {
    hide Hears, Delivered, Out, OpenEnvelope, SentByApp;
    var a, b, c := Out(s, sock), Out(t, sock), Out(u, sock);
    forall i | |a| <= i < |c|
      ensures SealedItem(e, s, sock, x, c[i])
    {
      if i < |b| {
        assert c[i] == b[i];
      } else {
        assert SealedItem(e, t, sock, x, c[i]);
      }
    }
  }

  // ---- sending ----

  /** A message that is no payload, and whose `open` event, if it is one, is for a mock made on its socket. */
  predicate Signal(s: Server, to: Sock, m: Msg, x: ConnId) {
    !m.WsMessage? && (m == WsEvent(x, Opened) ==> MadeOn(s, to, x))
  }

  lemma {:induction false} OneMore(s: Server, t: Server, sock: Sock, it: Item, x: ConnId)
    requires Out(t, sock) == Out(s, sock) + [it]
    ensures NewItems(s, t, sock) == [it]
    ensures Data([it], x) == if it.plain.Some? && it.plain.value.WsMessage? && it.plain.value.conn == x
                             then [it.plain.value.data] else []
  {
    assert [it][..0] == [];
  }

  /** What a send does: on a keyed open socket it adds one item, which opens to the message. */
  lemma {:induction false} SendResult(e: Env, s: Server, to: Sock, m: Msg, sock: Sock)
    requires LawfulEnv(e)
    ensures var t := SendEncrypted(e, s, to, m);
            && t.(out := s.out, drawn := s.drawn) == s
            && (CanSend(s, to) && to == sock ==>
                  && |Out(t, sock)| == |Out(s, sock)| + 1
                  && var it := Out(t, sock)[|Out(s, sock)|];
                     && Out(t, sock) == Out(s, sock) + [it] && it.plain == Some(m)
                     && OpenEnvelope(e, s.keys[sock], it.wire) == Some(m))
            && (!(CanSend(s, to) && to == sock) ==> Out(t, sock) == Out(s, sock))
  {
    if CanSend(s, to) {
      EnvelopeOpens(e, s.keys[to], s.drawn, m);
    }
    hide Envelope, OpenEnvelope;
  }

  lemma {:induction false} FrameSide(s: Server, t: Server, sock: Sock, x: ConnId)
    requires t.(out := s.out, drawn := s.drawn, app := s.app) == s
    requires Delivered(t.app, x, Home(t, x)) == Delivered(s.app, x, Home(s, x))
    ensures SameSide(s, t, sock, x)
  {
    hide Delivered;
  }

  lemma {:induction false} SignalSteady(e: Env, s: Server, to: Sock, m: Msg, sock: Sock, x: ConnId)
    requires LawfulEnv(e) && Signal(s, to, m, x)
    ensures Steady(e, s, SendEncrypted(e, s, to, m), sock, x)
  {
    hide Delivered, SentByApp, Data, OpenEnvelope, SendEncrypted, Out;
    var t := SendEncrypted(e, s, to, m);
    SendResult(e, s, to, m, sock);
    FrameSide(s, t, sock, x);
    hide SameSide;
    if CanSend(s, to) && to == sock {
      OneMore(s, t, sock, Out(t, sock)[|Out(s, sock)|], x);
    } else {
      SilentSteady(e, s, t, sock, x);
    }
  }

  lemma {:induction false} PayloadSteady(e: Env, s: Server, m: nat, data: Payload, sock: Sock, x: ConnId)
    requires LawfulEnv(e) && m < |s.mocks| && s.mocks[m].conn in s.made && s.made[s.mocks[m].conn] == s.mocks[m].ctl
    ensures Steady(e, s, MockSend(e, s, m, data), sock, x)
  {
    if s.mocks[m].state != Open {
      SilentSteady(e, s, s, sock, x);
    } else {
      PayloadBalanced(e, s, s.mocks[m].ctl, s.mocks[m].conn, data, sock, x);
    }
  }

  lemma {:induction false} PayloadBalanced(e: Env, s: Server, to: Sock, c: ConnId, data: Payload, sock: Sock, x: ConnId)
    requires LawfulEnv(e) && c in s.made && s.made[c] == to
    ensures Steady(e, s, SendEncrypted(e, Log(s, AppSent(c, data)), to, WsMessage(c, data)), sock, x)
  {
    hide Delivered, SentByApp, Data, OpenEnvelope, SendEncrypted;
    var l := Log(s, AppSent(c, data));
    var t := SendEncrypted(e, l, to, WsMessage(c, data));
    LogAppend(s.app, AppSent(c, data), x, Home(s, x));
    SendResult(e, l, to, WsMessage(c, data), sock);
    assert Out(l, sock) == Out(s, sock);
    FrameSide(s, t, sock, x);
    hide SameSide, Out;
    if CanSend(s, to) && to == sock {
      OneMore(s, t, sock, Out(t, sock)[|Out(s, sock)|], x);
    } else {
      assert NewItems(s, t, sock) == [];
      NoData(x);
    }
  }

  lemma {:induction false} NoData(x: ConnId)
    ensures Data([], x) == []
  {
  }

  // ---- application code ----

  lemma {:induction false} EmitCloseSide(s: Server, m: nat, sock: Sock, x: ConnId)
    ensures SameSide(s, EmitClose(s, m), sock, x) && SentByApp(EmitClose(s, m).app, x) == SentByApp(s.app, x)
  {
    hide Delivered, SentByApp;
    LogAppend(s.app, GotClose(m), x, Home(s, x));
  }

  lemma {:induction false} EmitCloseSteady(e: Env, s: Server, m: nat, sock: Sock, x: ConnId)
    ensures Steady(e, s, EmitClose(s, m), sock, x)
  {
    hide Steady, SameSide, SentByApp;
    EmitCloseSide(s, m, sock, x);
    SilentSteady(e, s, EmitClose(s, m), sock, x);
  }

  lemma {:induction false} SetStateSteady(e: Env, s: Server, m: nat, state: ReadyState, sock: Sock, x: ConnId)
    requires m < |s.mocks| && state != Open
    ensures Steady(e, s, SetState(s, m, state), sock, x)
  {
    hide Delivered, SentByApp;
    SilentSteady(e, s, SetState(s, m, state), sock, x);
  }

  lemma {:induction false} MockCloseSteady(e: Env, s: Server, m: nat, sock: Sock, x: ConnId)
    requires LawfulEnv(e)
    ensures Steady(e, s, MockClose(e, s, m), sock, x)
  {
    hide Steady, SendEncrypted, EmitClose, MadeOn, LawfulEnv;
    if m >= |s.mocks| || s.mocks[m].state == Closing || s.mocks[m].state == Closed {
      SelfSteady(e, s, sock, x);
    } else {
      var a := SetState(s, m, Closing);
      var msg := WsEvent(s.mocks[m].conn, ClosedByPeer);
      var b := SendEncrypted(e, a, s.mocks[m].ctl, msg);
      SetStateSteady(e, s, m, Closing, sock, x);
      SignalSteady(e, a, s.mocks[m].ctl, msg, sock, x);
      EmitCloseSteady(e, b, m, sock, x);
      SteadyTwice(e, s, a, b, sock, x);
      SteadyTwice(e, s, b, EmitClose(b, m), sock, x);
    }
  }

  lemma {:induction false} CloseEachSteady(e: Env, s: Server, order: seq<nat>, sock: Sock, x: ConnId)
    requires LawfulEnv(e)
    ensures Steady(e, s, CloseEach(e, s, order), sock, x)
    decreases |order|
  {
    if order == [] {
      SilentSteady(e, s, s, sock, x);
    } else {
      hide Steady, MockClose;
      MockCloseSteady(e, s, order[0], sock, x);
      CloseEachSteady(e, MockClose(e, s, order[0]), order[1..], sock, x);
      SteadyTwice(e, s, MockClose(e, s, order[0]), CloseEach(e, s, order), sock, x);
    }
  }

  lemma {:induction false} ClientsSteady(e: Env, s: Server, clients: set<nat>, sock: Sock, x: ConnId)
    ensures Steady(e, s, s.(clients := clients), sock, x)
  {
    SilentSteady(e, s, s.(clients := clients), sock, x);
  }

  lemma {:induction false} AppActSteady(e: Env, s: Server, a: AppAction, sock: Sock, x: ConnId)
    requires LawfulEnv(e) && RegistryOk(s)
    ensures Steady(e, s, AppAct(e, s, a), sock, x)
  {
    hide Steady, MockClose, SendEncrypted, CloseEach, MockSend;
    match a
    case DoSend(m, data) =>
      if m < |s.mocks| {
        assert MockOk(s, m);
        PayloadSteady(e, s, m, data, sock, x);
      } else {
        BadIndex(e, s, m, data, sock, x);
      }
    case DoClose(m) =>
      MockCloseSteady(e, s, m, sock, x);
    case WssClose(order) =>
      var t := CloseEach(e, s, order);
      CloseEachSteady(e, s, order, sock, x);
      ClientsSteady(e, t, {}, sock, x);
      SteadyTwice(e, s, t, t.(clients := {}), sock, x);
    case Respond(to, req, content) =>
      SignalSteady(e, s, to, HttpResponse(req, content), sock, x);
  }

  lemma {:induction false} BadIndex(e: Env, s: Server, m: nat, data: Payload, sock: Sock, x: ConnId)
    requires m >= |s.mocks|
    ensures Steady(e, s, MockSend(e, s, m, data), sock, x)
  {
    SilentSteady(e, s, s, sock, x);
  }

  lemma {:induction false} AppRunSteady(e: Env, s: Server, script: seq<AppAction>, sock: Sock, x: ConnId)
    requires LawfulEnv(e) && RegistryOk(s)
    ensures Steady(e, s, AppRun(e, s, script), sock, x)
    decreases |script|
  {
    if script == [] {
      SilentSteady(e, s, s, sock, x);
    } else {
      hide Steady, AppAct, RegistryOk;
      var t := AppAct(e, s, script[0]);
      RegistrySettled(s);
      AppActEvolves(e, s, script[0]);
      RegistryEvolves(s, t);
      AppActSteady(e, s, script[0], sock, x);
      AppRunSteady(e, t, script[1..], sock, x);
      SteadyTwice(e, s, t, AppRun(e, t, script[1..]), sock, x);
    }
  }

  lemma {:induction false} RetireSteady(e: Env, s: Server, m: nat, react: seq<AppAction>, sock: Sock, x: ConnId)
    requires LawfulEnv(e) && RegistryOk(s)
    ensures Steady(e, s, Retire(e, s, m, react), sock, x)
  {
    hide Steady, AppRun, EmitClose, RegistryOk;
    if m < |s.mocks| && s.mocks[m].state != Closed {
      var t := EmitClose(s, m);
      var u := AppRun(e, t, react);
      RegistrySettled(s);
      EmitCloseEvolves(s, m);
      RegistryEvolves(s, t);
      EmitCloseSteady(e, s, m, sock, x);
      AppRunSteady(e, t, react, sock, x);
      SteadyTwice(e, s, t, u, sock, x);
      ClientsSteady(e, u, u.clients - {m}, sock, x);
      SteadyTwice(e, s, u, u.(clients := u.clients - {m}), sock, x);
    } else {
      ClientsSteady(e, s, s.clients - {m}, sock, x);
    }
  }

  // ---- steps of the server ----

  lemma {:induction false} DropSteady(e: Env, s: Server, gone: set<ConnId>, sock: Sock, x: ConnId)
    ensures Steady(e, s, s.(sockets := s.sockets - gone), sock, x)
  {
    SilentSteady(e, s, s.(sockets := s.sockets - gone), sock, x);
  }

  lemma {:induction false} AddMockSteady(e: Env, s: Server, via: Sock, c: ConnId, sock: Sock, x: ConnId)
    requires c != x && RegistryOk(s)
    ensures Steady(e, s, AddMock(s, via, c), sock, x)
  {
    assert x in s.sockets ==> SocketOk(s, x);
    hide Delivered, SentByApp, RegistryOk, Steady;
    LogAppend(s.app, GotConnection(via, |s.mocks|), x, Home(s, x));
    AddMockHears(s, via, c, sock, x);
    hide Hears;
    SilentSteady(e, s, AddMock(s, via, c), sock, x);
  }

  lemma {:induction false} AddMockHears(s: Server, via: Sock, c: ConnId, sock: Sock, x: ConnId)
    requires c != x
    ensures Hears(AddMock(s, via, c), sock, x) ==>
      Hears(s, sock, x) || (x in s.sockets && s.sockets[x].mock >= |s.mocks|)
  {
  }

  /** Handling a message that does not connect `x` and is no payload that came over its home. */
  lemma {:induction false} DispatchSteady(e: Env, s: Server, via: Sock, m: Msg, react: seq<AppAction>, sock: Sock,
                                          x: ConnId)
    requires LawfulEnv(e) && RegistryOk(s) && (m.WsConnect? ==> m.conn !in s.made && m.conn != x)
    requires m.WsMessage? && m.conn == x ==> Home(s, x) != Some(via)
    ensures Steady(e, s, Dispatch(e, s, via, m, react), sock, x)
  {
    hide Steady, AppRun, SendEncrypted, Retire, RegistryOk;
    match m
    case HttpRequest(req, _) =>
      LogSteady(e, s, GotRequest(via, req), sock, x);
    case WsConnect(c) =>
      if s.hono && via !in s.contexts {
        SignalSteady(e, s, via, WsEvent(c, Errored), sock, x);
      } else {
        ConnectSteady(e, s, via, c, react, sock, x);
      }
    case WsMessage(c, data) =>
      if Receives(s, c) {
        ReceiverIsMade(s, c);
        LogSteady(e, s, GotMessage(via, c, data), sock, x);
        var t := Log(s, GotMessage(via, c, data));
        FieldsOnlyOk(s, t);
        AppRunSteady(e, t, react, sock, x);
        SteadyTwice(e, s, t, AppRun(e, t, react), sock, x);
      } else {
        SelfSteady(e, s, sock, x);
      }
    case WsClose(c) =>
      if c in s.sockets {
        var t := Retire(e, s, s.sockets[c].mock, react);
        RetireSteady(e, s, s.sockets[c].mock, react, sock, x);
        DropSteady(e, t, {c}, sock, x);
        SteadyTwice(e, s, t, t.(sockets := t.sockets - {c}), sock, x);
      } else {
        SelfSteady(e, s, sock, x);
      }
    case _ =>
      SelfSteady(e, s, sock, x);
  }

  lemma {:induction false} SelfSteady(e: Env, s: Server, sock: Sock, x: ConnId)
    ensures Steady(e, s, s, sock, x)
  {
    SilentSteady(e, s, s, sock, x);
  }

  lemma {:induction false} LogSteady(e: Env, s: Server, event: AppEvent, sock: Sock, x: ConnId)
    requires !event.AppSent? && !Brings(event, x, Home(s, x))
    ensures Steady(e, s, Log(s, event), sock, x)
  {
    LogAppend(s.app, event, x, Home(s, x));
    SilentSteady(e, s, Log(s, event), sock, x);
  }

  lemma {:induction false} ConnectSteady(e: Env, s: Server, via: Sock, c: ConnId, react: seq<AppAction>, sock: Sock,
                                         x: ConnId)
    requires LawfulEnv(e) && RegistryOk(s) && c !in s.made && c != x
    ensures Steady(e, s, SendEncrypted(e, AppRun(e, AddMock(s, via, c), react), via, WsEvent(c, Opened)), sock, x)
  {
    hide Steady, AppRun, SendEncrypted, AddMock, RegistryOk;
    var t := AddMock(s, via, c);
    var u := AppRun(e, t, react);
    AddMockSteady(e, s, via, c, sock, x);
    AddMockOk(s, via, c);
    AppRunSteady(e, t, react, sock, x);
    SignalSteady(e, u, via, WsEvent(c, Opened), sock, x);
    SteadyTwice(e, s, t, u, sock, x);
    SteadyTwice(e, s, u, SendEncrypted(e, u, via, WsEvent(c, Opened)), sock, x);
  }

  lemma {:induction false} RetireEachSteady(e: Env, s: Server, gone: Sock, order: seq<ConnId>,
                                            react: nat -> seq<AppAction>,
                                            sock: Sock, x: ConnId)
    requires LawfulEnv(e) && RegistryOk(s)
    ensures Steady(e, s, RetireEach(e, s, gone, order, react), sock, x)
    decreases |order|
  {
    hide Steady, Retire, RegistryOk;
    if order == [] {
      SelfSteady(e, s, sock, x);
    } else {
      var front, c := order[..|order| - 1], order[|order| - 1];
      var t := RetireEach(e, s, gone, front, react);
      RetireEachSteady(e, s, gone, front, react, sock, x);
      RetireEachEvolves(e, s, gone, front, react);
      RegistryEvolves(s, t);
      if c in t.sockets && t.sockets[c].ctl == gone {
        RetireSteady(e, t, t.sockets[c].mock, react(|order| - 1), sock, x);
        SteadyTwice(e, s, t, Retire(e, t, t.sockets[c].mock, react(|order| - 1)), sock, x);
      }
    }
  }

  lemma {:induction false} ClosesSteady(e: Env, s: Server, gone: Sock, order: seq<ConnId>, react: nat -> seq<AppAction>,
                                        sock: Sock, x: ConnId)
    requires LawfulEnv(e) && RegistryOk(s)
    ensures Steady(e, s, ControlClosed(e, s, gone, order, react), sock, x)
  {
    hide Steady, RetireEach, RegistryOk, Owned;
    var f := Forget(s, gone);
    var t := RetireEach(e, f, gone, order, react);
    ForgetSteady(e, s, gone, sock, x);
    ForgetOk(s, gone);
    RetireEachSteady(e, f, gone, order, react, sock, x);
    DropSteady(e, t, Owned(t, gone), sock, x);
    SteadyTwice(e, s, f, t, sock, x);
    SteadyTwice(e, s, t, t.(sockets := t.sockets - Owned(t, gone)), sock, x);
  }

  lemma {:induction false} ForgetSteady(e: Env, s: Server, gone: Sock, sock: Sock, x: ConnId)
    ensures Steady(e, s, Forget(s, gone), sock, x)
  {
    hide Delivered, SentByApp;
    SilentSteady(e, s, Forget(s, gone), sock, x);
  }
}
