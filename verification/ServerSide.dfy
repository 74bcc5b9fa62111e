/** The tunnel server (tunnel/src/server.ts) and its mock sockets (tunnel/src/ServerRAWebSocket.ts). */
module ServerSide {
  import opened Bytes
  import opened Crypto
  import opened Messages

  /** A mock socket that the application sees; `closes` counts its emitted `close` events. */
  datatype Mock = Mock(conn: ConnId, ctl: Sock, state: ReadyState, closes: nat)

  /** An entry of `sockets`: a mock, known by its number, and the control socket it came over. */
  datatype Conn = Conn(mock: nat, ctl: Sock)

  /** What passes between the server and the application, in order. */
  datatype AppEvent =
    | GotRequest(via: Sock, req: ReqId)
    | GotConnection(via: Sock, mock: nat)
    | GotMessage(via: Sock, conn: ConnId, data: Payload)
    | GotClose(mock: nat)
    | AppSent(conn: ConnId, data: Payload)

  /**
   The fields of the server. `open` are the control sockets whose transport still takes bytes.
   History: `mocks` are all mocks ever made, `made` the control socket of every connection id
   ever connected, `out` everything sent on each control socket, `app` the application events.
   */
  datatype Server = Server(
    hono: bool, publicKey: seq<byte>, privateKey: seq<byte>, quote: Option<seq<byte>>, keyReady: bool,
    keys: map<Sock, seq<byte>>, contexts: set<Sock>, open: set<Sock>,
    sockets: map<ConnId, Conn>, clients: set<nat>,
    mocks: seq<Mock>, made: map<ConnId, Sock>, out: map<Sock, seq<Item>>, drawn: nat, app: seq<AppEvent>)

  function Out(s: Server, sock: Sock): seq<Item> {
    if sock in s.out then s.out[sock] else []
  }

  function Log(s: Server, event: AppEvent): Server {
    s.(app := s.app + [event])
  }

  predicate CanSend(s: Server, sock: Sock) {
    sock in s.keys && |s.keys[sock]| == 32 && sock in s.open
  }

  function Post(s: Server, sock: Sock, it: Item): Server {
    s.(out := s.out[sock := Out(s, sock) + [it]])
  }

  /** `sendEncrypted`; callers catch what it throws, and a closed transport takes nothing. */
  function SendEncrypted(e: Env, s: Server, sock: Sock, m: Msg): Server {
    if !CanSend(s, sock) then s
    else
      var w := Envelope(e, s.keys[sock], s.drawn, m);
      if w.None? then s else Post(s.(drawn := s.drawn + 1), sock, Item(w.value, Some(m)))
  }

  // ---- mock sockets, as the application uses them ----

  function MockSend(e: Env, s: Server, m: nat, data: Payload): Server {
    if m >= |s.mocks| || s.mocks[m].state != Open then s
    else SendEncrypted(e, Log(s, AppSent(s.mocks[m].conn, data)), s.mocks[m].ctl, WsMessage(s.mocks[m].conn, data))
  }

  function SetState(s: Server, m: nat, state: ReadyState): Server
    requires m < |s.mocks|
  {
    s.(mocks := s.mocks[m := s.mocks[m].(state := state)])
  }

  /** `emitClose`: only the first call has an effect. */
  function EmitClose(s: Server, m: nat): Server {
    if m >= |s.mocks| || s.mocks[m].state == Closed then s
    else Log(s.(mocks := s.mocks[m := s.mocks[m].(state := Closed, closes := s.mocks[m].closes + 1)]), GotClose(m))
  }

  function MockClose(e: Env, s: Server, m: nat): Server {
    if m >= |s.mocks| || s.mocks[m].state == Closing || s.mocks[m].state == Closed then s
    else
      EmitClose(SendEncrypted(e, SetState(s, m, Closing), s.mocks[m].ctl, WsEvent(s.mocks[m].conn, ClosedByPeer)), m)
  }

  /**
   What application code may do, in a callback or at any other time. `WssClose` lists the clients
   in the order in which they are closed; an action between two of them is written between two
   actions, since nothing runs after the event that a close emits.
   */
  datatype AppAction =
    | DoSend(mock: nat, data: Payload)
    | DoClose(mock: nat)
    | WssClose(order: seq<nat>)
    | Respond(sock: Sock, req: ReqId, content: Payload)

  function CloseEach(e: Env, s: Server, order: seq<nat>): Server
    decreases |order|
  {
    if order == [] then s else CloseEach(e, MockClose(e, s, order[0]), order[1..])
  }

  function AppAct(e: Env, s: Server, a: AppAction): Server {
    match a
    case DoSend(m, data) => MockSend(e, s, m, data)
    case DoClose(m) => MockClose(e, s, m)
    case WssClose(order) => CloseEach(e, s, order).(clients := {})
    case Respond(sock, req, content) => SendEncrypted(e, s, sock, HttpResponse(req, content))
  }

  function AppRun(e: Env, s: Server, script: seq<AppAction>): Server
    decreases |script|
  {
    if script == [] then s else AppRun(e, AppAct(e, s, script[0]), script[1..])
  }

  // ---- control messages; `react` is what the application does in the callback, if one runs ----

  function AddMock(s: Server, sock: Sock, conn: ConnId): Server {
    var m := |s.mocks|;
    Log(s.(mocks := s.mocks + [Mock(conn, sock, Open, 0)], made := s.made[conn := sock],
           sockets := s.sockets[conn := Conn(m, sock)], clients := s.clients + {m}),
        GotConnection(sock, m))
  }

  function HandleConnect(e: Env, s: Server, sock: Sock, conn: ConnId, react: seq<AppAction>): Server {
    if s.hono && sock !in s.contexts then SendEncrypted(e, s, sock, WsEvent(conn, Errored))
    else SendEncrypted(e, AppRun(e, AddMock(s, sock, conn), react), sock, WsEvent(conn, Opened))
  }

  predicate Receives(s: Server, conn: ConnId) {
    conn in s.sockets && s.sockets[conn].mock < |s.mocks| && s.mocks[s.sockets[conn].mock].state == Open
  }

  function HandleMessage(e: Env, s: Server, sock: Sock, conn: ConnId, data: Payload, react: seq<AppAction>): Server {
    if Receives(s, conn) then AppRun(e, Log(s, GotMessage(sock, conn, data)), react) else s
  }

  /** Close one mock and take it off the client set; `react` runs in the close callback. */
  function Retire(e: Env, s: Server, m: nat, react: seq<AppAction>): Server {
    var t := if m < |s.mocks| && s.mocks[m].state != Closed then AppRun(e, EmitClose(s, m), react) else s;
    t.(clients := t.clients - {m})
  }

  function HandleClose(e: Env, s: Server, conn: ConnId, react: seq<AppAction>): Server {
    if conn !in s.sockets then s
    else
      var t := Retire(e, s, s.sockets[conn].mock, react);
      t.(sockets := t.sockets - {conn})
  }

  function Dispatch(e: Env, s: Server, sock: Sock, m: Msg, react: seq<AppAction>): Server {
    match m
    case HttpRequest(req, _) => Log(s, GotRequest(sock, req))
    case WsConnect(conn) => HandleConnect(e, s, sock, conn, react)
    case WsMessage(conn, data) => HandleMessage(e, s, sock, conn, data, react)
    case WsClose(conn) => HandleClose(e, s, conn, react)
    case _ => s
  }

  function HandleControl(e: Env, s: Server, sock: Sock, w: Wire, react: seq<AppAction>): Server {
    if w.ClientKx? then
      if sock in s.keys then s
      else
        var key := BoxSealOpen(e.suite, w.sealedSymmetricKey, s.publicKey, s.privateKey);
        if key.None? then s else s.(keys := s.keys[sock := key.value])
    else if sock !in s.keys then s
    else
      var m := OpenEnvelope(e, s.keys[sock], w);
      if m.None? then s else Dispatch(e, s, sock, m.value, react)
  }

  // ---- control sockets come and go ----

  /** A fetched quote; the key pair is renewed before it, also when the fetch fails. */
  function AfterGetQuote(e: Env, s: Server, secret: seq<byte>, fetched: Option<seq<byte>>): Server {
    s.(publicKey := e.suite.publicKey(secret), privateKey := secret,
       quote := if fetched.Some? then fetched else s.quote, keyReady := s.keyReady || fetched.Some?)
  }

  function Enroll(s: Server, sock: Sock): Server {
    s.(open := s.open + {sock}, contexts := if s.hono then s.contexts + {sock} else s.contexts)
  }

  /** The announcement on a socket; without a quote the socket is closed. */
  function Announce(s: Server, sock: Sock): Server {
    if s.quote.None? then s.(open := s.open - {sock})
    else Post(s, sock, Item(ServerKx(s.publicKey, s.quote.value), None))
  }

  /** A new control socket, and the announcement on it. */
  function Attach(e: Env, s: Server, sock: Sock, secret: seq<byte>, fetched: Option<seq<byte>>): Server {
    var enrolled := Enroll(s, sock);
    Announce(if s.keyReady then enrolled else AfterGetQuote(e, enrolled, secret, fetched), sock)
  }

  /** Connections that came over a control socket. */
  function Owned(s: Server, sock: Sock): set<ConnId> {
    set conn | conn in s.sockets && s.sockets[conn].ctl == sock
  }

  /** The cleanup loop over the entries in the given order; callback `i` does `react(i)`. */
  function RetireEach(e: Env, s: Server, sock: Sock, order: seq<ConnId>, react: nat -> seq<AppAction>): Server {
    if order == [] then s
    else
      var t := RetireEach(e, s, sock, order[..|order| - 1], react);
      var conn := order[|order| - 1];
      if conn in t.sockets && t.sockets[conn].ctl == sock
      then Retire(e, t, t.sockets[conn].mock, react(|order| - 1)) else t
  }

  function Forget(s: Server, sock: Sock): Server {
    s.(keys := s.keys - {sock}, contexts := s.contexts - {sock}, open := s.open - {sock})
  }

  function ControlClosed(e: Env, s: Server, sock: Sock, order: seq<ConnId>, react: nat -> seq<AppAction>): Server {
    var t := RetireEach(e, Forget(s, sock), sock, order, react);
    t.(sockets := t.sockets - Owned(t, sock))
  }
}
