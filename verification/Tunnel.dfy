/** One client and the server around their control socket: the joint steps and what every step keeps. */
module Tunnel {
  import opened Bytes
  import opened Crypto
  import opened Messages
  import opened ServerSide
  import opened ServerTheorems
  import opened ClientSide
  import opened Steady

  /** The primitives, the client's configuration, and what the foreign checks say of an announced quote. */
  datatype Setting = Setting(e: Env, d: Digests, cfg: ClientConfig, judge: seq<byte> -> Evidence)

  /**
   `sock` is the control socket that they share now. The server has handled the first `taken` of the
   messages that the client sent on it, the client the first `read` of those that the server sent.
   Of `stale` sockets that were replaced before they were closed, the close event is still to come.
   */
  datatype Sys = Sys(k: Client, s: Server, sock: Sock, taken: nat, read: nat, stale: nat)

  function Sent(y: Sys): seq<Item> {
    Out(y.s, y.sock)
  }

  function From(items: seq<Item>, n: nat): seq<Item> {
    if n <= |items| then items[n..] else []
  }

  // ---- steps ----

  /** What happens to the client's end of the control socket; `Shuts` is `close` of the client. */
  datatype Change = Opens | Loses | Goes | Shuts

  /** What the client does on its own. */
  datatype ClientAction =
    | NewConnection(x: ConnId)
    | AsksFor(x: ConnId, portMatches: bool)
    | Sends(x: ConnId, data: Payload)
    | Closes(x: ConnId)
    | Requests(req: ReqId, content: Payload)

  datatype Action =
    | Connects(sock: Sock, secret: seq<byte>, fetched: Option<seq<byte>>)
    | Changes(change: Change)
    | StaleCloses
    | Acts(act: ClientAction)
    | ClientReads(key: seq<byte>, ephemeral: seq<byte>)
    | ServerReads(react: seq<AppAction>)
    | ServerActs(step: ServerTheorems.Step)

  /** Connecting to `c`, or a payload for it. */
  predicate Addresses(m: Msg, c: ConnId) {
    (m.WsConnect? || m.WsMessage?) && m.conn == c
  }

  /** News for `x`: it is open, or a payload. */
  predicate About(it: Item, x: ConnId) {
    it.plain == Some(WsEvent(x, Opened)) || (it.plain.Some? && it.plain.value.WsMessage? && it.plain.value.conn == x)
  }

  predicate Mentions(items: seq<Item>, x: ConnId) {
    exists i :: 0 <= i < |items| && About(items[i], x)
  }

  /** A random connection id that nobody has used. */
  predicate Unused(y: Sys, x: ConnId) {
    && x !in y.k.mocks && x !in y.s.made && !Mentions(Sent(y), x) && Data(Sent(y), x) == []
    && Delivered(y.s.app, x, None) == [] && SentByApp(y.s.app, x) == []
  }

  /**
   Another socket does not connect this client's ids, which are fresh; it may send anything else. The
   client's own messages are handled by `ServerReads`.
   */
  predicate Foreign(g: Setting, y: Sys, step: ServerTheorems.Step) {
    match step
    case Attaches(sock, secret, _) => sock != y.sock && |secret| == 32
    case Control(sock, w, _) =>
      sock != y.sock
      && (Openable(g.e, y.s, sock, w) ==>
            var m := OpenEnvelope(g.e, y.s.keys[sock], w).value;
            m.WsConnect? ==> m.conn !in y.k.mocks)
    case _ => true
  }

  /** The socket is one of this client's; it is asked for once. */
  predicate Known(k: Client, act: ClientAction) {
    match act
    case AsksFor(x, _) => x in k.mocks && !k.mocks[x].asked
    case Sends(x, _) => x in k.mocks
    case Closes(x) => x in k.mocks
    case _ => true
  }

  function Act(g: Setting, k: Client, act: ClientAction): Client
    requires Known(k, act)
  {
    match act
    case NewConnection(x) => NewSocket(k, x)
    case AsksFor(x, portMatches) => FinishConnect(g.e, k, x, portMatches)
    case Sends(x, data) => SocketSend(g.e, k, x, data)
    case Closes(x) => SocketClose(g.e, k, x)
    case Requests(req, content) => TrySend(g.e, k, HttpRequest(req, content))
  }

  function Changed(k: Client, change: Change): Client {
    match change
    case Opens => WsOpened(k)
    case Loses => if k.ws == Open then k.(ws := Closing) else k
    case Goes => WsClosed(k)
    case Shuts => CloseClient(k)
  }

  function ClientHandles(g: Setting, k: Client, w: Wire, key: seq<byte>, ephemeral: seq<byte>): Client {
    if w.ServerKx? then HandleServerKx(g.e, g.d, g.cfg, k, w.x25519PublicKey, g.judge(w.quote), key, ephemeral)
    else if w.Enc? then HandleEnvelope(g.e, k, w)
    else k
  }

  /**
   A client connects again whenever its socket is not open, also while that is still closing; the server
   is done with the old socket then.
   */
  predicate CanConnect(g: Setting, y: Sys, step: ServerTheorems.Step) {
    && step.Attaches? && |step.secret| == 32 && Enabled(g.e, y.s, step)
    && y.k.ws != Open && !y.k.closed && y.sock !in y.s.open
  }

  predicate Can(g: Setting, y: Sys, a: Action) {
    match a
    case Connects(sock, secret, fetched) => CanConnect(g, y, Attaches(sock, secret, fetched))
    case Changes(_) => true
    case StaleCloses => y.stale > 0
    case Acts(act) => Known(y.k, act) && (act.NewConnection? ==> Unused(y, act.x))
    case ClientReads(key, _) => (y.k.ws == Open || y.k.ws == Closing) && y.read < |Sent(y)| && |key| == 32
    case ServerReads(_) => y.taken < |y.k.out| && y.sock in y.s.open
    case ServerActs(step) => Enabled(g.e, y.s, step) && Foreign(g, y, step)
  }

  function Do(g: Setting, y: Sys, a: Action): Sys
    requires Can(g, y, a)
  {
    match a
    case Connects(sock, secret, fetched) =>
      Sys(Reconnect(y.k), Attach(g.e, y.s, sock, secret, fetched), sock, 0, 0,
          if y.k.ws == Closed then y.stale else y.stale + 1)
    case Changes(change) => y.(k := Changed(y.k, change))
    case StaleCloses => y.(k := CloseHandled(y.k), stale := y.stale - 1)
    case Acts(act) => y.(k := Act(g, y.k, act))
    case ClientReads(key, ephemeral) =>
      y.(k := ClientHandles(g, y.k, Sent(y)[y.read].wire, key, ephemeral), read := y.read + 1)
    case ServerReads(react) =>
      y.(s := HandleControl(g.e, y.s, y.sock, y.k.out[y.taken].wire, react), taken := y.taken + 1)
    case ServerActs(step) => y.(s := Next(g.e, y.s, step))
  }

  // ---- the keys ----

  predicate Passed(g: Setting, publicKey: seq<byte>, quote: seq<byte>) {
    EarlyChecks(g.cfg, g.judge(quote)) && LateChecks(g.d, g.cfg, g.judge(quote), publicKey)
  }

  /**
   A key is the one that was generated on this connection, if one was. Before that, the client may
   still hold the key of a connection that this one replaced.
   */
  predicate SessionOk(k: Client) {
    && (k.session.Some? ==> |k.session.value| == 32 && k.since <= |k.out|)
    && (k.key.Some? ==> |k.key.value| == 32)
    && (k.key.Some? && k.session.Some? ==> k.key == k.session)
    && (k.ws == Connecting ==> k.session.None?)
  }

  /** A message of a tunneled socket. */
  predicate FromSocket(m: Msg) {
    m.WsConnect? || m.WsMessage? || m.WsClose?
  }

  /** Sent before the session began. */
  predicate Early(k: Client, i: nat) {
    k.session.None? || i < k.since
  }

  predicate FromClient(g: Setting, k: Client, s: Server, it: Item, early: bool) {
    match it.wire
    case ClientReady => it.plain.None?
    case ClientKx(sealed) =>
      && it.plain.None? && !early && k.session.Some? && k.trusted
      && BoxSealOpen(g.e.suite, sealed, s.publicKey, s.privateKey) == k.session
    case Enc(_, _) =>
      && it.plain.Some?
      && (!early ==> k.session.Some? && OpenEnvelope(g.e, k.session.value, it.wire) == it.plain)
      && (FromSocket(it.plain.value) ==> it.plain.value.conn in k.mocks)
    case _ => false
  }

  predicate FromServer(g: Setting, session: Option<seq<byte>>, it: Item) {
    it.plain.Some? && session.Some? && OpenEnvelope(g.e, session.value, it.wire) == it.plain
  }

  predicate IdentityOk(g: Setting, s: Server) {
    && (s.quote.Some? <==> s.keyReady)
    && (s.keyReady ==> |s.privateKey| == 32 && s.publicKey == g.e.suite.publicKey(s.privateKey))
  }

  /** Everything on the control socket after the announcement is an envelope under the session key. */
  predicate Announced(g: Setting, y: Sys) {
    Sent(y) == [] ||
      (&& y.s.keyReady && y.s.quote.Some? && Sent(y)[0] == Item(ServerKx(y.s.publicKey, y.s.quote.value), None)
       && forall i :: 1 <= i < |Sent(y)| ==> FromServer(g, y.k.session, Sent(y)[i]))
  }

  /** A key at the server is the client's, and it was handed over after all checks on the announced key. */
  predicate KeysAgree(g: Setting, y: Sys) {
    && (y.sock in y.s.keys ==> y.k.session == Some(y.s.keys[y.sock]) && y.k.trusted && y.k.since <= y.taken)
    && (y.k.session.Some? ==> y.read >= 1)
    && (y.k.trusted ==>
          && y.k.session.Some? && y.s.quote.Some? && y.k.serverPublicKey == y.s.publicKey
          && Passed(g, y.s.publicKey, y.s.quote.value))
  }

  predicate ClientItems(g: Setting, k: Client, s: Server) {
    forall i :: 0 <= i < |k.out| ==> FromClient(g, k, s, k.out[i], Early(k, i))
  }

  predicate KeyInv(g: Setting, y: Sys) {
    && y.taken <= |y.k.out| && y.read <= |Sent(y)|
    && IdentityOk(g, y.s) && SessionOk(y.k) && ClientItems(g, y.k, y.s)
    && Announced(g, y) && KeysAgree(g, y)
  }

  // ---- one tunneled connection ----

  /** How many requests to connect `x` there are. */
  function Requested(items: seq<Item>, x: ConnId): nat {
    if items == [] then 0
    else Requested(items[..|items| - 1], x) + if items[|items| - 1].plain == Some(WsConnect(x)) then 1 else 0
  }

  /** The connection was made over another socket that is still open. */
  predicate MadeElsewhere(s: Server, sock: Sock, x: ConnId) {
    x in s.made && s.made[x] != sock && s.made[x] in s.open
  }

  /** What matters about connection `x` in a state of the system. */
  datatype Link = Link(
    m: ClientSide.Mock, registered: bool, ws: ReadyState, key: bool, requested: nat,
    made: bool, here: bool, elsewhere: bool, hears: bool, live: bool, keyed: bool, mentioned: bool,
    delivered: seq<Payload>, underway: seq<Payload>, appSent: seq<Payload>, coming: seq<Payload>)

  function LinkOf(y: Sys, x: ConnId): Link
    requires x in y.k.mocks
  {
    Link(y.k.mocks[x], x in y.k.registered, y.k.ws, y.k.key.Some?, Requested(From(y.k.out, y.taken), x),
         x in y.s.made, MadeOn(y.s, y.sock, x), MadeElsewhere(y.s, y.sock, x),
         y.sock in y.s.open && Hears(y.s, y.sock, x),
         y.sock in y.s.open, y.sock in y.s.keys, Mentions(From(Sent(y), y.read), x),
         Delivered(y.s.app, x, Home(y.s, x)), Data(From(y.k.out, y.taken), x),
         SentByApp(y.s.app, x), Data(From(Sent(y), y.read), x))
  }

  /** Client to server: what was delivered, is under way and is queued makes up what was sent. */
  predicate UpOk(l: Link) {
    && l.delivered <= l.m.sent
    && (l.hears ==>
          && l.here && l.delivered + l.underway + l.m.queue <= l.m.sent
          && (l.m.state == Connecting || (l.m.state == Open && l.ws == Open) ==>
                l.delivered + l.underway + l.m.queue == l.m.sent))
    && (!l.made ==>
          && l.delivered == [] && l.underway == [] && l.m.queue <= l.m.sent
          && (l.m.state == Connecting ==> l.m.queue == l.m.sent))
  }

  /** A connection is asked for once, opens after it was made, and is registered until it closes or the key goes. */
  predicate LifeOk(l: Link) {
    && l.requested <= 1 && (l.made ==> l.requested == 0) && (!l.m.asked ==> l.requested == 0 && !l.made)
    && (l.here ==> l.made) && !l.elsewhere
    && (l.m.state == Open ==> l.m.queue == [] && l.made && l.key)
    && (l.registered <==> l.m.state == Connecting || l.m.state == Open)
    && (!l.key && l.registered ==> !l.made && l.requested == 0)
    && (l.here && l.live ==> l.keyed)
    && (l.hears ==> l.live)
  }

  /** Server to client: what was received and is coming makes up what the application sent. */
  predicate DownOk(l: Link) {
    && l.m.received <= l.appSent
    && (l.mentioned ==> l.here) && (!l.here ==> l.coming == [])
    && (!l.made ==> l.appSent == [] && l.m.received == [])
    && (l.registered && l.here ==>
          && l.m.received + l.coming <= l.appSent
          && (l.live ==> l.m.received + l.coming == l.appSent))
  }

  predicate LinkOk(l: Link) {
    UpOk(l) && LifeOk(l) && DownOk(l)
  }

  ghost predicate Inv(g: Setting, y: Sys) {
    && KeyInv(g, y) && RegistryOk(y.s) && Housed(y.s)
    && forall x :: x in y.k.mocks ==> LinkOk(LinkOf(y, x))
  }
}
