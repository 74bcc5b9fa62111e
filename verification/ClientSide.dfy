/**
 The tunnel client (tunnel/src/client.ts) and its tunneled sockets (tunnel/src/ClientRAWebSocket.ts).
 The table of pending requests is modelled on its own.
 */
module ClientSide {
  import opened Bytes
  import opened Crypto
  import opened Messages

  /**
   A tunneled socket. History: `sent` are the payloads that `send` accepted, `received` those that
   were dispatched to the application; `asked`: the connect coroutine has run to its end.
   */
  datatype Mock = Mock(state: ReadyState, queue: seq<Payload>, sent: seq<Payload>, received: seq<Payload>, asked: bool)

  /**
   The fields of the client. History: `session` is the key that was generated on this control
   connection, `since` how much had been sent before that, `trusted` says that it was handed over,
   `out` is everything sent on it.
   */
  datatype Client = Client(
    ws: ReadyState, closed: bool, key: Option<seq<byte>>, serverPublicKey: seq<byte>,
    mocks: map<ConnId, Mock>, registered: set<ConnId>,
    session: Option<seq<byte>>, since: nat, trusted: bool, out: seq<Item>, drawn: nat)

  // ---- the key exchange ----

  datatype Tee = TdxTee | SgxTee | SevTee

  datatype ClientConfig = ClientConfig(tee: Tee, measurements: bool, customVerify: bool, customBinding: bool,
                                       allowDebug: bool)

  datatype VerifierData = NoData | VerifierNonce(val: Option<seq<byte>>,
                                                 iat: Option<seq<byte>>) | PlainNonce(nonce: seq<byte>)

  /** The outcome of the foreign checks on an announcement, and what the binding check reads from it. */
  datatype Evidence = Evidence(
    quotePresent: bool, vcekPresent: bool, quoteVerified: bool, debugEnclave: bool,
    measurementsMatch: bool, customAccepts: bool, customBindingAccepts: bool,
    reportData: seq<byte>, verifierData: VerifierData)

  datatype Digests = Digests(sha256: seq<byte> -> seq<byte>, sha512: seq<byte> -> seq<byte>)

  /** What is checked before a key is generated. */
  predicate EarlyChecks(cfg: ClientConfig, v: Evidence) {
    && v.quotePresent
    && match cfg.tee
       case SevTee => v.vcekPresent && v.quoteVerified && (cfg.customVerify ==> v.customAccepts)
       case SgxTee => v.quoteVerified && (v.debugEnclave ==> cfg.allowDebug)
       case TdxTee => v.quoteVerified
  }

  /** The report data commits to the announced key. */
  predicate KeyBound(d: Digests, tee: Tee, v: Evidence, publicKey: seq<byte>) {
    match tee
    case SevTee =>
      (match v.verifierData
       case NoData => false
       case PlainNonce(nonce) => v.reportData == d.sha512(nonce + publicKey)
       case VerifierNonce(val, _) => val.Some? && v.reportData == d.sha512(val.value + publicKey))
    case SgxTee => Slice(v.reportData, 0, 32) == d.sha256(publicKey)
    case TdxTee =>
      && v.verifierData.VerifierNonce? && v.verifierData.val.Some? && v.verifierData.iat.Some?
      && v.verifierData.val.value != [] && v.verifierData.iat.value != [] && publicKey != []
      && v.reportData == d.sha512(v.verifierData.val.value + v.verifierData.iat.value + publicKey)
  }

  /** What is checked after the key is generated and before it is handed over. */
  predicate LateChecks(d: Digests, cfg: ClientConfig, v: Evidence, publicKey: seq<byte>) {
    && (!cfg.tee.SevTee? ==>
          && (cfg.measurements || cfg.customVerify)
          && (cfg.customVerify ==> v.customAccepts)
          && (cfg.measurements ==> v.measurementsMatch))
    && (if cfg.customBinding then v.customBindingAccepts else KeyBound(d, cfg.tee, v, publicKey))
  }

  /** The handler of `server_kx`, run to its end; `key` and `ephemeral` are the random choices. */
  function HandleServerKx(e: Env, d: Digests, cfg: ClientConfig, k: Client, publicKey: seq<byte>, v: Evidence,
                          key: seq<byte>, ephemeral: seq<byte>): Client {
    var sealed := BoxSeal(e.suite, key, publicKey, ephemeral);
    if !EarlyChecks(cfg, v) || sealed.None? then k
    else
      var k1 := k.(key := Some(key), session := Some(key), since := |k.out|, serverPublicKey := publicKey);
      if !LateChecks(d, cfg, v, publicKey) || k1.ws != Open then k1
      else k1.(trusted := true, out := k1.out + [Item(ClientKx(sealed.value), None)])
  }

  // ---- sending ----

  /** `send`: `None` is the thrown error. */
  function Send(e: Env, k: Client, m: Msg): Option<Client> {
    if k.ws != Open || k.key.None? then None
    else
      var w := Envelope(e, k.key.value, k.drawn, m);
      if w.None? then None else Some(k.(out := k.out + [Item(w.value, Some(m))], drawn := k.drawn + 1))
  }

  /** Callers turn the error into an error event, or drop it. */
  function TrySend(e: Env, k: Client, m: Msg): Client {
    var r := Send(e, k, m);
    if r.Some? then r.value else k
  }

  function Set(k: Client, x: ConnId, m: Mock): Client {
    k.(mocks := k.mocks[x := m])
  }

  // ---- tunneled sockets ----

  function NewSocket(k: Client, x: ConnId): Client {
    Set(k, x, Mock(Connecting, [], [], [], false)).(registered := k.registered + {x})
  }

  /** The end of `connect`: the request goes out, unless the port does not match or sending fails. */
  function FinishConnect(e: Env, k: Client, x: ConnId, portMatches: bool): Client
    requires x in k.mocks
  {
    var k1 := Set(k, x, k.mocks[x].(asked := true));
    if portMatches then TrySend(e, k1, WsConnect(x)) else k1
  }

  /** Queue while connecting, send while open, throw otherwise. */
  function SocketSend(e: Env, k: Client, x: ConnId, data: Payload): Client
    requires x in k.mocks
  {
    var m := k.mocks[x];
    match m.state
    case Connecting => Set(k, x, m.(queue := m.queue + [data], sent := m.sent + [data]))
    case Open => TrySend(e, Set(k, x, m.(sent := m.sent + [data])), WsMessage(x, data))
    case _ => k
  }

  function SocketClose(e: Env, k: Client, x: ConnId): Client
    requires x in k.mocks
  {
    var m := k.mocks[x];
    if m.state == Closing || m.state == Closed then k
    else
      var t := TrySend(e, Set(k, x, m.(state := Closing)), WsClose(x));
      t.(registered := t.registered - {x})
  }

  /** The flush loop: every queued payload is handed to `send`, which is open by now. */
  function Flush(e: Env, k: Client, x: ConnId, queue: seq<Payload>): (r: Client)
    ensures r.mocks == k.mocks && r.registered == k.registered
  {
    if queue == [] then k
    else TrySend(e, Flush(e, k, x, queue[..|queue| - 1]), WsMessage(x, queue[|queue| - 1]))
  }

  function HandleEvent(e: Env, k: Client, x: ConnId, event: Event): Client
    requires x in k.mocks
  {
    match event
    case Opened => Flush(e, Set(k, x, k.mocks[x].(state := Open, queue := [])), x, k.mocks[x].queue)
    case ClosedByPeer => Set(k, x, k.mocks[x].(state := Closed)).(registered := k.registered - {x})
    case Errored => k
  }

  function HandlePlain(e: Env, k: Client, m: Msg): Client {
    match m
    case WsEvent(x, event) => if x in k.registered && x in k.mocks then HandleEvent(e, k, x, event) else k
    case WsMessage(x, data) =>
      if x in k.registered && x in k.mocks then Set(k, x, k.mocks[x].(received := k.mocks[x].received + [data])) else k
    case _ => k
  }

  /** An envelope from the server; without a key, or if it does not open, the handler throws. */
  function HandleEnvelope(e: Env, k: Client, w: Wire): Client {
    if k.key.None? then k
    else
      var m := OpenEnvelope(e, k.key.value, w);
      if m.None? then k else HandlePlain(e, k, m.value)
  }

  // ---- the control socket ----

  /** A new control connection takes the place of the old one; the key of that stays where it is. */
  function Reconnect(k: Client): Client {
    k.(ws := Connecting, session := None, since := 0, trusted := false, out := [])
  }

  function WsOpened(k: Client): Client {
    if k.ws != Connecting then k else k.(ws := Open, out := k.out + [Item(ClientReady, None)])
  }

  /** Every registered socket is closed and unregistered. */
  function CloseAllSockets(k: Client): Client {
    k.(mocks := map x | x in k.mocks :: if x in k.registered then k.mocks[x].(state := Closed) else k.mocks[x],
       registered := {})
  }

  /** The close handler does not ask whether the socket is still the current one: `ws` is the state of that. */
  function CloseHandled(k: Client): Client {
    CloseAllSockets(k).(key := None)
  }

  function WsClosed(k: Client): Client {
    CloseHandled(k).(ws := Closed)
  }

  function CloseClient(k: Client): Client {
    if k.closed then k else WsClosed(k).(closed := true)
  }
}
