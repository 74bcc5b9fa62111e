/** The tunnel gets somewhere: a handshake, and a payload that is queued, flushed and delivered. */
module TunnelProgress {
  import opened Bytes
  import opened Crypto
  import opened Messages
  import opened ServerSide
  import opened ServerTheorems
  import opened ClientSide
  import opened Steady
  import opened Tunnel
  import opened TunnelKeys
  import opened TunnelServes
  import opened TunnelTheorems

  /** The run is possible from `y` and ends in `z`. */
  predicate Leads(g: Setting, y: Sys, run: seq<Action>, z: Sys) {
    Possible(g, y, run) && Reached(g, y, run) == z
  }

  lemma {:induction false} LeadsBy(g: Setting, y: Sys, a: Action)
    requires Can(g, y, a)
    ensures Leads(g, y, [a], Do(g, y, a))
  {
    hide Can, Do;
    assert [a][0] == a && [a][1..] == [];
    assert Possible(g, Do(g, y, a), []) && Reached(g, Do(g, y, a), []) == Do(g, y, a);
  }

  lemma {:induction false} LeadsOn(g: Setting, y: Sys, first: seq<Action>, z: Sys, second: seq<Action>, w: Sys)
    requires Leads(g, y, first, z) && Leads(g, z, second, w)
    ensures Leads(g, y, first + second, w)
    decreases |first|
  {
    hide Can, Do;
    if first == [] {
      assert first + second == second;
    } else {
      assert (first + second)[1..] == first[1..] + second;
      LeadsOn(g, Do(g, y, first[0]), first[1..], z, second, w);
    }
  }

  // ---- the handshake ----

  /** Both sides are connected, the announcement is out, and so is the client's greeting. */
  predicate Ready(g: Setting, y: Sys, quote: seq<byte>) {
    && y.sock in y.s.open && y.sock !in y.s.keys && y.taken == 0 && y.read == 0
    && |y.s.privateKey| == 32 && y.s.publicKey == g.e.suite.publicKey(y.s.privateKey)
    && Sent(y) == [Item(ServerKx(y.s.publicKey, quote), None)]
    && y.k.ws == Open && y.k.out == [Item(ClientReady, None)]
  }

  /** Nobody has used any connection yet, and the control socket has its context. */
  predicate Unspent(y: Sys) {
    && y.k.mocks == map[] && y.s.made == map[] && y.s.app == [] && (y.s.hono ==> y.sock in y.s.contexts)
    && forall i :: 0 <= i < |Sent(y)| ==> Sent(y)[i].plain.None?
  }

  /** The server has a quote and has seen no other control socket. */
  predicate Alone(y: Sys) {
    y.s.keyReady && y.s.quote.Some? && y.s.open <= {y.sock} && y.s.out.Keys <= {y.sock} && y.s.keys.Keys <= {y.sock}
  }

  /** Both sides hold the key, and every message is handled. */
  predicate Idle(y: Sys) {
    && y.k.ws == Open && y.sock in y.s.open && y.sock in y.s.keys && |y.s.keys[y.sock]| == 32
    && y.k.key == Some(y.s.keys[y.sock]) && y.taken == |y.k.out| && y.read == |Sent(y)|
  }

  lemma {:induction false} Greeted(g: Setting, y: Sys, sock: Sock, secret: seq<byte>, quote: seq<byte>)
    requires Start(y) && |secret| == 32
    ensures Can(g, y, Connects(sock, secret, Some(quote)))
    ensures var z := Do(g, Do(g, y, Connects(sock, secret, Some(quote))), Changes(Opens));
            && Ready(g, z, quote) && Unspent(z) && z.sock == sock && z.s.publicKey == g.e.suite.publicKey(secret)
            && Alone(z) && z.stale == 0 && !z.k.closed && z.s.quote == Some(quote) && z.s.privateKey == secret
  {
  }

  /** The client generates the key and hands it over. */
  lemma {:induction false} KeySealed(g: Setting, k: Client, secret: seq<byte>, quote: seq<byte>,
                                     key: seq<byte>, ephemeral: seq<byte>)
    requires LawfulEnv(g.e) && |secret| == 32 && k.ws == Open && Passed(g, g.e.suite.publicKey(secret), quote)
    ensures var pk := g.e.suite.publicKey(secret);
            var sealed := BoxSeal(g.e.suite, key, pk, ephemeral);
            && sealed.Some? && BoxSealOpen(g.e.suite, sealed.value, pk, secret) == Some(key)
            && var t := ClientHandles(g, k, ServerKx(pk, quote), key, ephemeral);
               && t.out == k.out + [Item(ClientKx(sealed.value), None)]
               && t.key == Some(key) && t.ws == Open && t.mocks == k.mocks && t.closed == k.closed
  {
    SealOpens(g.e.suite, key, secret, ephemeral);
    hide BoxSeal, BoxSealOpen, EarlyChecks, LateChecks, LawfulEnv;
  }

  /** The server skips the greeting and takes the key. */
  lemma {:induction false} KeyTaken(g: Setting, y: Sys, key: seq<byte>, sealed: seq<byte>)
    requires y.sock in y.s.open && y.sock !in y.s.keys && y.taken == 0
    requires y.k.out == [Item(ClientReady, None), Item(ClientKx(sealed), None)]
    requires BoxSealOpen(g.e.suite, sealed, y.s.publicKey, y.s.privateKey) == Some(key)
    ensures Can(g, y, ServerReads([]))
    ensures var z := Do(g, y, ServerReads([]));
            && Can(g, z, ServerReads([]))
            && Do(g, z, ServerReads([])) == y.(s := y.s.(keys := y.s.keys[y.sock := key]), taken := 2)
  {
    hide BoxSealOpen, Dispatch, OpenEnvelope;
  }

  function Handshake(sock: Sock, secret: seq<byte>, quote: seq<byte>, key: seq<byte>,
                     ephemeral: seq<byte>): seq<Action> {
    [Connects(sock, secret, Some(quote))] + [Changes(Opens)]
    + ([ClientReads(key, ephemeral)] + [ServerReads([])] + [ServerReads([])])
  }

  /** If the checks pass, then five steps bring both sides to the client's key. */
  lemma {:induction false} HandshakeCompletes(g: Setting, y: Sys, sock: Sock, secret: seq<byte>, quote: seq<byte>,
                                              key: seq<byte>, ephemeral: seq<byte>) returns (z: Sys)
    requires LawfulEnv(g.e) && Start(y) && |secret| == 32 && |key| == 32
    requires Passed(g, g.e.suite.publicKey(secret), quote)
    ensures Leads(g, y, Handshake(sock, secret, quote, key, ephemeral), z)
    ensures Idle(z) && Unspent(z) && z.sock == sock && z.s.keys[sock] == key
    ensures Alone(z) && z.stale == 0 && !z.k.closed
    ensures z.s.quote == Some(quote) && z.s.privateKey == secret && z.s.publicKey == g.e.suite.publicKey(secret)
  {
    Greeted(g, y, sock, secret, quote);
    var y1 := Do(g, y, Connects(sock, secret, Some(quote)));
    LeadsBy(g, y, Connects(sock, secret, Some(quote)));
    var y2 := Do(g, y1, Changes(Opens));
    LeadsBy(g, y1, Changes(Opens));
    z := FinishHandshake(g, y2, quote, key, ephemeral);
    hide Leads, Do, Idle, Unspent;
    var a := [Connects(sock, secret, Some(quote))] + [Changes(Opens)];
    var b := [ClientReads(key, ephemeral)] + [ServerReads([])] + [ServerReads([])];
    LeadsOn(g, y, [Connects(sock, secret, Some(quote))], y1, [Changes(Opens)], y2);
    LeadsOn(g, y, a, y2, b, z);
    assert Handshake(sock, secret, quote, key, ephemeral) == a + b;
  }

  lemma {:induction false} FinishHandshake(g: Setting, y: Sys, quote: seq<byte>, key: seq<byte>, ephemeral: seq<byte>)
    returns (z: Sys)
    requires LawfulEnv(g.e) && Ready(g, y, quote) && Unspent(y) && |key| == 32 && Passed(g, y.s.publicKey, quote)
    ensures Leads(g, y, [ClientReads(key, ephemeral)] + [ServerReads([])] + [ServerReads([])], z)
    ensures Idle(z) && Unspent(z) && z.sock == y.sock && z.s.keys[y.sock] == key
    ensures z.s == y.s.(keys := y.s.keys[y.sock := key]) && z.stale == y.stale && z.k.closed == y.k.closed
  {
    hide BoxSeal, BoxSealOpen, Passed, ClientHandles, HandleControl, Out, LawfulEnv;
    KeySealed(g, y.k, y.s.privateKey, quote, key, ephemeral);
    var y1 := Do(g, y, ClientReads(key, ephemeral));
    KeyTaken(g, y1, key, BoxSeal(g.e.suite, key, y.s.publicKey, ephemeral).value);
    var y2 := Do(g, y1, ServerReads([]));
    z := Do(g, y2, ServerReads([]));
    NowIdle(y1, key);
    LeadsBy(g, y, ClientReads(key, ephemeral));
    LeadsBy(g, y1, ServerReads([]));
    LeadsBy(g, y2, ServerReads([]));
    hide Leads, Idle, Unspent, Ready;
    LeadsOn(g, y, [ClientReads(key, ephemeral)], y1, [ServerReads([])], y2);
    LeadsOn(g, y, [ClientReads(key, ephemeral)] + [ServerReads([])], y2, [ServerReads([])], z);
  }

  lemma {:induction false} NowIdle(y: Sys, key: seq<byte>)
    requires y.k.ws == Open && y.k.key == Some(key) && |key| == 32 && |y.k.out| == 2 && y.read == |Sent(y)|
    requires y.sock in y.s.open && Unspent(y)
    ensures var z := y.(s := y.s.(keys := y.s.keys[y.sock := key]), taken := 2); Idle(z) && Unspent(z)
  {
  }

  // ---- a payload ----

  /** A payload is queued on a new socket, and its connect is under way. */
  predicate Asked(y: Sys, x: ConnId, data: Payload) {
    && y.k.ws == Open && y.sock in y.s.open && y.sock in y.s.keys && (y.s.hono ==> y.sock in y.s.contexts)
    && x in y.k.mocks && x in y.k.registered && y.k.mocks[x] == ClientSide.Mock(Connecting, [data], [data], [], true)
    && y.k.key.Some? && y.taken + 1 == |y.k.out| && y.k.out[y.taken].plain == Some(WsConnect(x)) && y.read == |Sent(y)|
  }

  /** The mock of `x` takes messages, and so far the client has sent one payload. */
  predicate Held(y: Sys, x: ConnId, data: Payload) {
    && y.k.ws == Open && y.sock in y.s.open && y.sock in y.s.keys && Hears(y.s, y.sock, x)
    && y.k.key.Some? && x in y.k.mocks && x in y.k.registered && y.k.mocks[x].sent == [data]
  }

  lemma {:induction false} UnspentIsUnused(y: Sys, x: ConnId)
    requires Idle(y) && Unspent(y)
    ensures Unused(y, x)
  {
    NoPlainNoData(Sent(y), x);
  }

  lemma {:induction false} NoPlainNoData(items: seq<Item>, x: ConnId)
    requires forall i :: 0 <= i < |items| ==> items[i].plain.None?
    ensures Data(items, x) == []
    decreases |items|
  {
    if items != [] {
      NoPlainNoData(items[..|items| - 1], x);
    }
  }

  function Opening(x: ConnId, data: Payload): seq<Action> {
    [Acts(NewConnection(x))] + [Acts(Sends(x, data))] + [Acts(AsksFor(x, true))]
  }

  /** The client after the three actions. */
  function AfterOpening(g: Setting, k: Client, x: ConnId, data: Payload): Client {
    FinishConnect(g.e, Set(NewSocket(k, x), x, ClientSide.Mock(Connecting, [data], [data], [], false)), x, true)
  }

  lemma {:induction false} OpeningSends(g: Setting, k: Client, x: ConnId, data: Payload)
    requires LawfulEnv(g.e) && SessionOk(k) && k.ws == Open && k.key.Some?
    ensures var t := AfterOpening(g, k, x, data);
            && t.ws == Open && t.key == k.key && x in t.mocks && x in t.registered
            && t.mocks[x] == ClientSide.Mock(Connecting, [data], [data], [], true)
            && |t.out| == |k.out| + 1 && t.out[|k.out|].plain == Some(WsConnect(x))
  {
    hide TrySend, LawfulEnv;
    SendSpec(g, Set(NewSocket(k, x), x, ClientSide.Mock(Connecting, [data], [data], [], true)), WsConnect(x));
    assert Set(Set(NewSocket(k, x), x, ClientSide.Mock(Connecting, [data], [data], [], false)), x,
               ClientSide.Mock(Connecting, [data], [data], [], true))
        == Set(NewSocket(k, x), x, ClientSide.Mock(Connecting, [data], [data], [], true));
  }

  lemma {:induction false} OpeningLeads(g: Setting, y: Sys, x: ConnId, data: Payload)
    requires Unused(y, x)
    ensures Leads(g, y, Opening(x, data), y.(k := AfterOpening(g, y.k, x, data)))
  {
    hide TrySend, Unused;
    var y1 := Do(g, y, Acts(NewConnection(x)));
    var y2 := Do(g, y1, Acts(Sends(x, data)));
    assert [] + [data] == [data];
    assert y2 == y.(k := Set(NewSocket(y.k, x), x, ClientSide.Mock(Connecting, [data], [data], [], false)));
    LeadsBy(g, y, Acts(NewConnection(x)));
    LeadsBy(g, y1, Acts(Sends(x, data)));
    LeadsBy(g, y2, Acts(AsksFor(x, true)));
    var z := Do(g, y2, Acts(AsksFor(x, true)));
    assert z == y.(k := AfterOpening(g, y.k, x, data));
    hide Leads, Do, Can;
    LeadsOn(g, y, [Acts(NewConnection(x))], y1, [Acts(Sends(x, data))], y2);
    LeadsOn(g, y, [Acts(NewConnection(x))] + [Acts(Sends(x, data))], y2, [Acts(AsksFor(x, true))], z);
  }

  lemma {:induction false} Asks(g: Setting, y: Sys, x: ConnId, data: Payload) returns (z: Sys)
    requires LawfulEnv(g.e) && KeyInv(g, y) && Idle(y) && Unused(y, x) && (y.s.hono ==> y.sock in y.s.contexts)
    ensures Leads(g, y, Opening(x, data), z) && Asked(z, x, data) && z.sock == y.sock
  {
    hide Unused, LawfulEnv, AfterOpening, Leads, ClientItems, Announced, IdentityOk, Out;
    OpeningSends(g, y.k, x, data);
    OpeningLeads(g, y, x, data);
    z := y.(k := AfterOpening(g, y.k, x, data));
  }

  /** A message with a plaintext opens to it at the server. */
  lemma {:induction false} HeadOpens(g: Setting, y: Sys, react: seq<AppAction>)
    requires KeyInv(g, y) && y.taken < |y.k.out| && y.sock in y.s.keys && Head(y).plain.Some?
    ensures HandleControl(g.e, y.s, y.sock, Head(y).wire, react)
         == Dispatch(g.e, y.s, y.sock, Head(y).plain.value, react)
    ensures |y.s.keys[y.sock]| == 32 && y.read >= 1
  {
    assert FromClient(g, y.k, y.s, Head(y), Early(y.k, y.taken));
    hide OpenEnvelope, BoxSealOpen, Dispatch, Announced, IdentityOk, FromServer;
  }

  /** A connect makes a mock that takes messages, and announces it. */
  lemma {:induction false} ConnectResult(e: Env, s: Server, sock: Sock, x: ConnId)
    requires LawfulEnv(e) && CanSend(s, sock) && (s.hono ==> sock in s.contexts)
    ensures var t := HandleConnect(e, s, sock, x, []);
            && Hears(t, sock, x) && t.keys == s.keys && t.open == s.open
            && |Out(t, sock)| == |Out(s, sock)| + 1 && Out(t, sock)[|Out(s, sock)|].plain == Some(WsEvent(x, Opened))
  {
    hide SendEncrypted, OpenEnvelope, LawfulEnv;
    var a := AddMock(s, sock, x);
    assert AppRun(e, a, []) == a && Out(a, sock) == Out(s, sock);
    SendResult(e, a, sock, WsEvent(x, Opened), sock);
  }

  lemma {:induction false} Connected(g: Setting, y: Sys, x: ConnId, data: Payload)
    requires LawfulEnv(g.e) && KeyInv(g, y) && Asked(y, x, data)
    ensures Can(g, y, ServerReads([]))
    ensures var z := Do(g, y, ServerReads([]));
            && Held(z, x, data) && z.sock == y.sock && z.k == y.k && z.taken == |z.k.out| && z.read == y.read
            && |Sent(z)| == z.read + 1 && Sent(z)[z.read].plain == Some(WsEvent(x, Opened)) && z.read >= 1
  {
    hide KeyInv, HandleControl, HandleConnect, Out, LawfulEnv, Hears;
    HeadOpens(g, y, []);
    ConnectResult(g.e, y.s, y.sock, x);
  }

  /** The open event flushes the queue of one payload. */
  lemma {:induction false} OpenedResult(g: Setting, k: Client, x: ConnId, data: Payload)
    requires LawfulEnv(g.e) && SessionOk(k) && k.ws == Open && k.key.Some?
    requires x in k.mocks && x in k.registered && k.mocks[x].queue == [data]
    ensures var t := HandlePlain(g.e, k, WsEvent(x, Opened));
            && t.ws == Open && t.key == k.key && x in t.mocks && x in t.registered
            && t.mocks[x] == k.mocks[x].(state := Open, queue := [])
            && |t.out| == |k.out| + 1 && t.out[|k.out|].plain == Some(WsMessage(x, data))
  {
    var k1 := Set(k, x, k.mocks[x].(state := Open, queue := []));
    assert Flush(g.e, k1, x, [data]) == TrySend(g.e, k1, WsMessage(x, data)) by {
      assert [data][..0] == [];
    }
    hide TrySend, LawfulEnv;
    SendSpec(g, k1, WsMessage(x, data));
  }

  lemma {:induction false} QueueFlushed(g: Setting, y: Sys, x: ConnId, data: Payload,
                                        key: seq<byte>, ephemeral: seq<byte>)
    requires LawfulEnv(g.e) && KeyInv(g, y) && Held(y, x, data) && y.k.mocks[x].queue == [data] && |key| == 32
    requires y.taken == |y.k.out| && 1 <= y.read < |Sent(y)| && Sent(y)[y.read].plain == Some(WsEvent(x, Opened))
    ensures Can(g, y, ClientReads(key, ephemeral))
    ensures var z := Do(g, y, ClientReads(key, ephemeral));
            && Held(z, x, data) && z.s == y.s && z.sock == y.sock && z.taken == y.taken && z.k.mocks[x].state == Open
            && |z.k.out| == z.taken + 1 && z.k.out[z.taken].plain == Some(WsMessage(x, data))
  {
    LaterHandles(g, y, key, ephemeral);
    assert SessionOk(y.k);
    hide KeyInv, ClientHandles, HandlePlain, Out, LawfulEnv, Hears, SessionOk;
    OpenedResult(g, y.k, x, data);
  }

  /** A mock that takes messages gets the payload and goes on taking messages. */
  lemma {:induction false} MessageResult(e: Env, s: Server, sock: Sock, x: ConnId, data: Payload)
    requires Hears(s, sock, x)
    ensures var t := HandleMessage(e, s, sock, x, data, []); Hears(t, sock, x) && t.keys == s.keys && t.open == s.open
  {
    var l := Log(s, GotMessage(sock, x, data));
    assert AppRun(e, l, []) == l;
  }

  lemma {:induction false} PayloadTakenIn(g: Setting, y: Sys, x: ConnId, data: Payload)
    requires KeyInv(g, y) && Held(y, x, data) && y.k.mocks[x].state == Open
    requires y.taken + 1 == |y.k.out| && Head(y).plain == Some(WsMessage(x, data))
    ensures Can(g, y, ServerReads([]))
    ensures var z := Do(g, y, ServerReads([]));
            Held(z, x, data) && z.k == y.k && z.taken == |z.k.out| && z.sock == y.sock
  {
    HeadOpens(g, y, []);
    hide KeyInv, HandleControl, HandleMessage, Hears, Out;
    MessageResult(g.e, y.s, y.sock, x, data);
  }

  /** Both ends hold the connection. */
  predicate BothHold(y: Sys, x: ConnId) {
    && x in y.k.mocks && y.k.mocks[x].state == Open && y.k.ws == Open
    && y.sock in y.s.open && Hears(y.s, y.sock, x)
  }

  /** With everything handled, what was sent has been delivered. */
  lemma {:induction false} AllDelivered(g: Setting, y: Sys, x: ConnId)
    requires Inv(g, y) && BothHold(y, x) && y.taken == |y.k.out|
    ensures Delivered(y.s.app, x, Home(y.s, x)) == y.k.mocks[x].sent
  {
    assert LinkOk(LinkOf(y, x));
    assert From(y.k.out, y.taken) == [] && Data([], x) == [];
    hide Out, Requested, Delivered, SentByApp, Mentions, KeyInv, RegistryOk;
    var l := LinkOf(y, x);
    assert l.underway == [] && l.delivered + l.underway + l.m.queue == l.delivered;
  }

  function Delivery(key: seq<byte>, ephemeral: seq<byte>): seq<Action> {
    [ServerReads([])] + [ClientReads(key, ephemeral)] + [ServerReads([])]
  }

  /** The connect is handled, the queue is flushed, and the payload is delivered. */
  lemma {:induction false} Delivers(g: Setting, y: Sys, x: ConnId, data: Payload, key: seq<byte>, ephemeral: seq<byte>)
    returns (z: Sys)
    requires LawfulEnv(g.e) && Inv(g, y) && Asked(y, x, data) && |key| == 32
    ensures Leads(g, y, Delivery(key, ephemeral), z) && x in z.k.mocks
    ensures Delivered(z.s.app, x, Home(z.s, x)) == z.k.mocks[x].sent == [data]
  {
    var first, second := ServerReads([]), ClientReads(key, ephemeral);
    Connected(g, y, x, data);
    var y1 := Do(g, y, first);
    StepKeeps(g, y, first);
    QueueFlushed(g, y1, x, data, key, ephemeral);
    var y2 := Do(g, y1, second);
    StepKeeps(g, y1, second);
    PayloadTakenIn(g, y2, x, data);
    z := Do(g, y2, first);
    StepKeeps(g, y2, first);
    hide Inv, Delivered, Data, Hears;
    AllDelivered(g, z, x);
    LeadsBy(g, y, first);
    LeadsBy(g, y1, second);
    LeadsBy(g, y2, first);
    hide Leads, Do, Can, Held;
    LeadsOn(g, y, [first], y1, [second], y2);
    LeadsOn(g, y, [first] + [second], y2, [first], z);
  }

  /**
   From the initial state, whenever the checks pass: eleven steps take a payload from the queue of a
   socket that is still connecting to the server application.
   */
  lemma {:induction false} PayloadArrives(g: Setting, y: Sys, sock: Sock, secret: seq<byte>, quote: seq<byte>,
                                          key: seq<byte>, ephemeral: seq<byte>, x: ConnId, data: Payload)
    returns (z: Sys)
    requires LawfulEnv(g.e) && Start(y) && |secret| == 32 && |key| == 32
    requires Passed(g, g.e.suite.publicKey(secret), quote)
    ensures Leads(g, y, Handshake(sock, secret, quote, key, ephemeral) + Opening(x, data) + Delivery(key, ephemeral), z)
    ensures x in z.k.mocks && Delivered(z.s.app, x, Home(z.s, x)) == z.k.mocks[x].sent == [data]
  {
    var a := Handshake(sock, secret, quote, key, ephemeral);
    var y1 := HandshakeCompletes(g, y, sock, secret, quote, key, ephemeral);
    StartInv(g, y);
    RunKeeps(g, y, a);
    UnspentIsUnused(y1, x);
    var y2 := Asks(g, y1, x, data);
    RunKeeps(g, y1, Opening(x, data));
    z := Delivers(g, y2, x, data, key, ephemeral);
    hide Leads, Inv, Handshake, Opening, Delivery;
    LeadsOn(g, y, a, y1, Opening(x, data), y2);
    LeadsOn(g, y, a + Opening(x, data), y2, Delivery(key, ephemeral), z);
  }

  // ---- a close event that comes late ----

  /** The transport is lost, and the client connects again before its close event. */
  function Replacement(first: Sock, sock: Sock, secret: seq<byte>): seq<Action> {
    [Changes(Loses)] + [ServerActs(TransportLost(first))] + [Connects(sock, secret, None)] + [Changes(Opens)]
  }

  /** After the replacement the server has announced the same key on the new socket. */
  lemma {:induction false} Replaces(g: Setting, y: Sys, sock: Sock, secret: seq<byte>) returns (z: Sys)
    requires Idle(y) && Unspent(y) && Alone(y) && !y.k.closed && y.sock != sock && |secret| == 32
    requires |y.s.privateKey| == 32 && y.s.publicKey == g.e.suite.publicKey(y.s.privateKey)
    ensures Leads(g, y, Replacement(y.sock, sock, secret), z)
    ensures Ready(g, z, y.s.quote.value) && Unspent(z) && z.sock == sock && z.stale == y.stale + 1
    ensures z.s.publicKey == y.s.publicKey
  {
    var y1 := Do(g, y, Changes(Loses));
    var y2 := Do(g, y1, ServerActs(TransportLost(y.sock)));
    LostAndReplaced(g, y, y2, sock, secret);
    var y3 := Do(g, y2, Connects(sock, secret, None));
    z := Do(g, y3, Changes(Opens));
    LeadsBy(g, y, Changes(Loses));
    LeadsBy(g, y1, ServerActs(TransportLost(y.sock)));
    LeadsBy(g, y2, Connects(sock, secret, None));
    LeadsBy(g, y3, Changes(Opens));
    hide Leads, Do, Can, Ready, Unspent, Alone, Idle;
    LeadsOn(g, y, [Changes(Loses)], y1, [ServerActs(TransportLost(y.sock))], y2);
    var two := [Changes(Loses)] + [ServerActs(TransportLost(y.sock))];
    LeadsOn(g, y, two, y2, [Connects(sock, secret, None)], y3);
    LeadsOn(g, y, two + [Connects(sock, secret, None)], y3, [Changes(Opens)], z);
  }

  lemma {:induction false} LostAndReplaced(g: Setting, y: Sys, y2: Sys, sock: Sock, secret: seq<byte>)
    requires Idle(y) && Unspent(y) && Alone(y) && !y.k.closed && y.sock != sock && |secret| == 32
    requires |y.s.privateKey| == 32 && y.s.publicKey == g.e.suite.publicKey(y.s.privateKey)
    requires y2 == y.(k := y.k.(ws := Closing), s := y.s.(open := y.s.open - {y.sock}))
    ensures Can(g, y2, Connects(sock, secret, None))
    ensures var z := Do(g, Do(g, y2, Connects(sock, secret, None)), Changes(Opens));
            && Ready(g, z, y.s.quote.value) && Unspent(z) && z.sock == sock && z.stale == y.stale + 1
            && z.s.publicKey == y.s.publicKey
  {
  }

  function Reconfirmed(key: seq<byte>, ephemeral: seq<byte>): seq<Action> {
    [ClientReads(key, ephemeral)] + [ServerReads([])] + [ServerReads([])]
  }

  /**
   The input: whenever the checks pass, there is a run from the initial state after which the current
   socket is open, the server holds its key, and the client has none, so that every send throws. The
   socket was replaced while it was closing, and its close event came after the new handshake.
   */
  lemma {:induction false} LateCloseDropsKey(g: Setting, y: Sys, first: Sock, sock: Sock, secret: seq<byte>,
                                             quote: seq<byte>,
                                             key: seq<byte>, ephemeral: seq<byte>) returns (z: Sys)
    requires LawfulEnv(g.e) && Start(y) && |secret| == 32 && |key| == 32
    requires Passed(g, g.e.suite.publicKey(secret), quote)
    requires first != sock
    ensures Leads(g, y, Handshake(first, secret, quote, key, ephemeral) + Replacement(first, sock, secret)
                        + Reconfirmed(key, ephemeral) + [StaleCloses], z)
    ensures z.sock == sock && sock in z.s.keys && z.k.ws == Open && z.k.session.Some? && z.k.key.None?
    ensures forall m :: Send(g.e, z.k, m).None?
  {
    var y1 := HandshakeCompletes(g, y, first, secret, quote, key, ephemeral);
    var y2 := Replaces(g, y1, sock, secret);
    var y3 := FinishHandshake(g, y2, quote, key, ephemeral);
    StartInv(g, y);
    hide Leads, Handshake, Replacement;
    var a := Handshake(first, secret, quote, key, ephemeral) + Replacement(first, sock, secret);
    LeadsOn(g, y, Handshake(first, secret, quote, key, ephemeral), y1, Replacement(first, sock, secret), y2);
    LeadsOn(g, y, a, y2, Reconfirmed(key, ephemeral), y3);
    HasSession(g, y, a + Reconfirmed(key, ephemeral), y3);
    LeadsBy(g, y3, StaleCloses);
    z := Do(g, y3, StaleCloses);
    LeadsOn(g, y, a + Reconfirmed(key, ephemeral), y3, [StaleCloses], z);
  }

  lemma {:induction false} HasSession(g: Setting, y: Sys, run: seq<Action>, z: Sys)
    requires LawfulEnv(g.e) && Inv(g, y) && Leads(g, y, run, z) && z.sock in z.s.keys
    ensures z.k.session.Some?
  {
    RunKeeps(g, y, run);
    hide RegistryOk, Housed, LinkOk, LinkOf, Announced, ClientItems, IdentityOk, SessionOk, Reached, Possible;
  }
}
