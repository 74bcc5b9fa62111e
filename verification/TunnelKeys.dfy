/** Every step of the tunnel keeps the two sides on one key. */
module TunnelKeys {
  import opened Bytes
  import opened Crypto
  import opened Messages
  import opened ServerSide
  import opened ServerTheorems
  import opened ClientSide
  import opened Steady
  import opened Tunnel

  // ---- the client sends ----

  /** The client only sends more and learns of more connections. */
  predicate Grows(g: Setting, k: Client, s: Server, k': Client) {
    && k'.ws == k.ws && k'.key == k.key && k'.session == k.session && k'.trusted == k.trusted
    && k'.serverPublicKey == k.serverPublicKey && k'.since == k.since
    && k.mocks.Keys <= k'.mocks.Keys && k.out <= k'.out
    && forall i :: |k.out| <= i < |k'.out| ==> FromClient(g, k', s, k'.out[i], Early(k', i))
  }

  lemma {:induction false} GrowsTwice(g: Setting, k: Client, s: Server, t: Client, u: Client)
    requires Grows(g, k, s, t) && Grows(g, t, s, u)
    ensures Grows(g, k, s, u)
  {
    hide OpenEnvelope, BoxSealOpen;
    forall i | |k.out| <= i < |u.out|
      ensures FromClient(g, u, s, u.out[i], Early(u, i))
    {
      if i < |t.out| {
        assert FromClient(g, t, s, t.out[i], Early(t, i));
      }
    }
  }

  lemma {:induction false} GrowKeeps(g: Setting, y: Sys, k': Client)
    requires KeyInv(g, y) && Grows(g, y.k, y.s, k')
    ensures KeyInv(g, y.(k := k'))
  {
    hide OpenEnvelope, BoxSealOpen, Out, Passed;
    var k, s := y.k, y.s;
    forall i | 0 <= i < |k'.out|
      ensures FromClient(g, k', s, k'.out[i], Early(k', i))
    {
      if i < |k.out| {
        assert FromClient(g, k, s, k.out[i], Early(k, i));
      }
    }
  }

  /** A send adds one item, which opens to the message, or does nothing. */
  lemma {:induction false} SendSpec(g: Setting, k: Client, m: Msg)
    requires LawfulEnv(g.e) && SessionOk(k)
    ensures var t := TrySend(g.e, k, m);
            && t.(out := k.out, drawn := k.drawn) == k
            && (!(k.ws == Open && k.key.Some?) ==> t.out == k.out)
            && (k.ws == Open && k.key.Some? ==>
                  && |t.out| == |k.out| + 1
                  && var it := t.out[|k.out|];
                     && t.out == k.out + [it] && it.wire.Enc? && it.plain == Some(m)
                     && OpenEnvelope(g.e, k.key.value, it.wire) == Some(m))
  {
    if k.key.Some? {
      EnvelopeOpens(g.e, k.key.value, k.drawn, m);
    }
    hide Envelope, OpenEnvelope;
  }

  lemma {:induction false} SendGrows(g: Setting, k: Client, s: Server, m: Msg)
    requires LawfulEnv(g.e) && SessionOk(k) && (FromSocket(m) ==> m.conn in k.mocks)
    ensures Grows(g, k, s, TrySend(g.e, k, m)) && SessionOk(TrySend(g.e, k, m))
    ensures TrySend(g.e, k, m).mocks == k.mocks
  {
    hide TrySend, OpenEnvelope;
    SendSpec(g, k, m);
  }

  lemma {:induction false} SetGrows(g: Setting, k: Client, s: Server, x: ConnId, m: ClientSide.Mock)
    requires SessionOk(k)
    ensures Grows(g, k, s, Set(k, x, m)) && SessionOk(Set(k, x, m))
  {
  }

  lemma {:induction false} FlushGrows(g: Setting, k: Client, s: Server, x: ConnId, queue: seq<Payload>)
    requires LawfulEnv(g.e) && SessionOk(k) && x in k.mocks
    ensures var t := Flush(g.e, k, x, queue); Grows(g, k, s, t) && SessionOk(t) && t.mocks == k.mocks
    decreases |queue|
  {
    if queue != [] {
      hide Grows, TrySend, SessionOk;
      var t := Flush(g.e, k, x, queue[..|queue| - 1]);
      FlushGrows(g, k, s, x, queue[..|queue| - 1]);
      SendGrows(g, t, s, WsMessage(x, queue[|queue| - 1]));
      GrowsTwice(g, k, s, t, Flush(g.e, k, x, queue));
    }
  }

  lemma {:induction false} RegisterGrows(g: Setting, k: Client, s: Server, k': Client, registered: set<ConnId>)
    requires Grows(g, k, s, k')
    ensures Grows(g, k, s, k'.(registered := registered))
  {
    hide OpenEnvelope, BoxSealOpen;
    assert forall i :: |k.out| <= i < |k'.out| ==>
      FromClient(g, k', s, k'.out[i], Early(k', i)) ==>
      FromClient(g, k'.(registered := registered), s, k'.out[i], Early(k'.(registered := registered), i));
  }

  lemma {:induction false} PlainGrows(g: Setting, k: Client, s: Server, m: Msg)
    requires LawfulEnv(g.e) && SessionOk(k)
    ensures Grows(g, k, s, HandlePlain(g.e, k, m))
  {
    if (m.WsEvent? || m.WsMessage?) && m.conn in k.mocks {
      var x, c := m.conn, k.mocks[m.conn];
      if m.WsMessage? {
        SetGrows(g, k, s, x, c.(received := c.received + [m.data]));
      } else {
        SetGrows(g, k, s, x, c.(state := Open, queue := []));
        SetGrows(g, k, s, x, c.(state := Closed));
        FlushGrows(g, Set(k, x, c.(state := Open, queue := [])), s, x, c.queue);
        hide Flush;
        GrowsTwice(g, k, s, Set(k, x, c.(state := Open, queue := [])), HandleEvent(g.e, k, x, Opened));
        RegisterGrows(g, k, s, Set(k, x, c.(state := Closed)), k.registered - {x});
      }
      hide Grows;
    }
  }

  /** What the client does on its own. */
  lemma {:induction false} ActGrows(g: Setting, k: Client, s: Server, act: ClientAction)
    requires LawfulEnv(g.e) && SessionOk(k) && Known(k, act)
    ensures Grows(g, k, s, Act(g, k, act))
  {
    hide Grows, TrySend, SessionOk;
    match act
    case NewConnection(x) =>
      var m := ClientSide.Mock(Connecting, [], [], [], false);
      SetGrows(g, k, s, x, m);
      RegisterGrows(g, k, s, Set(k, x, m), k.registered + {x});
    case AsksFor(x, portMatches) =>
      var t := Set(k, x, k.mocks[x].(asked := true));
      SetGrows(g, k, s, x, k.mocks[x].(asked := true));
      SendGrows(g, t, s, WsConnect(x));
      GrowsTwice(g, k, s, t, TrySend(g.e, t, WsConnect(x)));
    case Sends(x, data) =>
      var m := k.mocks[x];
      SetGrows(g, k, s, x, m);
      assert Set(k, x, m) == k;
      SetGrows(g, k, s, x, m.(queue := m.queue + [data], sent := m.sent + [data]));
      var t := Set(k, x, m.(sent := m.sent + [data]));
      SetGrows(g, k, s, x, m.(sent := m.sent + [data]));
      SendGrows(g, t, s, WsMessage(x, data));
      GrowsTwice(g, k, s, t, TrySend(g.e, t, WsMessage(x, data)));
    case Closes(x) =>
      var m := k.mocks[x];
      SetGrows(g, k, s, x, m);
      assert Set(k, x, m) == k;
      var t := Set(k, x, m.(state := Closing));
      SetGrows(g, k, s, x, m.(state := Closing));
      SendGrows(g, t, s, WsClose(x));
      var u := TrySend(g.e, t, WsClose(x));
      GrowsTwice(g, k, s, t, u);
      RegisterGrows(g, k, s, u, u.registered - {x});
    case Requests(req, content) =>
      SendGrows(g, k, s, HttpRequest(req, content));
  }

  // ---- the client's control socket ----

  lemma {:induction false} OpensKeys(g: Setting, y: Sys)
    requires KeyInv(g, y)
    ensures KeyInv(g, y.(k := WsOpened(y.k)))
  {
    hide OpenEnvelope, BoxSealOpen, Out, Passed;
    var k' := WsOpened(y.k);
    forall i | 0 <= i < |k'.out|
      ensures FromClient(g, k', y.s, k'.out[i], Early(k', i))
    {
      if i < |y.k.out| {
        assert FromClient(g, y.k, y.s, y.k.out[i], Early(y.k, i));
      }
    }
  }

  /** Losing the socket, or the key, keeps what was agreed. */
  lemma {:induction false} LosesKeys(g: Setting, y: Sys, k': Client)
    requires KeyInv(g, y)
    requires k'.session == y.k.session && k'.trusted == y.k.trusted && k'.out == y.k.out && k'.since == y.k.since
    requires k'.serverPublicKey == y.k.serverPublicKey
    requires k'.mocks.Keys == y.k.mocks.Keys
    requires k'.key.None? || k'.key == y.k.key
    requires k'.ws == y.k.ws || k'.ws == Closed || k'.ws == Closing
    ensures KeyInv(g, y.(k := k'))
  {
    hide OpenEnvelope, BoxSealOpen, Out, Passed;
    assert forall i :: 0 <= i < |k'.out| ==>
      FromClient(g, y.k, y.s, k'.out[i], Early(y.k, i)) ==> FromClient(g, k', y.s, k'.out[i], Early(k', i));
  }

  /** The announcement is the first message, so the key is generated once for a connection. */
  lemma {:induction false} AnnouncementKeys(g: Setting, y: Sys, key: seq<byte>, ephemeral: seq<byte>)
    requires LawfulEnv(g.e) && KeyInv(g, y) && y.read == 0 && Sent(y) != [] && |key| == 32
    requires (y.k.ws == Open || y.k.ws == Closing)
    ensures KeyInv(g, y.(k := ClientHandles(g, y.k, Sent(y)[0].wire, key, ephemeral), read := 1))
  {
    var w := ServerKx(y.s.publicKey, y.s.quote.value);
    assert Sent(y)[0].wire == w;
    AnnouncementItems(g, y.k, y.s, w, key, ephemeral);
    KxFields(g, y.k, w, key, ephemeral);
    hide OpenEnvelope, Out, ClientHandles, Passed, FromServer, LawfulEnv, ClientItems, FromClient, IdentityOk;
  }

  /** The announcement is rejected, or a key is stored, and handed over if everything passed. */
  lemma {:induction false} KxFields(g: Setting, k: Client, w: Wire, key: seq<byte>, ephemeral: seq<byte>)
    requires w.ServerKx?
    ensures var t := ClientHandles(g, k, w, key, ephemeral);
            && t.ws == k.ws && t.mocks == k.mocks && k.out <= t.out
            && (t == k
                || (&& t.key == t.session == Some(key) && t.serverPublicKey == w.x25519PublicKey
                    && t.since == |k.out|
                    && (t.trusted ==> k.trusted || Passed(g, w.x25519PublicKey, w.quote))))
  {
    hide BoxSeal, EarlyChecks, LateChecks;
  }

  /** The sealed key, if it is sent, opens at the server to the new session key. */
  lemma {:induction false} AnnouncementItems(g: Setting, k: Client, s: Server, w: Wire, key: seq<byte>,
                                             ephemeral: seq<byte>)
    requires LawfulEnv(g.e) && ClientItems(g, k, s) && k.session.None? && w.ServerKx?
    requires w.x25519PublicKey == s.publicKey
    requires |s.privateKey| == 32 && s.publicKey == g.e.suite.publicKey(s.privateKey)
    ensures ClientItems(g, ClientHandles(g, k, w, key, ephemeral), s)
  {
    KxFields(g, k, w, key, ephemeral);
    KxItem(g, k, s, w, key, ephemeral);
    hide ClientHandles, ClientItems, FromClient, Passed, LawfulEnv;
    var k' := ClientHandles(g, k, w, key, ephemeral);
    if k' != k {
      EarlierItems(g, k, s, k');
    }
  }

  /** The only message that may be sent is the sealed key, which opens to the session key. */
  lemma {:induction false} KxItem(g: Setting, k: Client, s: Server, w: Wire, key: seq<byte>, ephemeral: seq<byte>)
    requires LawfulEnv(g.e) && w.ServerKx? && w.x25519PublicKey == s.publicKey
    requires |s.privateKey| == 32 && s.publicKey == g.e.suite.publicKey(s.privateKey)
    ensures var k' := ClientHandles(g, k, w, key, ephemeral);
            k.out <= k'.out && forall i :: |k.out| <= i < |k'.out| ==> FromClient(g, k', s, k'.out[i], false)
  {
    SealOpens(g.e.suite, key, s.privateKey, ephemeral);
    hide OpenEnvelope, BoxSeal, BoxSealOpen, LawfulEnv, ClientHandles;
    KxAdds(g, k, w, key, ephemeral);
  }

  /** Nothing is sent, or the sealed key of the session. */
  lemma {:induction false} KxAdds(g: Setting, k: Client, w: Wire, key: seq<byte>, ephemeral: seq<byte>)
    requires w.ServerKx?
    ensures var t := ClientHandles(g, k, w, key, ephemeral);
            var sealed := BoxSeal(g.e.suite, key, w.x25519PublicKey, ephemeral);
            || t.out == k.out
            || (&& sealed.Some? && t.session == Some(key) && t.trusted
                && t.out == k.out + [Item(ClientKx(sealed.value), None)])
  {
    hide BoxSeal, EarlyChecks, LateChecks;
  }

  /** What was sent before the session began is early. */
  lemma {:induction false} EarlierItems(g: Setting, k: Client, s: Server, k': Client)
    requires ClientItems(g, k, s) && k.session.None? && k'.mocks == k.mocks && k'.session.Some? && k'.since == |k.out|
    requires k.out <= k'.out
    requires forall i :: |k.out| <= i < |k'.out| ==> FromClient(g, k', s, k'.out[i], false)
    ensures ClientItems(g, k', s)
  {
    hide OpenEnvelope, BoxSealOpen;
    forall i | 0 <= i < |k'.out|
      ensures FromClient(g, k', s, k'.out[i], Early(k', i))
    {
      if i < |k.out| {
        assert FromClient(g, k, s, k.out[i], Early(k, i));
      }
    }
  }

  /** Any later message opens, as long as the client has its key, and the client handles its plaintext. */
  lemma {:induction false} LaterHandles(g: Setting, y: Sys, key: seq<byte>, ephemeral: seq<byte>)
    requires LawfulEnv(g.e) && KeyInv(g, y) && 1 <= y.read < |Sent(y)|
    ensures Sent(y)[y.read].plain.Some?
    ensures ClientHandles(g, y.k, Sent(y)[y.read].wire, key, ephemeral)
         == if y.k.key.Some? then HandlePlain(g.e, y.k, Sent(y)[y.read].plain.value) else y.k
  {
    hide HandlePlain, HandleServerKx, Out;
    assert FromServer(g, y.k.session, Sent(y)[y.read]);
  }

  lemma {:induction false} ReadsKeys(g: Setting, y: Sys, key: seq<byte>, ephemeral: seq<byte>)
    requires LawfulEnv(g.e) && KeyInv(g, y) && Can(g, y, ClientReads(key, ephemeral))
    ensures KeyInv(g, Do(g, y, ClientReads(key, ephemeral)))
  {
    hide ClientHandles, HandlePlain, Grows, Out;
    if y.read == 0 {
      AnnouncementKeys(g, y, key, ephemeral);
    } else {
      LaterHandles(g, y, key, ephemeral);
      var k' := HandlePlain(g.e, y.k, Sent(y)[y.read].plain.value);
      PlainGrows(g, y.k, y.s, Sent(y)[y.read].plain.value);
      GrowKeeps(g, y, k');
      ReadOnKeys(g, y.(k := k'));
      ReadOnKeys(g, y);
    }
  }

  lemma {:induction false} ReadOnKeys(g: Setting, y: Sys)
    requires KeyInv(g, y) && y.read < |Sent(y)|
    ensures KeyInv(g, y.(read := y.read + 1))
  {
    hide Out, ClientItems, Passed, IdentityOk, SessionOk, FromServer;
  }

  // ---- the server ----

  /** Without an announcement there is no key, and the server sends nothing. */
  lemma {:induction false} SilentUntilAnnounced(g: Setting, y: Sys, t: Server, x: ConnId)
    requires KeyInv(g, y) && Balanced(g.e, y.s, t, y.sock, x) && Out(t, y.sock) != []
    ensures Sent(y) != []
  {
    hide OpenEnvelope, BoxSealOpen, Out, Passed, Data, SentByApp, ClientItems;
    if |Sent(y)| < |Out(t, y.sock)| {
      assert SealedItem(g.e, y.s, y.sock, x, Out(t, y.sock)[|Sent(y)|]);
    }
  }

  lemma {:induction false} SteadyKeys(g: Setting, y: Sys, t: Server, x: ConnId)
    requires KeyInv(g, y) && Steady.Steady(g.e, y.s, t, y.sock, x)
    ensures KeyInv(g, y.(s := t))
  {
    hide OpenEnvelope, BoxSealOpen, Out, Passed, Data, SentByApp, Delivered, Hears;
    var y' := y.(s := t);
    if Out(t, y.sock) != [] {
      SilentUntilAnnounced(g, y, t, x);
    }
    forall i | 0 <= i < |y.k.out|
      ensures FromClient(g, y.k, t, y.k.out[i], Early(y.k, i))
    {
      assert FromClient(g, y.k, y.s, y.k.out[i], Early(y.k, i));
    }
    forall i | 1 <= i < |Sent(y')|
      ensures FromServer(g, y.k.session, Sent(y')[i])
    {
      if i < |Sent(y)| {
        assert FromServer(g, y.k.session, Sent(y)[i]);
      } else {
        assert SealedItem(g.e, y.s, y.sock, x, Sent(y')[i]);
      }
    }
  }

  /** The step does not connect `x` and brings no payload for it over its home. */
  predicate Apart(g: Setting, s: Server, step: ServerTheorems.Step, x: ConnId) {
    step.Control? && Openable(g.e, s, step.sock, step.wire) ==>
      var m := OpenEnvelope(g.e, s.keys[step.sock], step.wire).value;
      !Addresses(m, x) || (m.WsMessage? && Home(s, x) != Some(step.sock))
  }

  /** The server handles a message of another socket, or acts on its own. */
  lemma {:induction false} ForeignSteady(g: Setting, y: Sys, step: ServerTheorems.Step, x: ConnId)
    requires LawfulEnv(g.e) && RegistryOk(y.s) && Enabled(g.e, y.s, step) && Foreign(g, y, step)
    requires !step.Attaches? && Apart(g, y.s, step, x)
    ensures Steady.Steady(g.e, y.s, Next(g.e, y.s, step), y.sock, x)
  {
    hide Steady.Steady, AppRun, Dispatch, ControlClosed, BoxSealOpen, OpenEnvelope, RegistryOk;
    match step
    case Control(sock, w, react) =>
      if Openable(g.e, y.s, sock, w) {
        DispatchSteady(g.e, y.s, sock, OpenEnvelope(g.e, y.s.keys[sock], w).value, react, y.sock, x);
      } else {
        Gated(g.e, y.s, sock, w, react);
        KeysSteady(g.e, y.s, HandleControl(g.e, y.s, sock, w, react), y.sock, x);
      }
    case AppActs(script) =>
      AppRunSteady(g.e, y.s, script, y.sock, x);
    case TransportLost(sock) =>
      KeysSteady(g.e, y.s, y.s.(open := y.s.open - {sock}), y.sock, x);
    case Closes(sock, order, callbacks) =>
      ClosesSteady(g.e, y.s, sock, order, callbacks, y.sock, x);
    case SweepKeys(stale) =>
      KeysSteady(g.e, y.s, y.s.(keys := y.s.keys - stale), y.sock, x);
  }

  /** Only keys and transports change, and for this socket they go together. */
  lemma {:induction false} KeysSteady(e: Env, s: Server, t: Server, sock: Sock, x: ConnId)
    requires t.(keys := s.keys, open := s.open) == s && t.open <= s.open
    requires sock in t.keys ==> sock in s.keys && t.keys[sock] == s.keys[sock]
    requires sock in t.open ==> sock in s.open && (sock in s.keys ==> sock in t.keys)
    ensures Steady.Steady(e, s, t, sock, x)
  {
    hide Delivered, SentByApp;
    SilentSteady(e, s, t, sock, x);
  }

  /** A quote that is there stays with its key pair; a new one comes with a new pair. */
  lemma {:induction false} AttachIdentity(g: Setting, s: Server, sock: Sock, secret: seq<byte>,
                                          fetched: Option<seq<byte>>)
    requires IdentityOk(g, s) && |secret| == 32
    ensures var t := Attach(g.e, s, sock, secret, fetched);
            && IdentityOk(g, t)
            && (s.keyReady ==>
                  t.keyReady && t.publicKey == s.publicKey && t.privateKey == s.privateKey && t.quote == s.quote)
            && (forall other :: other != sock ==> Out(t, other) == Out(s, other))
            && (sock !in s.out ==>
                  if t.keyReady then Out(t, sock) == [Item(ServerKx(t.publicKey, t.quote.value), None)]
                  else Out(t, sock) == [] && sock !in t.open)
  {
    if s.keyReady {
    } else if fetched.Some? {
    } else {
    }
  }

  lemma {:induction false} OtherAttachKeys(g: Setting, y: Sys, t: Server)
    requires KeyInv(g, y) && IdentityOk(g, t) && Out(t, y.sock) == Sent(y) && t.keys == y.s.keys
    requires y.s.keyReady ==>
      t.keyReady && t.publicKey == y.s.publicKey && t.privateKey == y.s.privateKey && t.quote == y.s.quote
    ensures KeyInv(g, y.(s := t))
  {
    hide OpenEnvelope, BoxSealOpen, Out, Passed, FromServer;
    forall i | 0 <= i < |y.k.out|
      ensures FromClient(g, y.k, t, y.k.out[i], Early(y.k, i))
    {
      assert FromClient(g, y.k, y.s, y.k.out[i], Early(y.k, i));
    }
  }

  lemma {:induction false} ConnectsKeys(g: Setting, y: Sys, a: Action)
    requires KeyInv(g, y) && Can(g, y, a) && a.Connects?
    ensures KeyInv(g, Do(g, y, a))
  {
    AttachIdentity(g, y.s, a.sock, a.secret, a.fetched);
    AttachFrame(g.e, y.s, a.sock, a.secret, a.fetched);
    hide Attach, IdentityOk, Out;
  }

  lemma {:induction false} DispatchKeys(g: Setting, y: Sys, m: Msg, react: seq<AppAction>)
    requires LawfulEnv(g.e) && KeyInv(g, y) && RegistryOk(y.s) && (m.WsConnect? ==> m.conn !in y.s.made)
    ensures KeyInv(g, y.(s := Dispatch(g.e, y.s, y.sock, m, react)))
  {
    hide KeyInv, RegistryOk, Dispatch, Steady.Steady, LawfulEnv;
    var x := if m.WsConnect? || m.WsMessage? then m.conn + 1 else 0;
    DispatchSteady(g.e, y.s, y.sock, m, react, y.sock, x);
    SteadyKeys(g, y, Dispatch(g.e, y.s, y.sock, m, react), x);
  }

  /** What the server makes of the client's next message. */
  lemma {:induction false} TakesKeys(g: Setting, y: Sys, react: seq<AppAction>)
    requires LawfulEnv(g.e) && KeyInv(g, y) && RegistryOk(y.s) && y.taken < |y.k.out|
    requires Enabled(g.e, y.s, Control(y.sock, y.k.out[y.taken].wire, react))
    ensures KeyInv(g, y.(s := HandleControl(g.e, y.s, y.sock, y.k.out[y.taken].wire, react), taken := y.taken + 1))
  {
    hide KeyInv, RegistryOk, Dispatch, LawfulEnv, OpenEnvelope, BoxSealOpen;
    var w := y.k.out[y.taken].wire;
    if Openable(g.e, y.s, y.sock, w) {
      DispatchKeys(g, y, OpenEnvelope(g.e, y.s.keys[y.sock], w).value, react);
    } else {
      InstallKeys(g, y, react);
    }
    TakeOnKeys(g, y.(s := HandleControl(g.e, y.s, y.sock, w, react)));
  }

  lemma {:induction false} TakeOnKeys(g: Setting, y: Sys)
    requires KeyInv(g, y) && y.taken < |y.k.out|
    ensures KeyInv(g, y.(taken := y.taken + 1))
  {
    hide Out, ClientItems, Passed, IdentityOk, SessionOk, FromServer;
  }

  /** The key that the server takes from the confirmation is the one that the client sealed. */
  lemma {:induction false} InstallKeys(g: Setting, y: Sys, react: seq<AppAction>)
    requires KeyInv(g, y) && y.taken < |y.k.out| && !Openable(g.e, y.s, y.sock, y.k.out[y.taken].wire)
    ensures KeyInv(g, y.(s := HandleControl(g.e, y.s, y.sock, y.k.out[y.taken].wire, react)))
  {
    var w := y.k.out[y.taken].wire;
    var t := HandleControl(g.e, y.s, y.sock, w, react);
    assert FromClient(g, y.k, y.s, y.k.out[y.taken], Early(y.k, y.taken));
    Gated(g.e, y.s, y.sock, w, react);
    SameItems(g, y.k, y.s, t);
    hide OpenEnvelope, BoxSealOpen, Passed, FromServer, Dispatch, ClientItems, SessionOk;
    assert Out(t, y.sock) == Sent(y);
  }

  lemma {:induction false} SameItems(g: Setting, k: Client, s: Server, t: Server)
    requires ClientItems(g, k, s) && t.publicKey == s.publicKey && t.privateKey == s.privateKey
    ensures ClientItems(g, k, t)
  {
    hide OpenEnvelope, BoxSealOpen;
    assert forall i :: 0 <= i < |k.out| ==>
      FromClient(g, k, s, k.out[i], Early(k, i)) ==> FromClient(g, k, t, k.out[i], Early(k, i));
  }
}
