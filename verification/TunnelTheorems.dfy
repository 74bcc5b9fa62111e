/** Key agreement and first-in-first-out delivery over every run of the tunnel. */
module TunnelTheorems {
  import opened Bytes
  import opened Crypto
  import opened Messages
  import opened ServerSide
  import opened ServerTheorems
  import opened ClientSide
  import opened Steady
  import opened Tunnel
  import opened TunnelKeys
  import opened TunnelOrder
  import opened TunnelServes
  import opened Ownership

  // ---- one step: the server's own books ----

  lemma {:induction false} StepServer(g: Setting, y: Sys, a: Action)
    requires Inv(g, y) && Can(g, y, a)
    ensures RegistryOk(Do(g, y, a).s) && Housed(Do(g, y, a).s)
  {
    if a.ServerReads? {
      TakesEnabled(g, y, a.react);
    }
    hide KeyInv, LinkOk, LinkOf, RegistryOk, Housed, Enabled;
    match a
    case Connects(sock, secret, fetched) =>
      RegistryStep(g.e, y.s, Attaches(sock, secret, fetched));
      HousedStep(g.e, y.s, Attaches(sock, secret, fetched));
    case ServerReads(react) =>
      RegistryStep(g.e, y.s, Control(y.sock, Head(y).wire, react));
      HousedStep(g.e, y.s, Control(y.sock, Head(y).wire, react));
    case ServerActs(step) =>
      RegistryStep(g.e, y.s, step);
      HousedStep(g.e, y.s, step);
    case _ =>
  }

  // ---- one step: the keys ----

  lemma {:induction false} ForeignKeys(g: Setting, y: Sys, step: ServerTheorems.Step)
    requires LawfulEnv(g.e) && KeyInv(g, y) && RegistryOk(y.s) && Can(g, y, ServerActs(step))
    ensures KeyInv(g, y.(s := Next(g.e, y.s, step)))
  {
    hide KeyInv, RegistryOk, OpenEnvelope, Steady.Steady;
    if step.Attaches? {
      AttachedKeys(g, y, step);
    } else {
      var x: ConnId :| Apart(g, y.s, step, x) by {
        var m := if Presented(g.e, y.s, step).Some? then Presented(g.e, y.s, step).value else WsClose(0);
        assert Apart(g, y.s, step, if m.WsConnect? || m.WsMessage? then m.conn + 1 else 0);
      }
      ForeignSteady(g, y, step, x);
      SteadyKeys(g, y, Next(g.e, y.s, step), x);
    }
  }

  lemma {:induction false} AttachedKeys(g: Setting, y: Sys, step: ServerTheorems.Step)
    requires KeyInv(g, y) && step.Attaches? && step.sock != y.sock && |step.secret| == 32
    ensures KeyInv(g, y.(s := Next(g.e, y.s, step)))
  {
    AttachIdentity(g, y.s, step.sock, step.secret, step.fetched);
    AttachFrame(g.e, y.s, step.sock, step.secret, step.fetched);
    hide Attach, ClientItems, Announced, KeysAgree, IdentityOk, Out;
    OtherAttachKeys(g, y, Attach(g.e, y.s, step.sock, step.secret, step.fetched));
  }

  lemma {:induction false} ChangeKeys(g: Setting, y: Sys, change: Change)
    requires KeyInv(g, y)
    ensures KeyInv(g, y.(k := Changed(y.k, change)))
  {
    hide KeyInv;
    if change.Opens? {
      OpensKeys(g, y);
    } else {
      LosesKeys(g, y, Changed(y.k, change));
    }
  }

  lemma {:induction false} StaleKeys(g: Setting, y: Sys)
    requires KeyInv(g, y) && y.stale > 0
    ensures KeyInv(g, y.(k := CloseHandled(y.k), stale := y.stale - 1))
  {
    LosesKeys(g, y, CloseHandled(y.k));
    hide ClientItems, IdentityOk, Passed, Out, SessionOk, FromServer;
  }

  lemma {:induction false} StepKeys(g: Setting, y: Sys, a: Action)
    requires LawfulEnv(g.e) && Inv(g, y) && Can(g, y, a)
    ensures KeyInv(g, Do(g, y, a))
  {
    if a.ServerReads? {
      TakesEnabled(g, y, a.react);
    }
    hide LinkOk, LinkOf, RegistryOk, Housed, Enabled, Grows, Foreign, Next, HandleControl, Act, Changed, LawfulEnv,
         Unused;
    match a
    case Connects(_, _, _) => ConnectsKeys(g, y, a);
    case Changes(change) => ChangeKeys(g, y, change);
    case StaleCloses => StaleKeys(g, y);
    case ClientReads(key, ephemeral) => ReadsKeys(g, y, key, ephemeral);
    case ServerReads(react) => TakesKeys(g, y, react);
    case ServerActs(step) => ForeignKeys(g, y, step);
    case Acts(act) =>
      ActGrows(g, y.k, y.s, act);
      GrowKeeps(g, y, Act(g, y.k, act));
  }

  // ---- one step: every connection ----

  lemma {:induction false} SocketSendAside(g: Setting, k: Client, x: ConnId, data: Payload, z: ConnId)
    requires LawfulEnv(g.e) && SessionOk(k) && x in k.mocks && z in k.mocks && x != z
    ensures Aside(k, SocketSend(g.e, k, x, data), z)
  {
    hide TrySend, Data, Requested, More, LawfulEnv;
    var m, t := k.mocks[x], SocketSend(g.e, k, x, data);
    if m.state == Open {
      var k1 := Set(k, x, m.(sent := m.sent + [data]));
      SendMore(g, k1, WsMessage(x, data), z);
      MoreSame(k, k1, t);
    } else {
      NoMore(k, t, z);
    }
  }

  lemma {:induction false} SocketCloseAside(g: Setting, k: Client, x: ConnId, z: ConnId)
    requires LawfulEnv(g.e) && SessionOk(k) && x in k.mocks && z in k.mocks && x != z
    ensures Aside(k, SocketClose(g.e, k, x), z)
  {
    hide TrySend, Data, Requested, More, LawfulEnv;
    var m, t := k.mocks[x], SocketClose(g.e, k, x);
    if m.state == Closing || m.state == Closed {
      NoMore(k, t, z);
    } else {
      var k1 := Set(k, x, m.(state := Closing));
      var t1 := TrySend(g.e, k1, WsClose(x));
      SendMore(g, k1, WsClose(x), z);
      MoreSame(k, k1, t1);
      MoreAlike(k, t1, t);
    }
  }

  lemma {:induction false} MoreAlike(k: Client, t: Client, u: Client)
    requires t.out == u.out
    ensures More(k, t) == More(k, u)
  {
  }

  lemma {:induction false} ConnectAside(g: Setting, k: Client, x: ConnId, portMatches: bool, z: ConnId)
    requires LawfulEnv(g.e) && SessionOk(k) && x in k.mocks && z in k.mocks && x != z
    ensures Aside(k, FinishConnect(g.e, k, x, portMatches), z)
  {
    hide TrySend, Data, Requested, More, LawfulEnv;
    var k1 := Set(k, x, k.mocks[x].(asked := true));
    NoMore(k, k1, z);
    SendMore(g, k1, WsConnect(x), z);
    MoreSame(k, k1, FinishConnect(g.e, k, x, portMatches));
  }

  lemma {:induction false} ActAside(g: Setting, k: Client, act: ClientAction, z: ConnId)
    requires LawfulEnv(g.e) && SessionOk(k) && Known(k, act) && z in k.mocks && (act.Requests? || act.x != z)
    ensures Aside(k, Act(g, k, act), z)
  {
    hide TrySend, SocketSend, SocketClose, FinishConnect, Data, Requested, LawfulEnv, SessionOk, More;
    match act
    case NewConnection(x) =>
      NoMore(k, NewSocket(k, x), z);
    case AsksFor(x, portMatches) =>
      ConnectAside(g, k, x, portMatches, z);
    case Sends(x, data) =>
      SocketSendAside(g, k, x, data, z);
    case Closes(x) =>
      SocketCloseAside(g, k, x, z);
    case Requests(req, content) =>
      SendMore(g, k, HttpRequest(req, content), z);
  }

  lemma {:induction false} ActLink(g: Setting, y: Sys, act: ClientAction, z: ConnId)
    requires LawfulEnv(g.e) && KeyInv(g, y) && RegistryOk(y.s) && Can(g, y, Acts(act)) && z in Act(g, y.k, act).mocks
    requires z in y.k.mocks ==> LinkOk(LinkOf(y, z))
    ensures LinkOk(LinkOf(y.(k := Act(g, y.k, act)), z))
  {
    assert Sound(y);
    hide LinkOk, LinkOf, RegistryOk, Data, Requested, KeyInv, LawfulEnv, Unused;
    if act.Requests? || act.x != z {
      ActKeepsIds(g, y.k, act);
      ActAside(g, y.k, act, z);
      AsideLink(y, Act(g, y.k, act), z);
    } else {
      hide TrySend, Sound;
      match act
      case NewConnection(x) => NewLink(g, y, x);
      case AsksFor(x, portMatches) => AskLink(g, y, x, portMatches);
      case Sends(x, data) => SendLink(g, y, x, data);
      case Closes(x) => CloseLink(g, y, x);
    }
  }

  /** Only a new connection adds an id. */
  lemma {:induction false} ActKeepsIds(g: Setting, k: Client, act: ClientAction)
    requires Known(k, act)
    ensures Act(g, k, act).mocks.Keys == k.mocks.Keys + if act.NewConnection? then {act.x} else {}
  {
    hide Envelope;
  }

  lemma {:induction false} OpensLinkOk(l: Link, l': Link)
    requires LinkOk(l) && l.ws == Connecting && !l.keyed
    requires l' == l.(ws := Open, requested := l.requested + 0, underway := l.underway + [])
    ensures LinkOk(l')
  {
    assert l.underway + [] == l.underway;
  }

  lemma {:induction false} OpensLink(g: Setting, y: Sys, z: ConnId)
    requires KeyInv(g, y) && z in y.k.mocks && LinkOk(LinkOf(y, z))
    ensures LinkOk(LinkOf(y.(k := WsOpened(y.k)), z))
  {
    var t := WsOpened(y.k);
    if y.k.ws == Connecting {
      var it := Item(ClientReady, None);
      assert More(y.k, t) == [it];
      DataOne(it, z);
      RequestedOne(it, z);
      hide Data, Requested, More, Out, Delivered, SentByApp, Hears, From, Mentions, LinkOk, ClientItems, Announced;
      ClientLink(y, t, z);
      OpensLinkOk(LinkOf(y, z), LinkOf(y.(k := t), z));
    }
  }

  lemma {:induction false} LosesLinkOk(l: Link, l': Link)
    requires LinkOk(l) && l.ws == Open
    requires l' == l.(ws := Closing, requested := l.requested + 0, underway := l.underway + [])
    ensures LinkOk(l')
  {
    assert l.underway + [] == l.underway;
  }

  lemma {:induction false} LosesLink(y: Sys, z: ConnId)
    requires y.taken <= |y.k.out| && y.k.ws == Open && z in y.k.mocks && LinkOk(LinkOf(y, z))
    ensures LinkOk(LinkOf(y.(k := y.k.(ws := Closing)), z))
  {
    hide Data, Requested, More, Out, Delivered, SentByApp, Hears, From, Mentions, LinkOk;
    var t := y.k.(ws := Closing);
    NoMore(y.k, t, z);
    ClientLink(y, t, z);
    LosesLinkOk(LinkOf(y, z), LinkOf(y.(k := t), z));
  }

  lemma {:induction false} UnregisteredIsOver(y: Sys, z: ConnId)
    requires z in y.k.mocks && LinkOk(LinkOf(y, z)) && z !in y.k.registered
    ensures y.k.mocks[z].state == Closing || y.k.mocks[z].state == Closed
  {
    hide Data, Requested, Out, Delivered, SentByApp, Hears, From, Mentions;
  }

  lemma {:induction false} ClosedLink(y: Sys, t: Client, z: ConnId)
    requires y.taken <= |y.k.out| && z in y.k.mocks && LinkOk(LinkOf(y, z))
    requires t == CloseHandled(y.k).(ws := t.ws, closed := t.closed)
    ensures LinkOk(LinkOf(y.(k := t), z))
  {
    hide Data, Requested, LinkOk, LinkOf;
    if z !in y.k.registered {
      UnregisteredIsOver(y, z);
    }
    NoMore(y.k, t, z);
    RetiredLink(y, t, z);
  }

  lemma {:induction false} ReadLink(g: Setting, y: Sys, a: Action, z: ConnId)
    requires LawfulEnv(g.e) && KeyInv(g, y) && Can(g, y, a) && a.ClientReads? && z in y.k.mocks && LinkOk(LinkOf(y, z))
    ensures z in Do(g, y, a).k.mocks && LinkOk(LinkOf(Do(g, y, a), z))
  {
    hide LinkOk, LinkOf, Data, Requested, ClientHandles, HandlePlain, Out;
    if y.read == 0 {
      AnnouncementAside(g, y.k, Sent(y)[0].wire, a.key, a.ephemeral, z);
      OtherReadLink(y, ClientHandles(g, y.k, Sent(y)[0].wire, a.key, a.ephemeral), z);
    } else {
      LaterHandles(g, y, a.key, a.ephemeral);
      var m := Sent(y)[y.read].plain.value;
      if y.k.key.None? {
        DropsRead(y, z);
      } else if m.WsEvent? && m.conn == z {
        EventReadLink(g, y, z, m.event);
      } else if m.WsMessage? && m.conn == z {
        PayloadReadLink(g, y, z, m.data);
        ReceivesKeepsIds(g, y.k, m);
      } else {
        PlainAside(g, y.k, m, z);
        OtherReadLink(y, HandlePlain(g.e, y.k, m), z);
      }
    }
  }

  lemma {:induction false} ReceivesKeepsIds(g: Setting, k: Client, m: Msg)
    ensures HandlePlain(g.e, k, m).mocks.Keys == k.mocks.Keys
  {
  }

  /** A connection of this client has its home at the socket that it uses now, or at one that is gone. */
  lemma {:induction false} ForeignApart(g: Setting, y: Sys, step: ServerTheorems.Step, z: ConnId)
    requires Can(g, y, ServerActs(step)) && z in y.k.mocks && LinkOk(LinkOf(y, z))
    ensures Apart(g, y.s, step, z)
  {
    hide Data, Requested, Out, Delivered, SentByApp, Hears, From, Mentions, OpenEnvelope;
  }

  lemma {:induction false} ForeignLink(g: Setting, y: Sys, step: ServerTheorems.Step, z: ConnId)
    requires LawfulEnv(g.e) && KeyInv(g, y) && RegistryOk(y.s) && Housed(y.s) && Can(g, y, ServerActs(step))
    requires z in y.k.mocks && LinkOk(LinkOf(y, z))
    ensures LinkOk(LinkOf(y.(s := Next(g.e, y.s, step)), z))
  {
    hide LinkOk, LinkOf, RegistryOk, OpenEnvelope, Steady.Steady, Attach;
    if step.Attaches? {
      AttachIdentity(g, y.s, step.sock, step.secret, step.fetched);
      AttachFrame(g.e, y.s, step.sock, step.secret, step.fetched);
      hide KeyInv, Out;
      OtherAttachLink(y, Attach(g.e, y.s, step.sock, step.secret, step.fetched), z);
    } else {
      assert Basics(y);
      ForeignApart(g, y, step, z);
      hide KeyInv, Next, Apart;
      ForeignSteady(g, y, step, z);
      SteadyLink(g, y, Next(g.e, y.s, step), z);
    }
  }

  lemma {:induction false} ChangeLink(g: Setting, y: Sys, change: Change, z: ConnId)
    requires KeyInv(g, y) && z in Changed(y.k, change).mocks && (z in y.k.mocks ==> LinkOk(LinkOf(y, z)))
    ensures LinkOk(LinkOf(y.(k := Changed(y.k, change)), z))
  {
    assert y.taken <= |y.k.out|;
    hide LinkOk, LinkOf, KeyInv;
    match change
    case Opens => OpensLink(g, y, z);
    case Loses =>
      if y.k.ws == Open {
        LosesLink(y, z);
      }
    case Goes => ClosedLink(y, WsClosed(y.k), z);
    case Shuts =>
      if !y.k.closed {
        ClosedLink(y, CloseClient(y.k), z);
      }
  }

  lemma {:induction false} StaleLink(g: Setting, y: Sys, z: ConnId)
    requires KeyInv(g, y) && y.stale > 0 && z in y.k.mocks && LinkOk(LinkOf(y, z))
    ensures LinkOk(LinkOf(y.(k := CloseHandled(y.k), stale := y.stale - 1), z))
  {
    assert y.taken <= |y.k.out|;
    hide LinkOk, KeyInv, Data, Requested, Out, Delivered, SentByApp, Hears, From, Mentions;
    ClosedLink(y, CloseHandled(y.k), z);
    assert LinkOf(y.(k := CloseHandled(y.k), stale := y.stale - 1), z) == LinkOf(y.(k := CloseHandled(y.k)), z);
  }

  lemma {:induction false} ConnectsAnew(g: Setting, y: Sys, a: Action, z: ConnId)
    requires KeyInv(g, y) && RegistryOk(y.s) && Housed(y.s) && Can(g, y, a) && a.Connects?
    requires z in y.k.mocks && LinkOk(LinkOf(y, z))
    ensures LinkOk(LinkOf(Do(g, y, a), z))
  {
    assert IdentityOk(g, y.s);
    hide LinkOk, LinkOf, KeyInv, RegistryOk, Attach, IdentityOk;
    ConnectsLink(g, y, a, z);
  }

  lemma {:induction false} StepLink(g: Setting, y: Sys, a: Action, z: ConnId)
    requires LawfulEnv(g.e) && Inv(g, y) && Can(g, y, a) && z in Do(g, y, a).k.mocks
    ensures LinkOk(LinkOf(Do(g, y, a), z))
  {
    if a.ServerReads? {
      TakesEnabled(g, y, a.react);
    }
    assert z in y.k.mocks ==> LinkOk(LinkOf(y, z));
    hide LinkOk, LinkOf, RegistryOk, Next, HandleControl, Act, Changed, KeyInv, LawfulEnv, Unused, Foreign, Enabled;
    match a
    case Connects(_, _, _) => ConnectsAnew(g, y, a, z);
    case Changes(change) => ChangeLink(g, y, change, z);
    case StaleCloses => StaleLink(g, y, z);
    case ClientReads(key, ephemeral) =>
      ReadKeepsIds(g, y, a);
      ReadLink(g, y, a, z);
    case ServerReads(react) => TakesLink(g, y, react, z);
    case ServerActs(step) => ForeignLink(g, y, step, z);
    case Acts(act) => ActLink(g, y, act, z);
  }

  lemma {:induction false} ReadKeepsIds(g: Setting, y: Sys, a: Action)
    requires Can(g, y, a) && a.ClientReads?
    ensures Do(g, y, a).k.mocks.Keys == y.k.mocks.Keys
  {
    hide HandlePlain, OpenEnvelope, BoxSeal, EarlyChecks, LateChecks;
    var w := Sent(y)[y.read].wire;
    if w.Enc? && y.k.key.Some? && OpenEnvelope(g.e, y.k.key.value, w).Some? {
      ReceivesKeepsIds(g, y.k, OpenEnvelope(g.e, y.k.key.value, w).value);
    }
  }

  lemma {:induction false} StepKeeps(g: Setting, y: Sys, a: Action)
    requires LawfulEnv(g.e) && Inv(g, y) && Can(g, y, a)
    ensures Inv(g, Do(g, y, a))
  {
    StepServer(g, y, a);
    StepKeys(g, y, a);
    hide Do, Can, KeyInv, RegistryOk, Housed, LinkOf, LinkOk;
    forall z | z in Do(g, y, a).k.mocks
      ensures LinkOk(LinkOf(Do(g, y, a), z))
    {
      StepLink(g, y, a, z);
    }
  }

  // ---- whole runs ----

  predicate Possible(g: Setting, y: Sys, run: seq<Action>)
    decreases |run|
  {
    run != [] ==> Can(g, y, run[0]) && Possible(g, Do(g, y, run[0]), run[1..])
  }

  function Reached(g: Setting, y: Sys, run: seq<Action>): Sys
    requires Possible(g, y, run)
    decreases |run|
  {
    if run == [] then y else Reached(g, Do(g, y, run[0]), run[1..])
  }

  /** A client and a server as they are constructed. */
  predicate Start(y: Sys) {
    && y.k == Client(Closed, false, None, [], map[], {}, None, 0, false, [], 0)
    && Initial(y.s) && y.taken == 0 && y.read == 0 && y.stale == 0
  }

  lemma {:induction false} RunKeeps(g: Setting, y: Sys, run: seq<Action>)
    requires LawfulEnv(g.e) && Inv(g, y) && Possible(g, y, run)
    ensures Inv(g, Reached(g, y, run))
    decreases |run|
  {
    hide Inv, Do, Can;
    if run != [] {
      StepKeeps(g, y, run[0]);
      RunKeeps(g, Do(g, y, run[0]), run[1..]);
    }
  }

  lemma {:induction false} StartInv(g: Setting, y: Sys)
    requires Start(y)
    ensures Inv(g, y)
  {
  }

  /**
   Over every run: a key that the server holds for the control socket is the one that the client
   generated for it, and the client's current key if it has one (`AlwaysKeyedIff` says when); it was
   handed over only after every configured check passed on the announced quote and key.
   */
  lemma {:induction false} KeyAgreement(g: Setting, start: Sys, run: seq<Action>)
    requires LawfulEnv(g.e) && Start(start) && Possible(g, start, run)
    ensures var y := Reached(g, start, run);
            && (y.sock in y.s.keys ==> y.k.trusted && y.k.session == Some(y.s.keys[y.sock]) && |y.s.keys[y.sock]| == 32)
            && (y.sock in y.s.keys && y.k.key.Some? ==> y.k.key == Some(y.s.keys[y.sock]))
            && (y.k.trusted ==>
                  && Sent(y) != [] && Sent(y)[0].wire.ServerKx?
                  && Passed(g, Sent(y)[0].wire.x25519PublicKey, Sent(y)[0].wire.quote)
                  && y.k.serverPublicKey == Sent(y)[0].wire.x25519PublicKey == g.e.suite.publicKey(y.s.privateKey))
            && (forall i :: 0 <= i < |y.k.out| && y.k.out[i].wire.ClientKx? ==>
                  && y.k.trusted
                  && BoxSealOpen(g.e.suite, y.k.out[i].wire.sealedSymmetricKey, y.s.publicKey, y.s.privateKey)
                     == y.k.session)
  {
    StartInv(g, start);
    RunKeeps(g, start, run);
    hide RegistryOk, Housed, LinkOk, Passed, BoxSealOpen, OpenEnvelope, Reached, Possible, Out;
    var y := Reached(g, start, run);
    forall i | 0 <= i < |y.k.out| && y.k.out[i].wire.ClientKx?
      ensures y.k.trusted
      ensures BoxSealOpen(g.e.suite, y.k.out[i].wire.sealedSymmetricKey, y.s.publicKey, y.s.privateKey) == y.k.session
    {
      assert FromClient(g, y.k, y.s, y.k.out[i], Early(y.k, i));
    }
  }

  /**
   Over every run: once the server has a key, every envelope of the server, and every envelope that the
   client sends since it generated the key, opens to what was sent under the key that the other holds.
   */
  lemma {:induction false} EnvelopesOpen(g: Setting, start: Sys, run: seq<Action>)
    requires LawfulEnv(g.e) && Start(start) && Possible(g, start, run)
    ensures var y := Reached(g, start, run);
            y.sock in y.s.keys ==>
              && (forall i :: y.k.since <= i < |y.k.out| && y.k.out[i].wire.Enc? ==>
                    y.k.out[i].plain.Some? && OpenEnvelope(g.e, y.s.keys[y.sock], y.k.out[i].wire) == y.k.out[i].plain)
              && (y.k.key.Some? ==> forall i :: 1 <= i < |Sent(y)| ==>
                    Sent(y)[i].plain.Some? && OpenEnvelope(g.e, y.k.key.value, Sent(y)[i].wire) == Sent(y)[i].plain)
  {
    StartInv(g, start);
    RunKeeps(g, start, run);
    hide RegistryOk, Housed, LinkOk, Passed, BoxSealOpen, OpenEnvelope, Reached, Possible, Out;
    var y := Reached(g, start, run);
    if y.sock in y.s.keys {
      forall i | y.k.since <= i < |y.k.out| && y.k.out[i].wire.Enc?
        ensures y.k.out[i].plain.Some? && OpenEnvelope(g.e, y.s.keys[y.sock], y.k.out[i].wire) == y.k.out[i].plain
      {
        assert FromClient(g, y.k, y.s, y.k.out[i], Early(y.k, i));
      }
      forall i | y.k.key.Some? && 1 <= i < |Sent(y)|
        ensures Sent(y)[i].plain.Some? && OpenEnvelope(g.e, y.k.key.value, Sent(y)[i].wire) == Sent(y)[i].plain
      {
        assert FromServer(g, y.k.session, Sent(y)[i]);
      }
    }
  }

  /**
   Over every run and for every tunneled socket: what the server application received is a prefix
   of what the client passed to `send`, before and after it opened. While both ends hold the
   connection, the rest is under way or still queued, in order, and nothing is lost.
   */
  lemma {:induction false} FifoUp(g: Setting, start: Sys, run: seq<Action>, x: ConnId)
    requires LawfulEnv(g.e) && Start(start) && Possible(g, start, run) && x in Reached(g, start, run).k.mocks
    ensures var y := Reached(g, start, run);
            var m := y.k.mocks[x];
            && Delivered(y.s.app, x, Home(y.s, x)) <= m.sent
            && (&& y.sock in y.s.open && Hears(y.s, y.sock, x)
                && (m.state == Connecting || (m.state == Open && y.k.ws == Open)) ==>
                  Delivered(y.s.app, x, Home(y.s, x)) + Data(From(y.k.out, y.taken), x) + m.queue == m.sent)
            && (m.state == Open ==> m.queue == [])
  {
    StartInv(g, start);
    RunKeeps(g, start, run);
    hide RegistryOk, Housed, KeyInv, Reached, Possible, Out, Data, Requested, Delivered, SentByApp, Hears, From,
         Mentions;
    assert LinkOk(LinkOf(Reached(g, start, run), x));
  }

  /**
   Over every run and for every tunneled socket: what the client received is a prefix of what the
   server application sent. While the client has it registered and the control socket is open, the
   rest is on its way, in order, and nothing is lost.
   */
  lemma {:induction false} FifoDown(g: Setting, start: Sys, run: seq<Action>, x: ConnId)
    requires LawfulEnv(g.e) && Start(start) && Possible(g, start, run) && x in Reached(g, start, run).k.mocks
    ensures var y := Reached(g, start, run);
            && y.k.mocks[x].received <= SentByApp(y.s.app, x)
            && (x in y.k.registered && MadeOn(y.s, y.sock, x) && y.sock in y.s.open ==>
                  y.k.mocks[x].received + Data(From(Sent(y), y.read), x) == SentByApp(y.s.app, x))
  {
    StartInv(g, start);
    RunKeeps(g, start, run);
    hide RegistryOk, Housed, KeyInv, Reached, Possible, Out, Data, Requested, Delivered, SentByApp, Hears, From,
         Mentions;
    assert LinkOk(LinkOf(Reached(g, start, run), x));
  }

  // ---- payloads that other sockets send for a connection of this client ----

  /**
   A control socket that is not the home of `x` gets a payload for `x` delivered: one of another client,
   or the one that replaced the home.
   */
  predicate Disturbs(g: Setting, y: Sys, a: Action, x: ConnId)
    requires Can(g, y, a)
  {
    || (a.ServerActs? && Intrudes(g.e, y.s, a.step, x))
    || (a.ServerReads? && Intrudes(g.e, y.s, Control(y.sock, Head(y).wire, a.react), x))
  }

  predicate Disturbed(g: Setting, y: Sys, run: seq<Action>, x: ConnId)
    requires Possible(g, y, run)
    decreases |run|
  {
    run != [] && (Disturbs(g, y, run[0], x) || Disturbed(g, Do(g, y, run[0]), run[1..], x))
  }

  lemma {:induction false} StepHome(g: Setting, y: Sys, a: Action, x: ConnId)
    requires Inv(g, y) && Can(g, y, a) && OnlyMade(y.s)
    ensures OnlyMade(Do(g, y, a).s)
    ensures HomeOnly(Do(g, y, a).s, x) <==> HomeOnly(y.s, x) && !Disturbs(g, y, a, x)
  {
    if a.ServerReads? {
      TakesEnabled(g, y, a.react);
    }
    hide KeyInv, LinkOk, LinkOf, RegistryOk, Housed, Enabled, OnlyMade, HomeOnly, Intrudes;
    match a
    case Connects(sock, secret, fetched) =>
      AttachHome(g, y.s, Attaches(sock, secret, fetched), x);
    case ServerReads(react) =>
      OnlyMadeStep(g.e, y.s, Control(y.sock, Head(y).wire, react));
      HomeOnlyStep(g.e, y.s, Control(y.sock, Head(y).wire, react), x);
    case ServerActs(step) =>
      OnlyMadeStep(g.e, y.s, step);
      HomeOnlyStep(g.e, y.s, step, x);
    case _ =>
  }

  lemma {:induction false} AttachHome(g: Setting, s: Server, step: ServerTheorems.Step, x: ConnId)
    requires step.Attaches?
    ensures OnlyMade(Next(g.e, s, step)) <==> OnlyMade(s)
    ensures HomeOnly(Next(g.e, s, step), x) <==> HomeOnly(s, x)
  {
    hide Attach;
    AttachFrame(g.e, s, step.sock, step.secret, step.fetched);
  }

  lemma {:induction false} RunHome(g: Setting, y: Sys, run: seq<Action>, x: ConnId)
    requires LawfulEnv(g.e) && Inv(g, y) && Possible(g, y, run) && OnlyMade(y.s)
    ensures HomeOnly(Reached(g, y, run).s, x) <==> HomeOnly(y.s, x) && !Disturbed(g, y, run, x)
    decreases |run|
  {
    if run != [] {
      hide Inv, Do, Can, HomeOnly, OnlyMade, Disturbs;
      StepKeeps(g, y, run[0]);
      StepHome(g, y, run[0], x);
      RunHome(g, Do(g, y, run[0]), run[1..], x);
    }
  }

  lemma {:induction false} HomeIsAll(s: Server, app: seq<AppEvent>, x: ConnId)
    requires forall i :: 0 <= i < |app| && app[i].GotMessage? && app[i].conn == x ==> Home(s, x) == Some(app[i].via)
    ensures Delivered(app, x, None) == Delivered(app, x, Home(s, x))
    decreases |app|
  {
    if app != [] {
      HomeIsAll(s, app[..|app| - 1], x);
    }
  }

  /**
   Over every run and for every tunneled socket: all that the server application received on it came
   over the control socket that it was connected over, if and only if no other control socket presents a
   payload for it that opens while its mock is open; and then all of it is a prefix of what the client
   passed to `send`.
   */
  lemma {:induction false} FifoUpAllIff(g: Setting, start: Sys, run: seq<Action>, x: ConnId)
    requires LawfulEnv(g.e) && Start(start) && Possible(g, start, run) && x in Reached(g, start, run).k.mocks
    ensures HomeOnly(Reached(g, start, run).s, x) <==> !Disturbed(g, start, run, x)
    ensures !Disturbed(g, start, run, x) ==>
      Delivered(Reached(g, start, run).s.app, x, None) <= Reached(g, start, run).k.mocks[x].sent
  {
    StartInv(g, start);
    RunHome(g, start, run, x);
    FifoUp(g, start, run, x);
    if !Disturbed(g, start, run, x) {
      HomeIsAll(Reached(g, start, run).s, Reached(g, start, run).s.app, x);
    }
  }

  // ---- the key of the current socket ----

  /** A socket that is open after its handshake has its key. */
  predicate Keyed(k: Client) {
    k.ws == Open && k.session.Some? ==> k.key == k.session
  }

  /** The close event of a replaced socket is handled while the current one is open and keyed. */
  predicate DropsKey(y: Sys, a: Action) {
    a.StaleCloses? && y.k.ws == Open && y.k.session.Some?
  }

  lemma {:induction false} HandlesKeyed(g: Setting, k: Client, w: Wire, key: seq<byte>, ephemeral: seq<byte>)
    requires Keyed(k)
    ensures Keyed(ClientHandles(g, k, w, key, ephemeral))
  {
    hide BoxSeal, EarlyChecks, LateChecks, OpenEnvelope, HandlePlain;
    if w.Enc? && k.key.Some? && OpenEnvelope(g.e, k.key.value, w).Some? {
      PlainFrame(g, k, OpenEnvelope(g.e, k.key.value, w).value);
    }
  }

  lemma {:induction false} SendFields(g: Setting, k: Client, m: Msg)
    ensures var t := TrySend(g.e, k, m); t.ws == k.ws && t.session == k.session && t.key == k.key
  {
    hide Envelope;
  }

  lemma {:induction false} FlushFields(g: Setting, k: Client, x: ConnId, queue: seq<Payload>)
    ensures var t := Flush(g.e, k, x, queue); t.ws == k.ws && t.session == k.session && t.key == k.key
    decreases |queue|
  {
    hide TrySend;
    if queue != [] {
      var front := queue[..|queue| - 1];
      FlushFields(g, k, x, front);
      SendFields(g, Flush(g.e, k, x, front), WsMessage(x, queue[|queue| - 1]));
    }
  }

  lemma {:induction false} PlainFrame(g: Setting, k: Client, m: Msg)
    ensures var t := HandlePlain(g.e, k, m); t.ws == k.ws && t.session == k.session && t.key == k.key
  {
    hide Flush;
    if m.WsEvent? && m.conn in k.mocks {
      FlushFields(g, Set(k, m.conn, k.mocks[m.conn].(state := Open, queue := [])), m.conn, k.mocks[m.conn].queue);
    }
  }

  lemma {:induction false} ActFrame(g: Setting, k: Client, act: ClientAction)
    requires Known(k, act)
    ensures var t := Act(g, k, act); t.ws == k.ws && t.session == k.session && t.key == k.key
  {
    hide Envelope;
  }

  /** A step keeps the key exactly when it is not such a close event. */
  lemma {:induction false} KeyedStep(g: Setting, y: Sys, a: Action)
    requires KeyInv(g, y) && Can(g, y, a) && Keyed(y.k)
    ensures Keyed(Do(g, y, a).k) <==> !DropsKey(y, a)
  {
    assert SessionOk(y.k);
    hide KeyInv, Act, ClientHandles, HandleControl, Next, Attach, Enabled, Foreign, Unused, Out;
    match a
    case Acts(act) => ActFrame(g, y.k, act);
    case ClientReads(key, ephemeral) => HandlesKeyed(g, y.k, Sent(y)[y.read].wire, key, ephemeral);
    case _ =>
  }

  /** In every state of the run. */
  predicate AlwaysKeyed(g: Setting, y: Sys, run: seq<Action>)
    requires Possible(g, y, run)
    decreases |run|
  {
    Keyed(y.k) && (run != [] ==> AlwaysKeyed(g, Do(g, y, run[0]), run[1..]))
  }

  predicate DropsKeyIn(g: Setting, y: Sys, run: seq<Action>)
    requires Possible(g, y, run)
    decreases |run|
  {
    run != [] && (DropsKey(y, run[0]) || DropsKeyIn(g, Do(g, y, run[0]), run[1..]))
  }

  lemma {:induction false} KeyedRun(g: Setting, y: Sys, run: seq<Action>)
    requires LawfulEnv(g.e) && Inv(g, y) && Possible(g, y, run) && Keyed(y.k)
    ensures AlwaysKeyed(g, y, run) <==> !DropsKeyIn(g, y, run)
    decreases |run|
  {
    if run != [] {
      assert KeyInv(g, y);
      hide Inv, Do, Can, KeyInv, Keyed, DropsKey;
      KeyedStep(g, y, run[0]);
      StepKeeps(g, y, run[0]);
      if !DropsKey(y, run[0]) {
        KeyedRun(g, Do(g, y, run[0]), run[1..]);
      }
    }
  }

  /**
   Over every run: the control socket has its key in every state in which it is open after its
   handshake, if and only if no close event of a socket that was replaced is handled while the
   current one is open and keyed.
   */
  lemma {:induction false} AlwaysKeyedIff(g: Setting, start: Sys, run: seq<Action>)
    requires LawfulEnv(g.e) && Start(start) && Possible(g, start, run)
    ensures AlwaysKeyed(g, start, run) <==> !DropsKeyIn(g, start, run)
  {
    StartInv(g, start);
    KeyedRun(g, start, run);
  }
}
