/** The server handles what the client sent, and control sockets come and go. */
module TunnelServes {
  import opened Bytes
  import opened Crypto
  import opened Messages
  import opened ServerSide
  import opened ServerTheorems
  import opened Steady
  import opened Tunnel
  import opened TunnelKeys
  import opened TunnelOrder

  function Head(y: Sys): Item
    requires y.taken < |y.k.out|
  {
    y.k.out[y.taken]
  }

  function Tail(y: Sys): Sys {
    y.(taken := y.taken + 1)
  }

  /** The server moves on in what the client sent. */
  lemma {:induction false} TakeOn(y: Sys, x: ConnId)
    requires y.taken < |y.k.out| && x in y.k.mocks
    ensures var l, l' := LinkOf(y, x), LinkOf(Tail(y), x);
            && l' == l.(requested := l'.requested, underway := l'.underway)
            && l.requested == l'.requested + (if Head(y).plain == Some(WsConnect(x)) then 1 else 0)
            && l.underway == (if Head(y).plain.Some? && Head(y).plain.value.WsMessage? && Head(y).plain.value.conn == x
                              then [Head(y).plain.value.data] else []) + l'.underway
  {
    hide Out, Data, Requested, Delivered, SentByApp, Hears, From, Mentions;
    ChannelMoves(y.k.out, y.taken, x);
    DataOne(Head(y), x);
  }

  predicate CarriesPayload(it: Item, x: ConnId) {
    it.plain.Some? && it.plain.value.WsMessage? && it.plain.value.conn == x
  }

  /** A message that carries no payload for `x`, or one that is not for its home, has been handled. */
  lemma {:induction false} SkipsLink(y: Sys, x: ConnId)
    requires y.taken < |y.k.out| && x in y.k.mocks && LinkOk(LinkOf(y, x))
    requires CarriesPayload(Head(y), x) ==> !MadeOn(y.s, y.sock, x)
    ensures LinkOk(LinkOf(Tail(y), x))
  {
    hide Out, Data, Requested, Delivered, SentByApp, Hears, From, Mentions, LinkOk;
    TakeOn(y, x);
    SkippedLinkOk(LinkOf(y, x), LinkOf(Tail(y), x), CarriesPayload(Head(y), x));
  }

  lemma {:induction false} SkippedLinkOk(l: Link, l': Link, payload: bool)
    requires LinkOk(l) && l' == l.(requested := l'.requested, underway := l'.underway) && l'.requested <= l.requested
    requires if payload then !l.here && |l'.underway| < |l.underway| else l.underway == [] + l'.underway
    ensures LinkOk(l')
  {
    assert [] + l'.underway == l'.underway;
  }

  // ---- payloads ----

  /** A payload that is under way to its home opens there. */
  lemma {:induction false} PayloadOpens(g: Setting, y: Sys, x: ConnId)
    requires KeyInv(g, y) && y.taken < |y.k.out| && y.sock in y.s.open && x in y.k.mocks && LinkOk(LinkOf(y, x))
    requires CarriesPayload(Head(y), x) && MadeOn(y.s, y.sock, x)
    ensures Openable(g.e, y.s, y.sock, Head(y).wire)
  {
    assert FromClient(g, y.k, y.s, Head(y), Early(y.k, y.taken));
    hide Out, Data, Requested, Delivered, SentByApp, Hears, From, Mentions, OpenEnvelope, BoxSealOpen;
  }

  /** What opens is what the client encrypted. */
  lemma {:induction false} OpensToPlain(g: Setting, y: Sys)
    requires KeyInv(g, y) && y.taken < |y.k.out| && Openable(g.e, y.s, y.sock, Head(y).wire)
    ensures Head(y).plain == OpenEnvelope(g.e, y.s.keys[y.sock], Head(y).wire) && Head(y).plain.Some?
    ensures Head(y).plain.value.WsConnect? || Head(y).plain.value.WsMessage? ==> Head(y).plain.value.conn in y.k.mocks
  {
    assert FromClient(g, y.k, y.s, Head(y), Early(y.k, y.taken));
    hide BoxSealOpen;
  }

  lemma {:induction false} DeliveredLinkOk(l: Link, l': Link, data: Payload)
    requires LinkOk(l) && l.hears && l.underway == [data] + l'.underway
    requires l' == l.(underway := l'.underway, delivered := l.delivered + [data])
    ensures LinkOk(l')
  {
    assert l.delivered + ([data] + l'.underway) == l.delivered + [data] + l'.underway;
  }

  /** A mock that does not hear `x` drops its payload. */
  lemma {:induction false} DroppedLinkOk(l: Link, l': Link, data: Payload)
    requires LinkOk(l) && !l.hears && l.here && l.underway == [data] + l'.underway
    requires l' == l.(underway := l'.underway)
    ensures LinkOk(l')
  {
  }

  lemma {:induction false} LogLink(y: Sys, x: ConnId, data: Payload)
    requires x in y.k.mocks && MadeOn(y.s, y.sock, x)
    ensures LinkOf(y.(s := Log(y.s, GotMessage(y.sock, x, data))), x)
         == LinkOf(y, x).(delivered := LinkOf(y, x).delivered + [data])
  {
    LogAppend(y.s.app, GotMessage(y.sock, x, data), x, Home(y.s, x));
    hide Data, Requested, Delivered, SentByApp, From, Mentions;
    var t := Log(y.s, GotMessage(y.sock, x, data));
    assert Out(t, y.sock) == Out(y.s, y.sock);
    assert SentByApp(t.app, x) == SentByApp(y.s.app, x) + [];
  }

  lemma {:induction false} PayloadTaken(g: Setting, y: Sys, x: ConnId, data: Payload)
    requires KeyInv(g, y) && RegistryOk(y.s) && y.taken < |y.k.out| && y.sock in y.s.open && x in y.k.mocks
    requires LinkOk(LinkOf(y, x)) && Head(y).plain == Some(WsMessage(x, data)) && MadeOn(y.s, y.sock, x)
    ensures LinkOk(LinkOf(Tail(y).(s := if Receives(y.s, x) then Log(y.s, GotMessage(y.sock, x, data)) else y.s), x))
  {
    PayloadOpens(g, y, x);
    if Receives(y.s, x) {
      assert SocketOk(y.s, x) && MockOk(y.s, y.s.sockets[x].mock);
      assert Hears(y.s, y.sock, x);
    }
    assert !Receives(y.s, x) ==> !Hears(y.s, y.sock, x);
    hide RegistryOk, Hears, Receives, KeyInv, Out, Data, Requested, Delivered, SentByApp, From, Mentions, LinkOk;
    TakeOn(y, x);
    LogLink(Tail(y), x, data);
    if Receives(y.s, x) {
      DeliveredLinkOk(LinkOf(y, x), LinkOf(Tail(y).(s := Log(y.s, GotMessage(y.sock, x, data))), x), data);
    } else {
      DroppedLinkOk(LinkOf(y, x), LinkOf(Tail(y), x), data);
    }
  }

  lemma {:induction false} MessageLink(g: Setting, y: Sys, x: ConnId, data: Payload, react: seq<AppAction>)
    requires LawfulEnv(g.e) && KeyInv(g, y) && RegistryOk(y.s) && y.taken < |y.k.out| && y.sock in y.s.open
    requires x in y.k.mocks
    requires LinkOk(LinkOf(y, x)) && Head(y).plain == Some(WsMessage(x, data)) && MadeOn(y.s, y.sock, x)
    ensures LinkOk(LinkOf(Tail(y).(s := HandleMessage(g.e, y.s, y.sock, x, data, react)), x))
  {
    hide LinkOk, LinkOf, AppRun, Steady.Steady;
    PayloadTaken(g, y, x, data);
    if Receives(y.s, x) {
      var t := Log(y.s, GotMessage(y.sock, x, data));
      FieldsOnlyOk(y.s, t);
      AppRunSteady(g.e, t, react, y.sock, x);
      SteadyLink(g, Tail(y).(s := t), AppRun(g.e, t, react), x);
    }
  }

  // ---- connections ----

  lemma {:induction false} MadeLinkOk(l: Link, l': Link)
    requires LinkOk(l) && !l.made && l.keyed && l.live && l.requested == l'.requested + 1
    requires l.underway == [] + l'.underway
    requires l' == l.(requested := l'.requested, underway := l'.underway, made := true, here := true, hears := true)
    ensures LinkOk(l')
  {
    assert [] + [] + l.m.queue == l.m.queue;
  }

  lemma {:induction false} NothingDelivered(app: seq<AppEvent>, x: ConnId, home: Option<Sock>)
    requires Delivered(app, x, None) == []
    ensures Delivered(app, x, home) == []
  {
    if app != [] {
      NothingDelivered(app[..|app| - 1], x, home);
    }
  }

  lemma {:induction false} AddMockLink(y: Sys, x: ConnId)
    requires x in y.k.mocks && y.sock in y.s.open && x !in y.s.made && LinkOf(y, x).delivered == []
    ensures LinkOf(y.(s := AddMock(y.s, y.sock, x)), x) == LinkOf(y, x).(made := true, here := true, hears := true)
  {
    hide Data, Requested, Delivered, SentByApp, From, Mentions;
    LogAppend(y.s.app, GotConnection(y.sock, |y.s.mocks|), x, Some(y.sock));
    NothingDelivered(y.s.app, x, Some(y.sock));
    var t := AddMock(y.s, y.sock, x);
    assert Out(t, y.sock) == Out(y.s, y.sock);
    assert SentByApp(t.app, x) == SentByApp(y.s.app, x) + [];
  }

  lemma {:induction false} ConnectionMade(g: Setting, y: Sys, x: ConnId)
    requires KeyInv(g, y) && y.taken < |y.k.out| && y.sock in y.s.open && y.sock in y.s.keys && x in y.k.mocks
    requires LinkOk(LinkOf(y, x)) && Head(y).plain == Some(WsConnect(x))
    ensures x !in y.s.made && LinkOk(LinkOf(Tail(y).(s := AddMock(y.s, y.sock, x)), x))
  {
    hide Out, Data, Requested, Delivered, SentByApp, From, Mentions, AddMock, Hears;
    TakeOn(y, x);
    AddMockLink(Tail(y), x);
    MadeLinkOk(LinkOf(y, x), LinkOf(Tail(y).(s := AddMock(y.s, y.sock, x)), x));
  }

  lemma {:induction false} AddMockSide(y: Sys, x: ConnId)
    requires Basics(y)
    ensures Basics(y.(s := AddMock(y.s, y.sock, x))) && MadeOn(AddMock(y.s, y.sock, x), y.sock, x)
  {
  }

  lemma {:induction false} SteadyMade(e: Env, s: Server, t: Server, sock: Sock, x: ConnId)
    requires Steady.Steady(e, s, t, sock, x) && MadeOn(s, sock, x)
    ensures MadeOn(t, sock, x)
  {
    hide Balanced, Delivered, Hears;
  }

  lemma {:induction false} ConnectLink(g: Setting, y: Sys, x: ConnId, react: seq<AppAction>)
    requires LawfulEnv(g.e) && KeyInv(g, y) && RegistryOk(y.s) && y.taken < |y.k.out| && y.sock in y.s.open
    requires y.sock in y.s.keys
    requires x in y.k.mocks && LinkOk(LinkOf(y, x)) && Head(y).plain == Some(WsConnect(x))
    ensures LinkOk(LinkOf(Tail(y).(s := HandleConnect(g.e, y.s, y.sock, x, react)), x))
  {
    hide LinkOk, LinkOf, AppRun, Steady.Steady, AddMock, SendEncrypted, RegistryOk;
    assert Basics(y) && Basics(Tail(y));
    if y.s.hono && y.sock !in y.s.contexts {
      SkipsLink(y, x);
      SignalSteady(g.e, y.s, y.sock, WsEvent(x, Errored), y.sock, x);
      SteadyLink(g, Tail(y), SendEncrypted(g.e, y.s, y.sock, WsEvent(x, Errored)), x);
    } else {
      var t := AddMock(y.s, y.sock, x);
      var u := AppRun(g.e, t, react);
      ConnectionMade(g, y, x);
      hide KeyInv;
      AddMockOk(y.s, y.sock, x);
      AddMockSide(Tail(y), x);
      AppRunSteady(g.e, t, react, y.sock, x);
      SteadyLink(g, Tail(y).(s := t), u, x);
      SteadyMade(g.e, t, u, y.sock, x);
      SignalSteady(g.e, u, y.sock, WsEvent(x, Opened), y.sock, x);
      SteadyLink(g, Tail(y).(s := u), SendEncrypted(g.e, u, y.sock, WsEvent(x, Opened)), x);
    }
  }

  // ---- the client's next message ----

  /** What the client asks to connect is not made yet. */
  lemma {:induction false} TakesEnabled(g: Setting, y: Sys, react: seq<AppAction>)
    requires Inv(g, y) && Can(g, y, ServerReads(react))
    ensures Enabled(g.e, y.s, Control(y.sock, Head(y).wire, react))
  {
    if Openable(g.e, y.s, y.sock, Head(y).wire) {
      OpensToPlain(g, y);
      hide OpenEnvelope, KeyInv, RegistryOk;
      var m := Head(y).plain.value;
      if m.WsConnect? {
        assert LinkOk(LinkOf(y, m.conn));
        TakeOn(y, m.conn);
      }
    }
  }

  /** A key is installed, or nothing happens. */
  lemma {:induction false} UnopenedLink(g: Setting, y: Sys, x: ConnId, react: seq<AppAction>)
    requires KeyInv(g, y) && Can(g, y, ServerReads(react)) && x in y.k.mocks && LinkOk(LinkOf(y, x))
    requires !Openable(g.e, y.s, y.sock, Head(y).wire)
    ensures LinkOk(LinkOf(Tail(y).(s := HandleControl(g.e, y.s, y.sock, Head(y).wire, react)), x))
  {
    var t := HandleControl(g.e, y.s, y.sock, Head(y).wire, react);
    Gated(g.e, y.s, y.sock, Head(y).wire, react);
    hide HandleControl, Openable, KeyInv, LinkOk;
    if CarriesPayload(Head(y), x) && MadeOn(y.s, y.sock, x) {
      PayloadOpens(g, y, x);
    } else {
      SkipsLink(y, x);
      InstalledLink(Tail(y), t, x);
    }
  }

  lemma {:induction false} InstalledLink(y: Sys, t: Server, x: ConnId)
    requires x in y.k.mocks && LinkOk(LinkOf(y, x)) && t.(keys := y.s.keys) == y.s
    requires (y.sock in y.s.keys ==> y.sock in t.keys)
    ensures LinkOk(LinkOf(y.(s := t), x))
  {
    hide Data, Requested, Delivered, SentByApp, From, Mentions;
    assert LinkOf(y.(s := t), x) == LinkOf(y, x).(keyed := y.sock in t.keys);
  }

  lemma {:induction false} SteadyHome(e: Env, s: Server, t: Server, sock: Sock, x: ConnId)
    requires Steady.Steady(e, s, t, sock, x)
    ensures MadeOn(t, sock, x) <==> MadeOn(s, sock, x)
  {
    hide Balanced, Delivered, Hears;
  }

  lemma {:induction false} DispatchLink(g: Setting, y: Sys, m: Msg, react: seq<AppAction>, x: ConnId)
    requires LawfulEnv(g.e) && KeyInv(g, y) && RegistryOk(y.s) && Can(g, y, ServerReads(react)) && y.sock in y.s.keys
    requires Head(y).plain == Some(m) && (m.WsConnect? ==> m.conn !in y.s.made) && x in y.k.mocks
    requires LinkOk(LinkOf(y, x))
    ensures LinkOk(LinkOf(Tail(y).(s := Dispatch(g.e, y.s, y.sock, m, react)), x))
  {
    hide LinkOf, LinkOk, RegistryOk, HandleConnect, HandleMessage, Steady.Steady, OpenEnvelope;
    if !Addresses(m, x) || (m.WsMessage? && !MadeOn(y.s, y.sock, x)) {
      assert Basics(y);
      hide KeyInv, Dispatch;
      var t := Dispatch(g.e, y.s, y.sock, m, react);
      DispatchSteady(g.e, y.s, y.sock, m, react, y.sock, x);
      SteadyLink(g, y, t, x);
      SteadyHome(g.e, y.s, t, y.sock, x);
      SkipsLink(y.(s := t), x);
    } else if m.WsConnect? {
      ConnectLink(g, y, x, react);
    } else {
      MessageLink(g, y, x, m.data, react);
    }
  }

  lemma {:induction false} TakesLink(g: Setting, y: Sys, react: seq<AppAction>, x: ConnId)
    requires LawfulEnv(g.e) && KeyInv(g, y) && RegistryOk(y.s) && Can(g, y, ServerReads(react)) && x in y.k.mocks
    requires LinkOk(LinkOf(y, x))
    requires Enabled(g.e, y.s, Control(y.sock, Head(y).wire, react))
    ensures LinkOk(LinkOf(Do(g, y, ServerReads(react)), x))
  {
    hide LinkOf, LinkOk, RegistryOk, Dispatch, OpenEnvelope, KeyInv;
    if Openable(g.e, y.s, y.sock, Head(y).wire) {
      OpensToPlain(g, y);
      DispatchLink(g, y, Head(y).plain.value, react, x);
    } else {
      UnopenedLink(g, y, x, react);
    }
  }

  // ---- control sockets ----

  /** Another control socket is attached. */
  lemma {:induction false} OtherAttachLink(y: Sys, t: Server, x: ConnId)
    requires x in y.k.mocks && LinkOk(LinkOf(y, x))
    requires Out(t, y.sock) == Sent(y) && t.keys == y.s.keys && (y.sock in t.open <==> y.sock in y.s.open)
    requires x in y.s.made ==> (y.s.made[x] in t.open <==> y.s.made[x] in y.s.open)
    requires t.sockets == y.s.sockets && t.mocks == y.s.mocks && t.made == y.s.made && t.app == y.s.app
    ensures LinkOk(LinkOf(y.(s := t), x))
  {
    hide Out, Data, Requested, Delivered, SentByApp, From, Mentions, LinkOk;
    assert LinkOf(y.(s := t), x) == LinkOf(y, x);
  }

  /** A new control connection starts with empty channels. */
  lemma {:induction false} ConnectsLinkOk(l: Link, l': Link)
    requires LinkOk(l) && !l'.here && !l'.hears && !l'.mentioned
    requires l' == l.(ws := Connecting, requested := 0, here := false, hears := false,
                      live := l'.live, keyed := l'.keyed, mentioned := false, underway := [], coming := [])
    ensures LinkOk(l')
  {
  }

  /** Nothing about any connection is in the channels of a new control connection. */
  lemma {:induction false} FreshChannels(g: Setting, y: Sys, a: Action, x: ConnId)
    requires IdentityOk(g, y.s) && Can(g, y, a) && a.Connects?
    ensures var y' := Do(g, y, a);
            && Requested(From(y'.k.out, 0), x) == 0 && Data(From(y'.k.out, 0), x) == []
            && Data(From(Sent(y'), 0), x) == [] && !Mentions(From(Sent(y'), 0), x)
  {
    AttachIdentity(g, y.s, a.sock, a.secret, a.fetched);
    hide Attach, IdentityOk;
    var y' := Do(g, y, a);
    assert From(y'.k.out, 0) == [] && From(Sent(y'), 0) == Sent(y');
    if Sent(y') != [] {
      DataOne(Sent(y')[0], x);
    }
  }

  /** A connection that was made before is not at home at a new socket. */
  lemma {:induction false} NotAtHome(g: Setting, y: Sys, t: Server, sock: Sock, x: ConnId)
    requires RegistryOk(y.s) && y.sock !in y.s.open && !MadeElsewhere(y.s, y.sock, x)
    requires t.sockets == y.s.sockets && t.mocks == y.s.mocks && t.made == y.s.made && t.open <= y.s.open + {sock}
    requires x in y.s.made ==> y.s.made[x] != sock
    ensures !MadeOn(t, sock, x) && !MadeElsewhere(t, sock, x) && !Hears(t, sock, x)
  {
    assert x in y.s.sockets ==> SocketOk(y.s, x) && MockOk(y.s, y.s.sockets[x].mock);
  }

  lemma {:induction false} IsNotElsewhere(y: Sys, x: ConnId)
    requires x in y.k.mocks && LinkOk(LinkOf(y, x))
    ensures !MadeElsewhere(y.s, y.sock, x)
  {
    hide Out, Data, Requested, Delivered, SentByApp, Hears, From, Mentions;
  }

  lemma {:induction false} ConnectsLink(g: Setting, y: Sys, a: Action, x: ConnId)
    requires IdentityOk(g, y.s) && RegistryOk(y.s) && Can(g, y, a) && a.Connects? && x in y.k.mocks
    requires LinkOk(LinkOf(y, x)) && (x in y.s.made ==> y.s.made[x] != a.sock)
    ensures LinkOk(LinkOf(Do(g, y, a), x))
  {
    hide Attach, Out, Data, Requested, Delivered, SentByApp, From, Mentions, LinkOk, RegistryOk, IdentityOk, Hears,
         MadeOn, MadeElsewhere;
    FreshChannels(g, y, a, x);
    AttachFrame(g.e, y.s, a.sock, a.secret, a.fetched);
    IsNotElsewhere(y, x);
    NotAtHome(g, y, Attach(g.e, y.s, a.sock, a.secret, a.fetched), a.sock, x);
    ConnectsLinkOk(LinkOf(y, x), LinkOf(Do(g, y, a), x));
  }
}
