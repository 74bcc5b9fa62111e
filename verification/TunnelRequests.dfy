/** The HTTP requests of the client arrive at the server application: each once, and in order. */
module TunnelRequests {
  import opened Bytes
  import opened Crypto
  import opened Messages
  import opened ServerSide
  import opened ServerTheorems
  import opened Ownership
  import opened ClientSide
  import opened Tunnel
  import opened TunnelKeys
  import opened TunnelOrder
  import opened TunnelServes
  import opened TunnelTheorems

  /** The requests among the messages, in order. */
  function Asked(items: seq<Item>): seq<ReqId> {
    if items == [] then []
    else
      var p := items[|items| - 1].plain;
      Asked(items[..|items| - 1]) + if p.Some? && p.value.HttpRequest? then [p.value.req] else []
  }

  /** The requests that the application received over a control socket, in order. */
  function Got(app: seq<AppEvent>, sock: Sock): seq<ReqId> {
    if app == [] then []
    else
      var e := app[|app| - 1];
      Got(app[..|app| - 1], sock) + if e.GotRequest? && e.via == sock then [e.req] else []
  }

  lemma {:induction false} AskedConcat(a: seq<Item>, b: seq<Item>)
    ensures Asked(a + b) == Asked(a) + Asked(b)
    decreases |b|
  {
    if b == [] {
      assert a + b == a;
    } else {
      assert (a + b)[..|a + b| - 1] == a + b[..|b| - 1];
      AskedConcat(a, b[..|b| - 1]);
    }
  }

  lemma {:induction false} AskedHead(items: seq<Item>, n: nat)
    requires n < |items|
    ensures var p := items[n].plain;
            Asked(From(items, n))
            == (if p.Some? && p.value.HttpRequest? then [p.value.req] else []) + Asked(From(items, n + 1))
  {
    assert From(items, n) == [items[n]] + From(items, n + 1);
    AskedConcat([items[n]], From(items, n + 1));
    assert [items[n]][..0] == [];
  }

  lemma {:induction false} AskedGrows(items: seq<Item>, more: seq<Item>, n: nat)
    requires n <= |items|
    ensures Asked(From(items + more, n)) == Asked(From(items, n)) + Asked(more)
  {
    assert From(items + more, n) == From(items, n) + more;
    AskedConcat(From(items, n), more);
  }

  // ---- what the log gets ----

  lemma {:induction false} GotOne(app: seq<AppEvent>, e: AppEvent, sock: Sock)
    ensures Got(app + [e], sock) == Got(app, sock) + if e.GotRequest? && e.via == sock then [e.req] else []
  {
    assert (app + [e])[..|app|] == app;
  }

  lemma {:induction false} GotSame(app: seq<AppEvent>, longer: seq<AppEvent>, sock: Sock)
    requires app <= longer
    requires forall i :: |app| <= i < |longer| ==> !(longer[i].GotRequest? && longer[i].via == sock)
    ensures Got(longer, sock) == Got(app, sock)
    decreases |longer|
  {
    if |longer| > |app| {
      GotSame(app, longer[..|longer| - 1], sock);
    } else {
      assert longer == app;
    }
  }

  lemma {:induction false} LogGot(s: Server, t: Server, first: Option<AppEvent>, sock: Sock)
    requires LogGrows(s, t, first)
    requires first.Some? ==> !(first.value.GotRequest? && first.value.via == sock)
    ensures Got(t.app, sock) == Got(s.app, sock)
  {
    GotSame(s.app, t.app, sock);
  }

  /** Requests come over sockets that were announced to. */
  ghost predicate ViaKnown(s: Server) {
    forall i :: 0 <= i < |s.app| && s.app[i].GotRequest? ==> s.app[i].via in s.out
  }

  lemma {:induction false} ViaStep(e: Env, s: Server, step: ServerTheorems.Step)
    requires RegistryOk(s) && Housed(s) && Enabled(e, s, step) && ViaKnown(s)
    ensures ViaKnown(Next(e, s, step))
  {
    StepLog(e, s, step);
    KeyStep(e, s, step, 0);
    hide Next, RegistryOk;
    var t, m := Next(e, s, step), Presented(e, s, step);
    forall i | 0 <= i < |t.app| && t.app[i].GotRequest?
      ensures t.app[i].via in t.out
    {
      if i < |s.app| {
        assert t.app[i] == s.app[i];
      }
    }
  }

  lemma {:induction false} NeverGot(s: Server, sock: Sock)
    requires ViaKnown(s) && sock !in s.out
    ensures Got(s.app, sock) == []
  {
    GotSame([], s.app, sock);
  }

  // ---- the client sends its key once ----

  /** The key was handed over at the very start of the session. */
  predicate KxFirst(k: Client) {
    forall i :: 0 <= i < |k.out| && k.out[i].wire.ClientKx? ==> k.session.Some? && i == k.since
  }

  /** The client goes on with its session, and what it sends is no key. */
  predicate Adds(k: Client, t: Client) {
    && t.session == k.session && t.since == k.since && k.out <= t.out
    && forall i :: |k.out| <= i < |t.out| ==> !t.out[i].wire.ClientKx?
  }

  lemma {:induction false} AddsTwice(k: Client, t: Client, u: Client)
    requires Adds(k, t) && Adds(t, u)
    ensures Adds(k, u)
  {
    forall i | |k.out| <= i < |u.out|
      ensures !u.out[i].wire.ClientKx?
    {
      if i < |t.out| {
        assert u.out[i] == t.out[i];
      }
    }
  }

  lemma {:induction false} AddsFirst(k: Client, t: Client)
    requires Adds(k, t) && KxFirst(k)
    ensures KxFirst(t)
  {
    forall i | 0 <= i < |t.out| && t.out[i].wire.ClientKx?
      ensures t.session.Some? && i == t.since
    {
      assert i < |k.out| ==> t.out[i] == k.out[i];
    }
  }

  lemma {:induction false} SendAdds(e: Env, k: Client, m: Msg)
    ensures Adds(k, TrySend(e, k, m))
  {
  }

  lemma {:induction false} FlushAdds(e: Env, k: Client, x: ConnId, queue: seq<Payload>)
    ensures Adds(k, Flush(e, k, x, queue))
    decreases |queue|
  {
    if queue != [] {
      hide Adds, TrySend;
      var t := Flush(e, k, x, queue[..|queue| - 1]);
      FlushAdds(e, k, x, queue[..|queue| - 1]);
      SendAdds(e, t, WsMessage(x, queue[|queue| - 1]));
      AddsTwice(k, t, Flush(e, k, x, queue));
    }
  }

  lemma {:induction false} SameAdds(k: Client, t: Client)
    requires t.session == k.session && t.since == k.since && t.out == k.out
    ensures Adds(k, t)
  {
  }

  lemma {:induction false} AlikeAdds(k: Client, k1: Client, t: Client, t1: Client)
    requires Adds(k1, t1) && k1.session == k.session && k1.since == k.since && k1.out == k.out
    requires t1.session == t.session && t1.since == t.since && t1.out == t.out
    ensures Adds(k, t)
  {
  }

  lemma {:induction false} PlainAdds(e: Env, k: Client, m: Msg)
    ensures Adds(k, HandlePlain(e, k, m))
  {
    hide Adds, Flush;
    if m.WsEvent? && m.event == Opened && m.conn in k.registered && m.conn in k.mocks {
      var c := k.mocks[m.conn];
      var k1 := Set(k, m.conn, c.(state := Open, queue := []));
      FlushAdds(e, k1, m.conn, c.queue);
      AlikeAdds(k, k1, HandlePlain(e, k, m), HandlePlain(e, k, m));
    } else {
      SameAdds(k, HandlePlain(e, k, m));
    }
  }

  lemma {:induction false} ActAdds(g: Setting, k: Client, act: ClientAction)
    requires Known(k, act)
    ensures Adds(k, Act(g, k, act))
  {
    hide Adds, TrySend;
    var t := Act(g, k, act);
    match act
    case NewConnection(x) =>
      SameAdds(k, t);
    case AsksFor(x, portMatches) =>
      var k1 := Set(k, x, k.mocks[x].(asked := true));
      SameAdds(k, k1);
      SendAdds(g.e, k1, WsConnect(x));
      AddsTwice(k, k1, TrySend(g.e, k1, WsConnect(x)));
    case Sends(x, data) =>
      SameAdds(k, k);
      var k1 := Set(k, x, k.mocks[x].(sent := k.mocks[x].sent + [data]));
      SendAdds(g.e, k1, WsMessage(x, data));
      SameAdds(k, k1);
      AddsTwice(k, k1, TrySend(g.e, k1, WsMessage(x, data)));
      if k.mocks[x].state == Connecting {
        SameAdds(k, t);
      }
    case Closes(x) =>
      SameAdds(k, k);
      var k1 := Set(k, x, k.mocks[x].(state := Closing));
      SendAdds(g.e, k1, WsClose(x));
      AlikeAdds(k, k1, TrySend(g.e, k1, WsClose(x)), TrySend(g.e, k1, WsClose(x)));
      if k.mocks[x].state != Closing && k.mocks[x].state != Closed {
        AlikeAdds(k, k1, t, TrySend(g.e, k1, WsClose(x)));
      }
    case Requests(req, content) =>
      SendAdds(g.e, k, HttpRequest(req, content));
  }

  lemma {:induction false} ChangeAdds(k: Client, change: Change)
    ensures Adds(k, Changed(k, change)) && Adds(k, CloseHandled(k))
  {
  }

  // ---- requests ----

  /**
   Nothing was received before the session; what was received is a prefix of what was asked in it, and with
   a key at the server the rest is in flight.
   */
  predicate RequestsOk(y: Sys) {
    var got := Got(y.s.app, y.sock);
    && (y.k.session.None? ==> got == [])
    && (y.k.session.Some? ==> got <= Asked(From(y.k.out, y.k.since)))
    && (y.sock in y.s.open && y.sock !in y.s.keys ==> got == [])
    && (y.sock in y.s.keys ==> got + Asked(From(y.k.out, y.taken)) == Asked(From(y.k.out, y.k.since)))
  }

  ghost predicate Orderly(y: Sys) {
    RequestsOk(y) && KxFirst(y.k) && ViaKnown(y.s)
  }

  /** The client sends more. */
  lemma {:induction false} MoreAsked(y: Sys, z: Sys, more: seq<Item>)
    requires RequestsOk(y) && z.s == y.s && z.sock == y.sock && z.taken == y.taken <= |y.k.out|
    requires z.k.out == y.k.out + more && z.k.session == y.k.session && z.k.since == y.k.since
    requires y.k.session.Some? ==> y.k.since <= |y.k.out|
    requires y.sock in y.s.keys ==> y.k.session.Some?
    ensures RequestsOk(z)
  {
    hide Got, Asked, From;
    AskedGrows(y.k.out, more, y.taken);
    if y.k.session.Some? {
      AskedGrows(y.k.out, more, y.k.since);
    }
  }

  lemma {:induction false} ClientAsks(y: Sys, z: Sys)
    requires Orderly(y) && Adds(y.k, z.k) && z.s == y.s && z.sock == y.sock && z.taken == y.taken <= |y.k.out|
    requires y.k.session.Some? ==> y.k.since <= |y.k.out|
    requires y.sock in y.s.keys ==> y.k.session.Some?
    ensures Orderly(z)
  {
    hide RequestsOk, KxFirst, ViaKnown;
    AddsFirst(y.k, z.k);
    var more := z.k.out[|y.k.out|..];
    assert z.k.out == y.k.out + more;
    MoreAsked(y, z, more);
  }

  /** The server does something else. */
  lemma {:induction false} ElsewhereAsks(y: Sys, z: Sys)
    requires RequestsOk(y) && z.k == y.k && z.sock == y.sock && z.taken == y.taken
    requires Got(z.s.app, y.sock) == Got(y.s.app, y.sock)
    requires y.sock in z.s.keys ==> y.sock in y.s.keys
    requires y.sock in z.s.open && y.sock in y.s.keys ==> y.sock in z.s.keys
    requires y.sock in z.s.open ==> y.sock in y.s.open
    ensures RequestsOk(z)
  {
  }

  lemma {:induction false} ForeignKeysStay(e: Env, s: Server, step: ServerTheorems.Step, sock: Sock)
    requires RegistryOk(s) && Enabled(e, s, step) && (step.Attaches? || step.Control? ==> step.sock != sock)
    ensures sock in Next(e, s, step).keys ==> sock in s.keys
    ensures sock in Next(e, s, step).open ==> sock in s.open
  {
    RegistrySettled(s);
    hide AppRun, Dispatch, RetireEach, BoxSealOpen, OpenEnvelope, RegistryOk, Attach, QuietLog, MockEvolves;
    match step
    case Attaches(via, secret, fetched) =>
      AttachFrame(e, s, via, secret, fetched);
    case Control(via, w, react) =>
      if Openable(e, s, via, w) {
        DispatchKeepsKeys(e, s, via, OpenEnvelope(e, s.keys[via], w).value, react);
      } else {
        Gated(e, s, via, w, react);
      }
    case AppActs(script) =>
      AppRunEvolves(e, s, script);
    case Closes(via, order, callbacks) =>
      ForgetOk(s, via);
      RetireEachEvolves(e, Forget(s, via), via, order, callbacks);
    case _ =>
  }

  lemma {:induction false} ForeignStepLog(e: Env, s: Server, step: ServerTheorems.Step, sock: Sock)
    requires RegistryOk(s) && Enabled(e, s, step) && (step.Control? ==> step.sock != sock)
    ensures Got(Next(e, s, step).app, sock) == Got(s.app, sock)
  {
    StepLog(e, s, step);
    hide Next, RegistryOk, Enabled, LogGrows;
    var m := Presented(e, s, step);
    LogGot(s, Next(e, s, step), if m.Some? then Brought(s, step.sock, m.value) else None, sock);
  }

  lemma {:induction false} ForeignAsks(g: Setting, y: Sys, step: ServerTheorems.Step)
    requires Inv(g, y) && Orderly(y) && Enabled(g.e, y.s, step) && Foreign(g, y, step)
    ensures Orderly(y.(s := Next(g.e, y.s, step)))
  {
    ForeignIsElsewhere(g, y, step);
    hide KeyInv, LinkOk, LinkOf, RegistryOk, Housed, Enabled, Foreign, Next, RequestsOk, KxFirst;
    ViaStep(g.e, y.s, step);
    ForeignStepLog(g.e, y.s, step, y.sock);
    ForeignKeysStay(g.e, y.s, step, y.sock);
    HousedOpen(y.s);
    KeyStep(g.e, y.s, step, y.sock);
    ElsewhereAsks(y, y.(s := Next(g.e, y.s, step)));
  }

  lemma {:induction false} HousedOpen(s: Server)
    requires Housed(s)
    ensures s.open <= s.out.Keys
  {
  }

  lemma {:induction false} ForeignIsElsewhere(g: Setting, y: Sys, step: ServerTheorems.Step)
    requires Foreign(g, y, step)
    ensures step.Attaches? || step.Control? ==> step.sock != y.sock
  {
  }

  // ---- the server handles the next message ----

  /** An envelope of the session opens at the server: a message that does not open is no request. */
  lemma {:induction false} UnopenedIsNoRequest(g: Setting, y: Sys)
    requires KeyInv(g, y) && y.taken < |y.k.out| && y.sock in y.s.keys
    requires !Openable(g.e, y.s, y.sock, Head(y).wire)
    ensures Head(y).plain.None?
  {
    assert FromClient(g, y.k, y.s, Head(y), Early(y.k, y.taken));
    hide BoxSealOpen, OpenEnvelope;
  }

  lemma {:induction false} OpenedAsks(g: Setting, y: Sys, react: seq<AppAction>)
    requires Inv(g, y) && Orderly(y) && Can(g, y, ServerReads(react))
    requires Openable(g.e, y.s, y.sock, Head(y).wire)
    ensures var t := HandleControl(g.e, y.s, y.sock, Head(y).wire, react); var p := Head(y).plain;
            && t.keys == y.s.keys && t.open == y.s.open && p.Some?
            && Got(t.app, y.sock)
               == Got(y.s.app, y.sock) + if p.value.HttpRequest? then [p.value.req] else []
  {
    assert KeyInv(g, y) && RegistryOk(y.s);
    hide Inv, KeyInv, RegistryOk, Dispatch, OpenEnvelope, BoxSealOpen, Settled, LogGrows, Orderly, Got;
    OpensToPlain(g, y);
    RegistrySettled(y.s);
    var m := Head(y).plain.value;
    DispatchKeepsKeys(g.e, y.s, y.sock, m, react);
    if m.HttpRequest? {
      RequestLogged(g.e, y.s, y.sock, m, react);
      GotOne(y.s.app, GotRequest(y.sock, m.req), y.sock);
    } else {
      DispatchLog(g.e, y.s, y.sock, m, react);
      LogGot(y.s, Dispatch(g.e, y.s, y.sock, m, react), Brought(y.s, y.sock, m), y.sock);
    }
  }

  lemma {:induction false} RequestLogged(e: Env, s: Server, sock: Sock, m: Msg, react: seq<AppAction>)
    requires m.HttpRequest?
    ensures Dispatch(e, s, sock, m, react).app == s.app + [GotRequest(sock, m.req)]
  {
  }

  lemma {:induction false} TakesAsks(g: Setting, y: Sys, react: seq<AppAction>)
    requires Inv(g, y) && Orderly(y) && Can(g, y, ServerReads(react)) && KeyInv(g, Do(g, y, ServerReads(react)))
    ensures RequestsOk(Do(g, y, ServerReads(react)))
  {
    var z := Do(g, y, ServerReads(react));
    assert KeyInv(g, y);
    hide KeyInv, Inv, HandleControl, RequestsOk, KxFirst, ViaKnown, Openable;
    if Openable(g.e, y.s, y.sock, Head(y).wire) {
      OpenedTaken(g, y, z, react);
    } else {
      UnopenedAsks(g, y, z, react);
    }
  }

  lemma {:induction false} OpenedTaken(g: Setting, y: Sys, z: Sys, react: seq<AppAction>)
    requires Inv(g, y) && Orderly(y) && Can(g, y, ServerReads(react)) && Openable(g.e, y.s, y.sock, Head(y).wire)
    requires z == y.(s := HandleControl(g.e, y.s, y.sock, Head(y).wire, react), taken := y.taken + 1)
    ensures RequestsOk(z)
  {
    assert KeyInv(g, y);
    hide KeyInv, Inv, HandleControl, RequestsOk, KxFirst, ViaKnown, OpenEnvelope, Got, Asked, From;
    InRange(g, y);
    AskedHead(y.k.out, y.taken);
    OpenedAsks(g, y, react);
    TakenOk(y, z);
  }

  lemma {:induction false} UnopenedAsks(g: Setting, y: Sys, z: Sys, react: seq<AppAction>)
    requires KeyInv(g, y) && KeyInv(g, z) && RequestsOk(y) && KxFirst(y.k) && y.taken < |y.k.out|
    requires y.sock in y.s.open && !Openable(g.e, y.s, y.sock, Head(y).wire)
    requires z == y.(s := HandleControl(g.e, y.s, y.sock, Head(y).wire, react), taken := y.taken + 1)
    ensures RequestsOk(z)
  {
    hide LinkOk, LinkOf, RegistryOk, Housed, Got, Asked, From, ViaKnown, OpenEnvelope, KeyInv, BoxSealOpen, Dispatch;
    AskedHead(y.k.out, y.taken);
    Gated(g.e, y.s, y.sock, Head(y).wire, react);
    if y.sock in y.s.keys {
      UnopenedIsNoRequest(g, y);
    } else if y.sock in z.s.keys {
      Installed(g, y, z);
    }
  }

  /** One more message was handled, and it was received if it was a request. */
  lemma {:induction false} TakenOk(y: Sys, z: Sys)
    requires RequestsOk(y) && y.taken < |y.k.out| && z.k == y.k && z.sock == y.sock && z.taken == y.taken + 1
    requires y.sock in y.s.keys && z.s.keys == y.s.keys && z.s.open == y.s.open
    requires y.k.session.Some?
    requires var p := y.k.out[y.taken].plain;
             && Asked(From(y.k.out, y.taken))
                == (if p.Some? && p.value.HttpRequest? then [p.value.req] else []) + Asked(From(y.k.out, z.taken))
             && Got(z.s.app, y.sock)
                == Got(y.s.app, y.sock) + (if p.Some? && p.value.HttpRequest? then [p.value.req] else [])
    ensures RequestsOk(z)
  {
    hide Got, Asked, From;
  }

  /** The key that is installed was sent before anything else of the session. */
  lemma {:induction false} Installed(g: Setting, y: Sys, z: Sys)
    requires KeyInv(g, y) && KeyInv(g, z) && KxFirst(y.k) && y.taken < |y.k.out|
    requires y.sock !in y.s.keys && y.sock in z.s.keys && z.k == y.k && z.sock == y.sock && z.taken == y.taken + 1
    requires Head(y).wire.ClientKx?
    ensures y.k.session.Some? && y.k.since == y.taken && Head(y).plain.None?
  {
    assert FromClient(g, y.k, y.s, Head(y), Early(y.k, y.taken));
    hide BoxSealOpen, OpenEnvelope, ClientItems, IdentityOk, Announced, SessionOk;
  }

  lemma {:induction false} ServerReadsAsks(g: Setting, y: Sys, react: seq<AppAction>)
    requires LawfulEnv(g.e) && Inv(g, y) && Orderly(y) && Can(g, y, ServerReads(react))
    ensures Orderly(Do(g, y, ServerReads(react)))
  {
    StepKeeps(g, y, ServerReads(react));
    TakesEnabled(g, y, react);
    assert KeyInv(g, Do(g, y, ServerReads(react)));
    hide KeyInv, LinkOk, LinkOf, RegistryOk, Housed, HandleControl, RequestsOk, KxFirst, Enabled, LawfulEnv, ViaKnown;
    TakesAsks(g, y, react);
    ViaStep(g.e, y.s, Control(y.sock, Head(y).wire, react));
  }

  // ---- the client reads ----

  lemma {:induction false} KxKeepsFirst(g: Setting, k: Client, w: Wire, key: seq<byte>, ephemeral: seq<byte>)
    requires KxFirst(k) && k.session.None? && w.ServerKx?
    ensures var t := ClientHandles(g, k, w, key, ephemeral);
            && KxFirst(t) && k.out <= t.out && (t.session.Some? ==> t.since == |k.out|)
            && (t.session.None? ==> t.out == k.out)
  {
    hide BoxSeal, EarlyChecks, LateChecks;
  }

  lemma {:induction false} NoSessionYet(g: Setting, y: Sys)
    requires KeyInv(g, y) && y.read == 0 < |Sent(y)|
    ensures y.k.session.None? && y.sock !in y.s.keys && Sent(y)[0].wire.ServerKx?
  {
    hide FromServer, ClientItems, IdentityOk, SessionOk;
  }

  lemma {:induction false} AnnouncementAsks(g: Setting, y: Sys, key: seq<byte>, ephemeral: seq<byte>)
    requires KeyInv(g, y) && Orderly(y) && y.read == 0 < |Sent(y)|
    ensures Orderly(y.(k := ClientHandles(g, y.k, Sent(y)[0].wire, key, ephemeral), read := 1))
  {
    NoSessionYet(g, y);
    hide KeyInv, Got, Asked, From, Out, ClientHandles, KxFirst;
    KxKeepsFirst(g, y.k, Sent(y)[0].wire, key, ephemeral);
  }

  lemma {:induction false} ReadsAsks(g: Setting, y: Sys, key: seq<byte>, ephemeral: seq<byte>)
    requires LawfulEnv(g.e) && KeyInv(g, y) && Orderly(y) && Can(g, y, ClientReads(key, ephemeral))
    ensures Orderly(Do(g, y, ClientReads(key, ephemeral)))
  {
    hide Orderly, HandlePlain, ClientHandles, Out, Adds, LawfulEnv;
    if y.read == 0 {
      hide KeyInv;
      AnnouncementAsks(g, y, key, ephemeral);
    } else {
      LaterHandles(g, y, key, ephemeral);
      var k1 := HandlePlain(g.e, y.k, Sent(y)[y.read].plain.value);
      PlainAdds(g.e, y.k, Sent(y)[y.read].plain.value);
      SameAdds(y.k, y.k);
      ClientAsks(y, Do(g, y, ClientReads(key, ephemeral)));
    }
  }

  lemma {:induction false} ConnectsAsks(g: Setting, y: Sys, a: Action)
    requires Housed(y.s) && RegistryOk(y.s) && Orderly(y) && Can(g, y, a) && a.Connects?
    ensures Orderly(Do(g, y, a))
  {
    var step := Attaches(a.sock, a.secret, a.fetched);
    NeverGot(y.s, a.sock);
    ViaStep(g.e, y.s, step);
    AttachFrame(g.e, y.s, a.sock, a.secret, a.fetched);
    hide Attach, RegistryOk, Housed, Got, Asked;
  }

  /** The cursors are in range, and a key at the server is that of the session. */
  lemma {:induction false} InRange(g: Setting, y: Sys)
    requires KeyInv(g, y)
    ensures y.taken <= |y.k.out| && (y.k.session.Some? ==> y.k.since <= |y.k.out|)
    ensures y.sock in y.s.keys ==> y.k.session.Some?
  {
    hide ClientItems, IdentityOk, Announced, Out;
  }

  lemma {:induction false} StepAsks(g: Setting, y: Sys, a: Action)
    requires LawfulEnv(g.e) && Inv(g, y) && Orderly(y) && Can(g, y, a)
    ensures Orderly(Do(g, y, a))
  {
    assert KeyInv(g, y) && Housed(y.s) && RegistryOk(y.s);
    hide Inv, KeyInv, Act, Changed, CloseHandled, ClientHandles, HandleControl, Next, Attach, Enabled, Foreign, Unused,
         Out, LawfulEnv, Orderly, Adds, Housed, RegistryOk;
    InRange(g, y);
    match a
    case Acts(act) =>
      ActAdds(g, y.k, act);
      ClientAsks(y, Do(g, y, a));
    case Changes(change) =>
      ChangeAdds(y.k, change);
      ClientAsks(y, Do(g, y, a));
    case StaleCloses =>
      ChangeAdds(y.k, Goes);
      ClientAsks(y, Do(g, y, a));
    case ClientReads(key, ephemeral) => ReadsAsks(g, y, key, ephemeral);
    case ServerReads(react) => ServerReadsAsks(g, y, react);
    case ServerActs(step) => ForeignAsks(g, y, step);
    case Connects(_, _, _) => ConnectsAsks(g, y, a);
  }

  lemma {:induction false} RunAsks(g: Setting, y: Sys, run: seq<Action>)
    requires LawfulEnv(g.e) && Inv(g, y) && Orderly(y) && Possible(g, y, run)
    ensures Orderly(Reached(g, y, run))
    decreases |run|
  {
    if run != [] {
      hide Inv, Do, Can, Orderly;
      StepAsks(g, y, run[0]);
      StepKeeps(g, y, run[0]);
      RunAsks(g, Do(g, y, run[0]), run[1..]);
    }
  }

  lemma {:induction false} StartOrderly(y: Sys)
    requires Start(y)
    ensures Orderly(y)
  {
  }

  /**
   Over every run, whatever other sockets do: the requests that the server application received over the
   client's control socket are, each once and in order, a prefix of those that the client sent since it
   generated the key; once the server has the key, the rest is in flight; and before the session there are none.
   */
  lemma {:induction false} RequestsInOrder(g: Setting, start: Sys, run: seq<Action>)
    requires LawfulEnv(g.e) && Start(start) && Possible(g, start, run)
    ensures var y := Reached(g, start, run);
            var got := Got(y.s.app, y.sock);
            && (y.k.session.None? ==> got == [])
            && (y.k.session.Some? ==> got <= Asked(From(y.k.out, y.k.since)))
            && (y.sock in y.s.keys ==> got + Asked(From(y.k.out, y.taken)) == Asked(From(y.k.out, y.k.since)))
  {
    StartInv(g, start);
    StartOrderly(start);
    hide Inv, Start, Possible, Reached, Got, Asked, From, KxFirst, ViaKnown;
    RunAsks(g, start, run);
  }

  /** What `fetch` asks for is among them: on an open socket with its key a request is sent, with its id. */
  lemma {:induction false} FetchAsks(g: Setting, y: Sys, req: ReqId, content: Payload)
    requires LawfulEnv(g.e) && KeyInv(g, y) && y.k.ws == Open && y.k.key.Some? && y.k.session.Some?
    ensures var z := Do(g, y, Acts(Requests(req, content)));
            Asked(From(z.k.out, z.k.since)) == Asked(From(y.k.out, y.k.since)) + [req]
  {
    InRange(g, y);
    assert SessionOk(y.k);
    SendSpec(g, y.k, HttpRequest(req, content));
    hide KeyInv, TrySend, OpenEnvelope;
    var it := TrySend(g.e, y.k, HttpRequest(req, content)).out[|y.k.out|];
    AskedGrows(y.k.out, [it], y.k.since);
    assert [it][..0] == [] && Asked([it]) == [req];
  }
}
