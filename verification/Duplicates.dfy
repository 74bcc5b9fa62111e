/** What becomes of the client set when connection ids are not fresh (tunnel/src/server.ts). */
module Duplicates {
  import opened Bytes
  import opened Crypto
  import opened Messages
  import opened ServerSide
  import opened ServerTheorems

  /** The clients that the application sees are mocks that `sockets` holds. */
  ghost predicate Inside(s: Server) {
    forall m :: m in s.clients ==> m < |s.mocks| && Registered(s, m)
  }

  lemma {:induction false} InsideEvolves(s: Server, t: Server)
    requires Inside(s) && AppEvolves(s, t)
    ensures Inside(t)
  {
    hide QuietLog;
    forall m | m in t.clients
      ensures m < |t.mocks| && Registered(t, m)
    {
      assert MockEvolves(s.mocks[m], t.mocks[m]);
    }
  }

  // ---- connecting ----

  /** A connect for an id in use puts a mock that is a client out of `sockets`. */
  predicate Displaces(s: Server, sock: Sock, conn: ConnId, react: seq<AppAction>) {
    && !(s.hono && sock !in s.contexts) && conn in s.sockets && s.sockets[conn].mock in s.clients && !ShutsDown(react)
  }

  lemma {:induction false} AddMockEntries(s: Server, sock: Sock, conn: ConnId)
    requires EntriesOk(s)
    ensures EntriesOk(AddMock(s, sock, conn))
  {
  }

  lemma {:induction false} AddMockInsideIff(s: Server, sock: Sock, conn: ConnId)
    requires EntriesOk(s) && Inside(s)
    ensures Inside(AddMock(s, sock, conn)) <==> !(conn in s.sockets && s.sockets[conn].mock in s.clients)
  {
    var t := AddMock(s, sock, conn);
    if conn in s.sockets && s.sockets[conn].mock in s.clients {
      assert s.sockets[conn].mock in t.clients && !Registered(t, s.sockets[conn].mock);
    } else {
      forall m | m in t.clients
        ensures m < |t.mocks| && Registered(t, m)
      {
        if m < |s.mocks| {
          assert Registered(s, m);
        }
      }
    }
  }

  /** A mock that was displaced stays outside, unless the client set is cleared. */
  lemma {:induction false} OutsideStays(s: Server, t: Server)
    requires !Inside(s) && AppEvolves(s, t) && t.clients == s.clients
    ensures !Inside(t)
  {
    hide QuietLog;
    var m :| m in s.clients && !(m < |s.mocks| && Registered(s, m));
    if m < |s.mocks| {
      assert MockEvolves(s.mocks[m], t.mocks[m]);
      assert !Registered(t, m);
    }
  }

  lemma {:induction false} ConnectInsideIff(e: Env, s: Server, sock: Sock, conn: ConnId, react: seq<AppAction>)
    requires EntriesOk(s) && Inside(s)
    ensures var t := HandleConnect(e, s, sock, conn, react);
            EntriesOk(t) && (Inside(t) <==> !Displaces(s, sock, conn, react))
  {
    hide SendEncrypted, AppRun, EntriesOk, Inside, AppEvolves;
    if s.hono && sock !in s.contexts {
      SendEvolves(e, s, sock, WsEvent(conn, Errored));
      EntriesEvolve(s, SendEncrypted(e, s, sock, WsEvent(conn, Errored)));
      InsideEvolves(s, SendEncrypted(e, s, sock, WsEvent(conn, Errored)));
    } else {
      var a := AddMock(s, sock, conn);
      var t := AppRun(e, a, react);
      var u := SendEncrypted(e, t, sock, WsEvent(conn, Opened));
      AddMockEntries(s, sock, conn);
      AddMockInsideIff(s, sock, conn);
      EntriesSettled(a);
      AppRunEvolves(e, a, react);
      EntriesEvolve(a, t);
      SendEvolves(e, t, sock, WsEvent(conn, Opened));
      EntriesEvolve(t, u);
      EvolvesTwice(a, t, u);
      RunFields(e, a, react);
      SendFrame(e, t, sock, WsEvent(conn, Opened));
      if Inside(a) {
        InsideEvolves(a, u);
      } else if ShutsDown(react) {
        NoClients(u);
      } else {
        OutsideStays(a, u);
      }
    }
  }

  lemma {:induction false} NoClients(s: Server)
    requires s.clients == {}
    ensures Inside(s)
  {
  }

  lemma {:induction false} EntriesSettled(s: Server)
    requires EntriesOk(s)
    ensures Settled(s)
  {
  }

  lemma {:induction false} SendEvolves(e: Env, s: Server, sock: Sock, m: Msg)
    ensures AppEvolves(s, SendEncrypted(e, s, sock, m))
  {
    hide SendEncrypted;
    SendFrame(e, s, sock, m);
  }

  // ---- the other steps ----

  /** Entries go whose mocks are no clients. */
  lemma {:induction false} DropInside(s: Server, gone: set<ConnId>)
    requires EntriesOk(s) && Inside(s)
    requires forall conn :: conn in gone && conn in s.sockets ==> s.sockets[conn].mock !in s.clients
    ensures EntriesOk(s.(sockets := s.sockets - gone)) && Inside(s.(sockets := s.sockets - gone))
  {
    var t := s.(sockets := s.sockets - gone);
    forall m | m in t.clients
      ensures m < |t.mocks| && Registered(t, m)
    {
      assert Registered(s, m);
    }
  }

  lemma {:induction false} DispatchInsideIff(e: Env, s: Server, sock: Sock, m: Msg, react: seq<AppAction>)
    requires EntriesOk(s) && Inside(s)
    ensures var t := Dispatch(e, s, sock, m, react);
            EntriesOk(t) && (Inside(t) <==> !(m.WsConnect? && Displaces(s, sock, m.conn, react)))
  {
    hide AppRun, HandleConnect, EntriesOk, Inside, AppEvolves, Retire;
    EntriesSettled(s);
    match m
    case HttpRequest(req, _) =>
      SameRegistry(s, Log(s, GotRequest(sock, req)));
    case WsConnect(conn) =>
      ConnectInsideIff(e, s, sock, conn, react);
    case WsMessage(conn, data) =>
      var l := Log(s, GotMessage(sock, conn, data));
      SameRegistry(s, l);
      EntriesSettled(l);
      AppRunEvolves(e, l, react);
      EntriesEvolve(l, AppRun(e, l, react));
      InsideEvolves(l, AppRun(e, l, react));
    case WsClose(conn) =>
      if conn in s.sockets {
        var t := Retire(e, s, s.sockets[conn].mock, react);
        RetireEvolves(e, s, s.sockets[conn].mock, react);
        EntriesEvolve(s, t);
        InsideEvolves(s, t);
        EvolvesFrame(s, t);
        DropInside(t, {conn});
      }
    case _ =>
  }

  lemma {:induction false} EvolvesFrame(s: Server, t: Server)
    requires AppEvolves(s, t)
    ensures t.sockets == s.sockets
  {
    hide QuietLog;
  }

  lemma {:induction false} SameRegistry(s: Server, t: Server)
    requires EntriesOk(s) && Inside(s) && t.sockets == s.sockets && t.clients == s.clients && t.mocks == s.mocks
    ensures EntriesOk(t) && Inside(t)
  {
    assert forall m :: m in s.clients ==> Registered(s, m) ==> m < |s.mocks| ==> Registered(t, m);
  }

  lemma {:induction false} ClosedInside(e: Env, s: Server, sock: Sock, order: seq<ConnId>, react: nat -> seq<AppAction>)
    requires EntriesOk(s) && Inside(s) && forall conn :: conn in Owned(s, sock) ==> conn in order
    ensures EntriesOk(ControlClosed(e, s, sock, order, react)) && Inside(ControlClosed(e, s, sock, order, react))
  {
    hide RetireEach, EntriesOk, Inside;
    var f := Forget(s, sock);
    SameRegistry(s, f);
    EntriesRetired(e, f, sock, order, react);
    var t := RetireEach(e, f, sock, order, react);
    EntriesEvolve(f, t);
    InsideEvolves(f, t);
    assert Owned(t, sock) == Owned(s, sock);
    DropInside(t, Owned(t, sock));
  }

  /** A step may happen, also for a connection id that is in use. */
  predicate MayHappen(s: Server, step: Step) {
    match step
    case Attaches(sock, _, _) => sock !in s.open && sock !in s.out && sock !in s.keys
    case Control(sock, _, _) => sock in s.open
    case Closes(sock, order, _) => forall conn :: conn in Owned(s, sock) ==> conn in order
    case SweepKeys(stale) => stale !! s.open
    case _ => true
  }

  predicate StepDisplaces(e: Env, s: Server, step: Step) {
    var m := Presented(e, s, step);
    m.Some? && m.value.WsConnect? && Displaces(s, step.sock, m.value.conn, step.react)
  }

  lemma {:induction false} StepInsideIff(e: Env, s: Server, step: Step)
    requires EntriesOk(s) && Inside(s) && MayHappen(s, step)
    ensures EntriesOk(Next(e, s, step)) && (Inside(Next(e, s, step)) <==> !StepDisplaces(e, s, step))
  {
    hide AppRun, Dispatch, ControlClosed, OpenEnvelope, EntriesOk, Inside, Attach, AppEvolves, BoxSealOpen, Displaces;
    match step
    case Attaches(sock, secret, fetched) =>
      AttachFrame(e, s, sock, secret, fetched);
      SameRegistry(s, Next(e, s, step));
    case Control(sock, w, react) =>
      if Openable(e, s, sock, w) {
        DispatchInsideIff(e, s, sock, OpenEnvelope(e, s.keys[sock], w).value, react);
      } else {
        Gated(e, s, sock, w, react);
        SameRegistry(s, Next(e, s, step));
      }
    case AppActs(script) =>
      EntriesSettled(s);
      AppRunEvolves(e, s, script);
      EntriesEvolve(s, AppRun(e, s, script));
      InsideEvolves(s, AppRun(e, s, script));
    case Closes(sock, order, callbacks) =>
      ClosedInside(e, s, sock, order, callbacks);
    case _ =>
      SameRegistry(s, Next(e, s, step));
  }

  // ---- whole runs ----

  predicate MayRun(e: Env, s: Server, run: seq<Step>)
    decreases |run|
  {
    run != [] ==> MayHappen(s, run[0]) && MayRun(e, Next(e, s, run[0]), run[1..])
  }

  /** In every state of the run the clients are inside. */
  ghost predicate AlwaysInside(e: Env, s: Server, run: seq<Step>)
    decreases |run|
  {
    Inside(s) && (run != [] ==> AlwaysInside(e, Next(e, s, run[0]), run[1..]))
  }

  predicate Displaced(e: Env, s: Server, run: seq<Step>)
    decreases |run|
  {
    run != [] && (StepDisplaces(e, s, run[0]) || Displaced(e, Next(e, s, run[0]), run[1..]))
  }

  /**
   Over every run, with any connection ids: `wss.clients` is contained in the mocks that `sockets`
   holds in every state, if and only if no connect is accepted for an id whose mock is a client, with
   a connection callback that does not close the whole mock server.
   */
  lemma {:induction false} AlwaysInsideIff(e: Env, s: Server, run: seq<Step>)
    requires EntriesOk(s) && Inside(s) && MayRun(e, s, run)
    ensures AlwaysInside(e, s, run) <==> !Displaced(e, s, run)
    decreases |run|
  {
    if run != [] {
      hide EntriesOk, Inside, Next, StepDisplaces, MayHappen;
      StepInsideIff(e, s, run[0]);
      if !StepDisplaces(e, s, run[0]) {
        AlwaysInsideIff(e, Next(e, s, run[0]), run[1..]);
      }
    }
  }

  /** A socket is attached and keyed, and the same envelope is handled on it twice. */
  function RepeatedConnect(sock: Sock, secret: seq<byte>, quote: seq<byte>, sealed: seq<byte>, w: Wire): seq<Step> {
    [Attaches(sock, secret, Some(quote)), Control(sock, ClientKx(sealed), []),
     Control(sock, w, []), Control(sock, w, [])]
  }

  lemma {:induction false} ConnectFields(e: Env, s: Server, sock: Sock, x: ConnId)
    requires !(s.hono && sock !in s.contexts)
    ensures var t := HandleConnect(e, s, sock, x, []);
            && x in t.sockets && t.sockets[x].mock in t.clients
            && t.hono == s.hono && t.contexts == s.contexts && t.keys == s.keys && t.open == s.open
  {
    hide SendEncrypted;
    var a := AddMock(s, sock, x);
    assert AppRun(e, a, []) == a;
    SendFrame(e, a, sock, WsEvent(x, Opened));
  }

  lemma {:induction false} AttachedAndKeyed(e: Env, s: Server, sock: Sock, secret: seq<byte>, quote: seq<byte>,
                                            key: seq<byte>, ephemeral: seq<byte>)
    requires LawfulEnv(e) && Initial(s) && |secret| == 32
    ensures var sealed := BoxSeal(e.suite, key, e.suite.publicKey(secret), ephemeral);
            && sealed.Some?
            && var a := Next(e, s, Attaches(sock, secret, Some(quote)));
               var t := Next(e, a, Control(sock, ClientKx(sealed.value), []));
               && sock in a.open && sock in t.open && sock in t.keys && t.keys[sock] == key
               && !(t.hono && sock !in t.contexts)
  {
    SealOpens(e.suite, key, secret, ephemeral);
    hide BoxSeal, BoxSealOpen, Dispatch, LawfulEnv;
  }

  lemma {:induction false} ControlOpens(e: Env, s: Server, sock: Sock, w: Wire, m: Msg)
    requires sock in s.keys && w.Enc? && OpenEnvelope(e, s.keys[sock], w) == Some(m)
    ensures Presented(e, s, Control(sock, w, [])) == Some(m)
    ensures Next(e, s, Control(sock, w, [])) == Dispatch(e, s, sock, m, [])
  {
    hide OpenEnvelope, Dispatch, BoxSealOpen;
  }

  /**
   The input: from the initial state, one connect envelope that is handled twice puts a client out of
   `sockets`, since nothing refuses a repeated id.
   */
  lemma {:induction false} RepeatedConnectDisplaces(e: Env, s: Server, sock: Sock, secret: seq<byte>, quote: seq<byte>,
                                                    key: seq<byte>, ephemeral: seq<byte>, n: nat, x: ConnId)
    requires LawfulEnv(e) && Initial(s) && |secret| == 32 && |key| == 32
    ensures var sealed := BoxSeal(e.suite, key, e.suite.publicKey(secret), ephemeral);
            var w := Envelope(e, key, n, WsConnect(x));
            && sealed.Some? && w.Some?
            && var run := RepeatedConnect(sock, secret, quote, sealed.value, w.value);
               MayRun(e, s, run) && !AlwaysInside(e, s, run)
  {
    AttachedAndKeyed(e, s, sock, secret, quote, key, ephemeral);
    EnvelopeOpens(e, key, n, WsConnect(x));
    hide BoxSeal, Envelope, OpenEnvelope, LawfulEnv;
    var sealed := BoxSeal(e.suite, key, e.suite.publicKey(secret), ephemeral).value;
    var w := Envelope(e, key, n, WsConnect(x)).value;
    var a, b, c := Attaches(sock, secret, Some(quote)), Control(sock, ClientKx(sealed), []), Control(sock, w, []);
    assert MayHappen(s, a);
    var s1 := Next(e, s, a);
    var s2 := Next(e, s1, b);
    ControlOpens(e, s2, sock, w, WsConnect(x));
    hide Next, HandleConnect, Presented;
    var s3 := Next(e, s2, c);
    ConnectFields(e, s2, sock, x);
    ControlOpens(e, s3, sock, w, WsConnect(x));
    assert StepDisplaces(e, s3, c);
    assert MayHappen(s1, b) && MayHappen(s2, c) && MayHappen(s3, c);
    InitialInside(s);
    hide StepDisplaces, Displaced, MayRun, MayHappen, RepeatedConnect, Initial, EntriesOk, Inside, AlwaysInside;
    NothingLeft(e, Next(e, s3, c));
    RunCons(e, s3, c, []);
    RunCons(e, s2, c, [c] + []);
    RunCons(e, s1, b, [c] + ([c] + []));
    RunCons(e, s, a, [b] + ([c] + ([c] + [])));
    RepeatedIs(sock, secret, quote, sealed, w);
    AlwaysInsideIff(e, s, RepeatedConnect(sock, secret, quote, sealed, w));
  }

  lemma {:induction false} RepeatedIs(sock: Sock, secret: seq<byte>, quote: seq<byte>, sealed: seq<byte>, w: Wire)
    ensures var a, b := Attaches(sock, secret, Some(quote)), Control(sock, ClientKx(sealed), []);
            var c := Control(sock, w, []);
            RepeatedConnect(sock, secret, quote, sealed, w) == [a] + ([b] + ([c] + ([c] + [])))
  {
  }

  lemma {:induction false} NothingLeft(e: Env, s: Server)
    ensures MayRun(e, s, [])
  {
  }

  lemma {:induction false} InitialInside(s: Server)
    requires Initial(s)
    ensures EntriesOk(s) && Inside(s)
  {
  }

  lemma {:induction false} RunCons(e: Env, s: Server, a: Step, rest: seq<Step>)
    requires MayHappen(s, a) && MayRun(e, Next(e, s, a), rest)
    ensures MayRun(e, s, [a] + rest)
    ensures Displaced(e, Next(e, s, a), rest) || StepDisplaces(e, s, a) ==> Displaced(e, s, [a] + rest)
  {
    hide Next, MayHappen, StepDisplaces;
    assert ([a] + rest)[0] == a && ([a] + rest)[1..] == rest;
  }
}
