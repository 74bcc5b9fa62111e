/**
 Whose messages act on a connection. The handlers of `ws_message` and `ws_close` look a connection
 up by its id alone and never compare the control socket (tunnel/src/server.ts).
 */
module Ownership {
  import opened Bytes
  import opened Crypto
  import opened Messages
  import opened ServerSide
  import opened ServerTheorems

  // ---- what a step adds to the log ----

  /** The log grows by an event of the message, if there is one, and otherwise quietly. */
  ghost predicate LogGrows(s: Server, t: Server, first: Option<AppEvent>) {
    && s.app <= t.app
    && (first.Some? ==> |s.app| < |t.app| && t.app[|s.app|] == first.value)
    && forall i :: |s.app| <= i < |t.app| ==> t.app[i].GotClose? || t.app[i].AppSent? || Some(t.app[i]) == first
  }

  lemma {:induction false} QuietGrows(s: Server, l: Server, t: Server, event: AppEvent)
    requires l.app == s.app + [event] && QuietLog(l, t)
    ensures LogGrows(s, t, Some(event))
  {
    assert t.app[..|l.app|] == s.app + [event];
    forall i | |s.app| <= i < |t.app|
      ensures t.app[i].GotClose? || t.app[i].AppSent? || t.app[i] == event
    {
      if i < |l.app| {
        assert t.app[i] == t.app[..|l.app|][i];
      }
    }
    assert t.app[|s.app|] == t.app[..|l.app|][|s.app|];
  }

  lemma {:induction false} OnlyQuiet(s: Server, t: Server)
    requires QuietLog(s, t)
    ensures LogGrows(s, t, None)
  {
  }

  /** What a message brings to the application before the callback runs. */
  function Brought(s: Server, sock: Sock, m: Msg): Option<AppEvent> {
    match m
    case HttpRequest(req, _) => Some(GotRequest(sock, req))
    case WsConnect(_) => if s.hono && sock !in s.contexts then None else Some(GotConnection(sock, |s.mocks|))
    case WsMessage(c, data) => if Receives(s, c) then Some(GotMessage(sock, c, data)) else None
    case _ => None
  }

  lemma {:induction false} DispatchLog(e: Env, s: Server, sock: Sock, m: Msg, react: seq<AppAction>)
    requires Settled(s)
    ensures LogGrows(s, Dispatch(e, s, sock, m, react), Brought(s, sock, m))
  {
    hide AppRun, SendEncrypted, Retire, LogGrows, QuietLog;
    SelfQuiet(s);
    OnlyQuiet(s, s);
    match m
    case HttpRequest(req, _) =>
      var l := Log(s, GotRequest(sock, req));
      SelfQuiet(l);
      QuietGrows(s, l, l, GotRequest(sock, req));
    case WsConnect(c) =>
      ConnectLog(e, s, sock, c, react);
    case WsMessage(c, data) =>
      var l := Log(s, GotMessage(sock, c, data));
      AppRunEvolves(e, l, react);
      QuietGrows(s, l, AppRun(e, l, react), GotMessage(sock, c, data));
    case WsClose(c) =>
      if c in s.sockets {
        RetireEvolves(e, s, s.sockets[c].mock, react);
        OnlyQuiet(s, Retire(e, s, s.sockets[c].mock, react));
        SameLog(s, Retire(e, s, s.sockets[c].mock, react), HandleClose(e, s, c, react), None);
      }
    case _ =>
  }

  lemma {:induction false} SelfQuiet(s: Server)
    ensures QuietLog(s, s)
  {
  }

  lemma {:induction false} SameLog(s: Server, t: Server, u: Server, first: Option<AppEvent>)
    requires LogGrows(s, t, first) && u.app == t.app
    ensures LogGrows(s, u, first)
  {
  }

  lemma {:induction false} ConnectLog(e: Env, s: Server, sock: Sock, c: ConnId, react: seq<AppAction>)
    requires Settled(s)
    ensures LogGrows(s, HandleConnect(e, s, sock, c, react), Brought(s, sock, WsConnect(c)))
  {
    hide AppRun, SendEncrypted, LogGrows, QuietLog;
    if s.hono && sock !in s.contexts {
      var t := SendEncrypted(e, s, sock, WsEvent(c, Errored));
      SendFrame(e, s, sock, WsEvent(c, Errored));
      SelfQuiet(s);
      OnlyQuiet(s, s);
      SameLog(s, s, t, None);
    } else {
      var l := AddMock(s, sock, c);
      var t := AppRun(e, l, react);
      AppRunEvolves(e, l, react);
      QuietGrows(s, l, t, GotConnection(sock, |s.mocks|));
      SendFrame(e, t, sock, WsEvent(c, Opened));
      SameLog(s, t, SendEncrypted(e, t, sock, WsEvent(c, Opened)), Some(GotConnection(sock, |s.mocks|)));
    }
  }

  lemma {:induction false} StepLog(e: Env, s: Server, step: Step)
    requires RegistryOk(s) && Enabled(e, s, step)
    ensures var m := Presented(e, s, step);
            LogGrows(s, Next(e, s, step), if m.Some? then Brought(s, step.sock, m.value) else None)
  {
    RegistrySettled(s);
    hide AppRun, Dispatch, RetireEach, OpenEnvelope, RegistryOk, Attach, LogGrows, QuietLog, Brought, BoxSealOpen;
    SelfQuiet(s);
    OnlyQuiet(s, s);
    var t := Next(e, s, step);
    match step
    case Attaches(sock, secret, fetched) =>
      AttachFrame(e, s, sock, secret, fetched);
      SameLog(s, s, t, None);
    case Control(sock, w, react) =>
      if Openable(e, s, sock, w) {
        DispatchLog(e, s, sock, OpenEnvelope(e, s.keys[sock], w).value, react);
      } else {
        Gated(e, s, sock, w, react);
        SameLog(s, s, t, None);
      }
    case AppActs(script) =>
      AppRunEvolves(e, s, script);
      OnlyQuiet(s, t);
    case Closes(sock, order, callbacks) =>
      ClosedLog(e, s, sock, order, callbacks);
    case _ =>
      SameLog(s, s, t, None);
  }

  lemma {:induction false} ClosedLog(e: Env, s: Server, sock: Sock, order: seq<ConnId>,
                                     callbacks: nat -> seq<AppAction>)
    requires RegistryOk(s)
    ensures LogGrows(s, ControlClosed(e, s, sock, order, callbacks), None)
  {
    hide RetireEach, RegistryOk, LogGrows, QuietLog;
    var f := Forget(s, sock);
    ForgetOk(s, sock);
    RetireEachEvolves(e, f, sock, order, callbacks);
    var t := RetireEach(e, f, sock, order, callbacks);
    OnlyQuiet(f, t);
    SameStart(s, f, t, None);
    SameLog(s, t, ControlClosed(e, s, sock, order, callbacks), None);
  }

  lemma {:induction false} SameStart(s: Server, f: Server, t: Server, first: Option<AppEvent>)
    requires LogGrows(f, t, first) && f.app == s.app
    ensures LogGrows(s, t, first)
  {
  }

  // ---- payloads ----

  /** Every payload for `x` that the application received came over the socket that `x` was connected over. */
  ghost predicate HomeOnly(s: Server, x: ConnId) {
    forall i :: 0 <= i < |s.app| && s.app[i].GotMessage? && s.app[i].conn == x ==>
      x in s.made && s.made[x] == s.app[i].via
  }

  /** Whoever gets a payload was connected. */
  ghost predicate OnlyMade(s: Server) {
    forall i :: 0 <= i < |s.app| && s.app[i].GotMessage? ==> s.app[i].conn in s.made
  }

  /** An envelope that opens brings a payload for `x`, which is open and came over another socket. */
  predicate Intrudes(e: Env, s: Server, step: Step, x: ConnId) {
    var m := Presented(e, s, step);
    m.Some? && m.value.WsMessage? && m.value.conn == x && Receives(s, x) && s.sockets[x].ctl != step.sock
  }

  lemma {:induction false} OnlyMadeStep(e: Env, s: Server, step: Step)
    requires RegistryOk(s) && Enabled(e, s, step) && OnlyMade(s)
    ensures OnlyMade(Next(e, s, step))
  {
    StepLog(e, s, step);
    StepMade(e, s, step);
    hide Next, RegistryOk, Presented, Enabled;
    var t, m := Next(e, s, step), Presented(e, s, step);
    forall i | 0 <= i < |t.app| && t.app[i].GotMessage?
      ensures t.app[i].conn in t.made
    {
      if i < |s.app| {
        assert t.app[i] == s.app[i];
      } else {
        ReceiverIsMade(s, m.value.conn);
      }
    }
  }

  /** The log grows by a payload for `x` from its home, by one from elsewhere, or by none. */
  lemma {:induction false} HomeOnlyGrows(s: Server, t: Server, first: Option<AppEvent>, x: ConnId)
    requires LogGrows(s, t, first) && OnlyMade(s)
    requires (x in s.made ==> x in t.made && t.made[x] == s.made[x])
    requires first.Some? && first.value.GotMessage? ==> first.value.conn in s.made
    ensures HomeOnly(t, x) <==>
      && HomeOnly(s, x)
      && !(first.Some? && first.value.GotMessage? && first.value.conn == x && s.made[x] != first.value.via)
  {
    assert forall i :: 0 <= i < |s.app| ==> t.app[i] == s.app[i];
    if HomeOnly(t, x) {
      forall i | 0 <= i < |s.app| && s.app[i].GotMessage? && s.app[i].conn == x
        ensures x in s.made && s.made[x] == s.app[i].via
      {
        assert t.app[i] == s.app[i];
      }
    }
  }

  /** A step leaves the payloads for `x` with its home exactly when it does not intrude. */
  lemma {:induction false} HomeOnlyStep(e: Env, s: Server, step: Step, x: ConnId)
    requires RegistryOk(s) && Enabled(e, s, step) && OnlyMade(s)
    ensures HomeOnly(Next(e, s, step), x) <==> HomeOnly(s, x) && !Intrudes(e, s, step, x)
  {
    StepLog(e, s, step);
    StepMade(e, s, step);
    hide Next, RegistryOk, Presented, Enabled, Receives, HomeOnly, LogGrows, OnlyMade;
    var m := Presented(e, s, step);
    if m.Some? && m.value.WsMessage? && Receives(s, m.value.conn) {
      ReceiverIsMade(s, m.value.conn);
    }
    HomeOnlyGrows(s, Next(e, s, step), if m.Some? then Brought(s, step.sock, m.value) else None, x);
  }

  /** At some point of the run a step intrudes on `x`. */
  predicate Intruded(e: Env, s: Server, run: seq<Step>, x: ConnId)
    decreases |run|
  {
    run != [] && (Intrudes(e, s, run[0], x) || Intruded(e, Next(e, s, run[0]), run[1..], x))
  }

  /**
   Over every run: all payloads that the application received on `x` came over the socket that `x`
   was connected over, if and only if no socket presents an envelope that opens to a payload for `x`
   while the mock of `x` is open and belongs to another socket.
   */
  lemma {:induction false} HomeOnlyIff(e: Env, s: Server, run: seq<Step>, x: ConnId)
    requires RegistryOk(s) && OnlyMade(s) && ValidRun(e, s, run)
    ensures HomeOnly(After(e, s, run), x) <==> HomeOnly(s, x) && !Intruded(e, s, run, x)
    decreases |run|
  {
    if run != [] {
      hide HomeOnly, Intrudes, Next, Enabled;
      HomeOnlyStep(e, s, run[0], x);
      OnlyMadeStep(e, s, run[0]);
      RegistryStep(e, s, run[0]);
      HomeOnlyIff(e, Next(e, s, run[0]), run[1..], x);
    }
  }

  /** An envelope under the key of its socket is dispatched. */
  lemma {:induction false} EnvelopeDispatched(e: Env, s: Server, sock: Sock, n: nat, m: Msg, react: seq<AppAction>)
    requires LawfulEnv(e) && sock in s.keys && |s.keys[sock]| == 32
    ensures var w := Envelope(e, s.keys[sock], n, m);
            w.Some? && Next(e, s, Control(sock, w.value, react)) == Dispatch(e, s, sock, m, react)
  {
    EnvelopeOpens(e, s.keys[sock], n, m);
    hide Envelope, OpenEnvelope, Dispatch, BoxSealOpen;
  }

  /** The input: a keyed socket sends a payload for a connection of another one, and it is delivered. */
  lemma {:induction false} StrangerDelivers(e: Env, s: Server, sock: Sock, n: nat, x: ConnId, data: Payload,
                                            react: seq<AppAction>)
    requires LawfulEnv(e) && RegistryOk(s) && Receives(s, x) && s.sockets[x].ctl != sock
    requires sock in s.keys && |s.keys[sock]| == 32
    ensures var w := Envelope(e, s.keys[sock], n, WsMessage(x, data));
            && w.Some? && GotMessage(sock, x, data) in Next(e, s, Control(sock, w.value, react)).app
            && x in s.made && s.made[x] != sock
  {
    EnvelopeDispatched(e, s, sock, n, WsMessage(x, data), react);
    ReceiverIsMade(s, x);
    RegistrySettled(s);
    hide AppRun, Next, Envelope;
    DispatchLog(e, s, sock, WsMessage(x, data), react);
  }

  // ---- closing ----

  /** A message of a step takes an entry of another control socket out of the registry. */
  ghost predicate Robs(e: Env, s: Server, step: Step) {
    step.Control? && exists conn ::
      conn in s.sockets && s.sockets[conn].ctl != step.sock && conn !in Next(e, s, step).sockets
  }

  /** The step presents an envelope that opens to a `ws_close` for an entry of another control socket. */
  predicate ClosesOther(e: Env, s: Server, step: Step) {
    var m := Presented(e, s, step);
    m.Some? && m.value.WsClose? && m.value.conn in s.sockets && s.sockets[m.value.conn].ctl != step.sock
  }

  lemma {:induction false} DispatchEntries(e: Env, s: Server, sock: Sock, m: Msg, react: seq<AppAction>, c: ConnId)
    requires Settled(s) && c in s.sockets
    ensures c !in Dispatch(e, s, sock, m, react).sockets <==> m == WsClose(c)
  {
    hide AppRun, SendEncrypted, Retire;
    match m
    case WsConnect(conn) =>
      SendFrame(e, s, sock, WsEvent(conn, Errored));
      var t := AddMock(s, sock, conn);
      AppRunEvolves(e, t, react);
      SendFrame(e, AppRun(e, t, react), sock, WsEvent(conn, Opened));
    case WsMessage(conn, data) =>
      AppRunEvolves(e, Log(s, GotMessage(sock, conn, data)), react);
    case WsClose(conn) =>
      if conn in s.sockets {
        RetireEvolves(e, s, s.sockets[conn].mock, react);
      }
    case _ =>
  }

  /** A message robs another socket of an entry exactly when it is a `ws_close` for it. */
  lemma {:induction false} RobsIff(e: Env, s: Server, step: Step)
    requires RegistryOk(s) && Enabled(e, s, step)
    ensures Robs(e, s, step) <==> ClosesOther(e, s, step)
  {
    RegistrySettled(s);
    hide Dispatch, OpenEnvelope, RegistryOk, BoxSealOpen, Enabled;
    if step.Control? {
      var m := Presented(e, s, step);
      forall c | c in s.sockets
        ensures c !in Next(e, s, step).sockets <==> m == Some(WsClose(c))
      {
        if m.Some? {
          DispatchEntries(e, s, step.sock, m.value, step.react, c);
        } else {
          Gated(e, s, step.sock, step.wire, step.react);
        }
      }
    }
  }

  ghost predicate Robbed(e: Env, s: Server, run: seq<Step>)
    decreases |run|
  {
    run != [] && (Robs(e, s, run[0]) || Robbed(e, Next(e, s, run[0]), run[1..]))
  }

  predicate ClosedOther(e: Env, s: Server, run: seq<Step>)
    decreases |run|
  {
    run != [] && (ClosesOther(e, s, run[0]) || ClosedOther(e, Next(e, s, run[0]), run[1..]))
  }

  /**
   Over every run: no message takes an entry of another control socket out of the registry, if and
   only if no socket presents an envelope that opens to a `ws_close` for such an entry.
   */
  lemma {:induction false} RobbedIff(e: Env, s: Server, run: seq<Step>)
    requires RegistryOk(s) && ValidRun(e, s, run)
    ensures Robbed(e, s, run) <==> ClosedOther(e, s, run)
    decreases |run|
  {
    if run != [] {
      hide Robs, ClosesOther, Next, Enabled;
      RobsIff(e, s, run[0]);
      RegistryStep(e, s, run[0]);
      RobbedIff(e, Next(e, s, run[0]), run[1..]);
    }
  }

  /** The input: a keyed socket closes a connection of another one, and its mock emits `close`. */
  lemma {:induction false} StrangerCloses(e: Env, s: Server, sock: Sock, n: nat, x: ConnId, react: seq<AppAction>)
    requires LawfulEnv(e) && RegistryOk(s) && Receives(s, x) && s.sockets[x].ctl != sock
    requires sock in s.keys && |s.keys[sock]| == 32
    ensures var w := Envelope(e, s.keys[sock], n, WsClose(x));
            && w.Some?
            && var t := Next(e, s, Control(sock, w.value, react));
               && x !in t.sockets && |t.mocks| == |s.mocks|
               && t.mocks[s.sockets[x].mock].state == Closed && t.mocks[s.sockets[x].mock].closes == 1
  {
    EnvelopeDispatched(e, s, sock, n, WsClose(x), react);
    hide Retire, Next, Envelope;
    var m := s.sockets[x].mock;
    RegistrySettled(s);
    assert MockOk(s, m);
    RetireEvolves(e, s, m, react);
    assert MockEvolves(s.mocks[m], Retire(e, s, m, react).mocks[m]);
  }
}
