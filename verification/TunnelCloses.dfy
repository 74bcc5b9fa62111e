/** A tunneled socket that the server closes is closed at the client once it has read what is in flight. */
module TunnelCloses {
  import opened Bytes
  import opened Crypto
  import opened Messages
  import opened ServerSide
  import opened ServerTheorems
  import opened ClientSide
  import opened Steady
  import opened CloseNews
  import opened Tunnel
  import opened TunnelKeys
  import opened TunnelServes
  import opened TunnelTheorems
  import opened TunnelProgress

  /** In flight to the client: `x` is closed. */
  predicate NewsInFlight(y: Sys, x: ConnId) {
    Told(y.s, y.sock, x, y.read)
  }

  /** If the client still has `x` registered and the server has closed it, the news are in flight. */
  predicate NewsOk(y: Sys, x: ConnId) {
    x in y.k.mocks && x in y.k.registered && ClosedHere(y.s, y.sock, x) ==> NewsInFlight(y, x)
  }

  // ---- steps ----

  lemma {:induction false} ServerNews(y: Sys, z: Sys, x: ConnId)
    requires NewsOk(y, x) && Heralds(y.s, z.s, y.sock, x) && z.k == y.k && z.sock == y.sock && z.read == y.read
    requires y.read <= |Sent(y)|
    ensures NewsOk(z, x)
  {
    hide Out, ClosedHere, Told;
    if ClosedHere(z.s, y.sock, x) && x in y.k.mocks && x in y.k.registered {
      if ClosedHere(y.s, y.sock, x) {
        ToldStays(y.s, z.s, y.sock, x, y.read);
      } else {
        ToldLater(z.s, y.sock, x, |Sent(y)|, y.read);
      }
    }
  }

  /** The client does something and registers at most what nobody has connected. */
  lemma {:induction false} ClientNews(y: Sys, z: Sys, x: ConnId)
    requires NewsOk(y, x) && z.s == y.s && z.sock == y.sock && z.read == y.read
    requires x in z.k.mocks && x in z.k.registered ==> (x in y.k.mocks && x in y.k.registered) || x !in y.s.made
    ensures NewsOk(z, x)
  {
    hide Out, Told;
  }

  lemma {:induction false} ActRegisters(g: Setting, k: Client, act: ClientAction, x: ConnId)
    requires Known(k, act)
    ensures x in Act(g, k, act).registered ==> x in k.registered || act == NewConnection(x)
    ensures x in Act(g, k, act).mocks ==> x in k.mocks || act == NewConnection(x)
  {
    hide Envelope;
  }

  lemma {:induction false} ActNews(g: Setting, y: Sys, act: ClientAction, x: ConnId)
    requires Can(g, y, Acts(act)) && NewsOk(y, x)
    ensures NewsOk(y.(k := Act(g, y.k, act)), x)
  {
    ActRegisters(g, y.k, act, x);
    hide Act, NewsOk;
    ClientNews(y, y.(k := Act(g, y.k, act)), x);
  }

  lemma {:induction false} HomeIsKeyed(g: Setting, y: Sys, x: ConnId)
    requires x in y.k.mocks && LinkOk(LinkOf(y, x))
    ensures KeyedHome(y.s, y.sock, x)
    ensures x in y.k.registered && MadeOn(y.s, y.sock, x) ==> y.k.key.Some?
  {
    hide Data, Requested, Out, Delivered, SentByApp, Hears, From, Mentions;
  }

  lemma {:induction false} NotHere(y: Sys, x: ConnId)
    requires !MadeOn(y.s, y.sock, x)
    ensures NewsOk(y, x)
  {
  }

  /** The next message is read: whatever it is, the news that were behind it are still to come. */
  lemma {:induction false} ReadNews(y: Sys, z: Sys, x: ConnId)
    requires NewsOk(y, x) && z.s == y.s && z.sock == y.sock && z.read == y.read + 1 <= |Sent(y)|
    requires x in z.k.mocks && x in z.k.registered ==> x in y.k.mocks && x in y.k.registered
    requires IsNews(Sent(y)[y.read], x) && x in y.k.registered && MadeOn(y.s, y.sock, x) ==> x !in z.k.registered
    ensures NewsOk(z, x)
  {
    hide Out;
    if ClosedHere(y.s, y.sock, x) && x in z.k.mocks && x in z.k.registered {
      var i :| y.read <= i < |Sent(y)| && IsNews(Sent(y)[i], x);
      assert i != y.read;
    }
  }

  /** What reading one message does to the registration of `x`. */
  lemma {:induction false} OneRead(g: Setting, y: Sys, key: seq<byte>, ephemeral: seq<byte>, x: ConnId)
    requires LawfulEnv(g.e) && KeyInv(g, y) && Can(g, y, ClientReads(key, ephemeral)) && x in y.k.mocks
    requires x in y.k.registered ==> y.k.key.Some?
    ensures var z, news := Do(g, y, ClientReads(key, ephemeral)), IsNews(Sent(y)[y.read], x);
            && x in z.k.mocks && z.k.ws == y.k.ws
            && (x in z.k.registered <==> x in y.k.registered && !news)
            && (x in y.k.registered && news ==> z.k.mocks[x].state == Closed)
            && (x !in y.k.registered ==> z.k.mocks[x] == y.k.mocks[x])
  {
    hide HandlePlain, Out;
    if y.read == 0 {
      FirstRead(g, y, key, ephemeral, x);
    } else {
      hide ClientHandles, KeyInv;
      LaterHandles(g, y, key, ephemeral);
      PlainRead(g, y.k, Sent(y)[y.read].plain.value, x);
    }
  }

  lemma {:induction false} FirstRead(g: Setting, y: Sys, key: seq<byte>, ephemeral: seq<byte>, x: ConnId)
    requires KeyInv(g, y) && y.read == 0 < |Sent(y)|
    ensures !IsNews(Sent(y)[0], x)
    ensures var t := ClientHandles(g, y.k, Sent(y)[0].wire, key, ephemeral);
            t.mocks == y.k.mocks && t.registered == y.k.registered && t.ws == y.k.ws
  {
    hide BoxSeal, EarlyChecks, LateChecks, Out, FromServer, ClientItems, KeysAgree;
  }

  lemma {:induction false} PlainRead(g: Setting, k: Client, m: Msg, x: ConnId)
    requires x in k.mocks
    ensures var t, news := HandlePlain(g.e, k, m), m == WsEvent(x, ClosedByPeer);
            && x in t.mocks && t.ws == k.ws
            && (x in t.registered <==> x in k.registered && !news)
            && (x in k.registered && news ==> t.mocks[x].state == Closed)
            && (x !in k.registered ==> t.mocks[x] == k.mocks[x])
  {
    if m.WsEvent? && m.event == Opened && m.conn in k.mocks {
      var m' := k.mocks[m.conn];
      FlushWs(g, Set(k, m.conn, m'.(state := Open, queue := [])), m.conn, m'.queue);
    }
    hide Flush;
  }

  lemma {:induction false} FlushWs(g: Setting, k: Client, x: ConnId, queue: seq<Payload>)
    ensures Flush(g.e, k, x, queue).ws == k.ws
    decreases |queue|
  {
    hide Envelope;
    if queue != [] {
      FlushWs(g, k, x, queue[..|queue| - 1]);
    }
  }

  lemma {:induction false} ClientReadsNews(g: Setting, y: Sys, key: seq<byte>, ephemeral: seq<byte>, x: ConnId)
    requires LawfulEnv(g.e) && KeyInv(g, y) && Can(g, y, ClientReads(key, ephemeral)) && NewsOk(y, x)
    requires x in y.k.mocks ==> LinkOk(LinkOf(y, x))
    ensures NewsOk(Do(g, y, ClientReads(key, ephemeral)), x)
  {
    var z := Do(g, y, ClientReads(key, ephemeral));
    ReadKeepsIds(g, y, ClientReads(key, ephemeral));
    hide LinkOk, LinkOf, KeyInv, ClientHandles, Out, LawfulEnv, MadeOn;
    if x in y.k.mocks {
      HomeIsKeyed(g, y, x);
      if MadeOn(y.s, y.sock, x) {
        if x in y.k.registered ==> y.k.key.Some? {
          OneRead(g, y, key, ephemeral, x);
          ReadNews(y, z, x);
        }
      } else {
        NotHere(z, x);
      }
    }
  }

  /** A new control socket: `x` was not made on it. */
  lemma {:induction false} ConnectsNews(g: Setting, y: Sys, a: Action, x: ConnId)
    requires Housed(y.s) && Can(g, y, a) && a.Connects?
    ensures NewsOk(Do(g, y, a), x)
  {
    AttachFrame(g.e, y.s, a.sock, a.secret, a.fetched);
    hide Attach;
    NotHere(Do(g, y, a), x);
  }

  lemma {:induction false} ChangeNews(y: Sys, z: Sys, change: Change, x: ConnId)
    requires NewsOk(y, x) && z == y.(k := Changed(y.k, change))
    ensures NewsOk(z, x)
  {
    hide NewsOk;
    ClientNews(y, z, x);
  }

  lemma {:induction false} StaleNews(y: Sys, z: Sys, x: ConnId)
    requires NewsOk(y, x) && y.stale > 0 && z == y.(k := CloseHandled(y.k), stale := y.stale - 1)
    ensures NewsOk(z, x)
  {
    hide NewsOk;
    ClientNews(y, z, x);
  }

  lemma {:induction false} ElsewhereAttached(g: Setting, y: Sys, step: ServerTheorems.Step)
    requires Foreign(g, y, step) && step.Attaches?
    ensures step.sock != y.sock
  {
  }

  lemma {:induction false} TakesNews(g: Setting, y: Sys, react: seq<AppAction>, x: ConnId)
    requires LawfulEnv(g.e) && Inv(g, y) && Can(g, y, ServerReads(react)) && NewsOk(y, x)
    ensures NewsOk(Do(g, y, ServerReads(react)), x)
  {
    TakesEnabled(g, y, react);
    hide Inv, HandleControl, Enabled, Out, LawfulEnv, NewsOk;
    ServerStepNews(g, y, Do(g, y, ServerReads(react)), Control(y.sock, Head(y).wire, react), x);
  }

  lemma {:induction false} ForeignNews(g: Setting, y: Sys, step: ServerTheorems.Step, x: ConnId)
    requires LawfulEnv(g.e) && Inv(g, y) && Can(g, y, ServerActs(step)) && NewsOk(y, x)
    ensures NewsOk(Do(g, y, ServerActs(step)), x)
  {
    hide Inv, Next, Enabled, Out, LawfulEnv, NewsOk, Foreign;
    if step.Attaches? {
      ElsewhereAttached(g, y, step);
    }
    ServerStepNews(g, y, Do(g, y, ServerActs(step)), step, x);
  }

  lemma {:induction false} StepNews(g: Setting, y: Sys, a: Action, x: ConnId)
    requires LawfulEnv(g.e) && Inv(g, y) && Can(g, y, a) && NewsOk(y, x)
    ensures NewsOk(Do(g, y, a), x)
  {
    assert KeyInv(g, y) && Housed(y.s) && (x in y.k.mocks ==> LinkOk(LinkOf(y, x)));
    hide Inv, KeyInv, LinkOk, LinkOf, Act, ClientHandles, HandleControl, Attach, Enabled, Unused, Out, LawfulEnv,
         NewsOk, Changed, CloseHandled, Foreign, Housed, Known, Next, Reconnect, RegistryOk;
    match a
    case Acts(act) => ActNews(g, y, act, x);
    case Changes(change) => ChangeNews(y, Do(g, y, a), change, x);
    case StaleCloses => StaleNews(y, Do(g, y, a), x);
    case ClientReads(key, ephemeral) => ClientReadsNews(g, y, key, ephemeral, x);
    case ServerReads(react) => TakesNews(g, y, react, x);
    case ServerActs(step) => ForeignNews(g, y, step, x);
    case Connects(_, _, _) => ConnectsNews(g, y, a, x);
  }

  lemma {:induction false} ServerStepNews(g: Setting, y: Sys, z: Sys, step: ServerTheorems.Step, x: ConnId)
    requires LawfulEnv(g.e) && Inv(g, y) && Enabled(g.e, y.s, step) && NewsOk(y, x)
    requires step.Attaches? ==> step.sock != y.sock
    requires z.k == y.k && z.sock == y.sock && z.read == y.read && z.s == Next(g.e, y.s, step)
    ensures NewsOk(z, x)
  {
    assert y.read <= |Sent(y)|;
    hide KeyInv, LinkOk, LinkOf, Enabled, Out, LawfulEnv, Heralds, ClosedHere, KeyedHome, Next, RegistryOk, Housed;
    if x in y.k.mocks {
      HomeIsKeyed(g, y, x);
      StepHeralds(g.e, y.s, step, y.sock, x);
      ServerNews(y, z, x);
    }
  }

  lemma {:induction false} RunNews(g: Setting, y: Sys, run: seq<Action>, x: ConnId)
    requires LawfulEnv(g.e) && Inv(g, y) && Possible(g, y, run) && NewsOk(y, x)
    ensures NewsOk(Reached(g, y, run), x)
    decreases |run|
  {
    if run != [] {
      hide Inv, Do, Can, NewsOk;
      StepNews(g, y, run[0], x);
      StepKeeps(g, y, run[0]);
      RunNews(g, Do(g, y, run[0]), run[1..], x);
    }
  }

  // ---- the client reads what is in flight ----

  /** The client reads the next `n` messages. */
  function ReadOn(n: nat, key: seq<byte>, ephemeral: seq<byte>): seq<Action> {
    if n == 0 then [] else [ClientReads(key, ephemeral)] + ReadOn(n - 1, key, ephemeral)
  }

  /** The client has `x`, and its control socket still brings messages. */
  predicate CanRead(y: Sys, x: ConnId) {
    x in y.k.mocks && MadeOn(y.s, y.sock, x) && (y.k.ws == Open || y.k.ws == Closing)
  }

  predicate ClosedAtClient(y: Sys, x: ConnId) {
    x in y.k.mocks && x !in y.k.registered && y.k.mocks[x].state == Closed
  }

  lemma {:induction false} NothingInFlight(y: Sys, x: ConnId)
    requires y.read == |Sent(y)|
    ensures !NewsInFlight(y, x)
  {
    hide Out;
  }

  lemma {:induction false} OneLess(y: Sys, z: Sys, x: ConnId)
    requires z.s == y.s && z.sock == y.sock && z.read == y.read + 1 <= |Sent(y)|
    ensures NewsInFlight(y, x) <==> IsNews(Sent(y)[y.read], x) || NewsInFlight(z, x)
  {
    hide Out;
    if NewsInFlight(y, x) && !IsNews(Sent(y)[y.read], x) {
      var i :| y.read <= i < |Sent(y)| && IsNews(Sent(y)[i], x);
      assert i != y.read;
    }
  }

  /** One message is read. */
  lemma {:induction false} ReadStep(g: Setting, y: Sys, key: seq<byte>, ephemeral: seq<byte>,
                                    x: ConnId) returns (z: Sys)
    requires LawfulEnv(g.e) && Inv(g, y) && CanRead(y, x) && y.read < |Sent(y)| && |key| == 32
    ensures Leads(g, y, [ClientReads(key, ephemeral)], z) && Inv(g, z) && CanRead(z, x)
    ensures z.s == y.s && z.sock == y.sock && z.read == y.read + 1
    ensures ClosedAtClient(y, x) ==> ClosedAtClient(z, x)
    ensures x in y.k.registered && IsNews(Sent(y)[y.read], x) ==> ClosedAtClient(z, x)
    ensures x in y.k.registered && !IsNews(Sent(y)[y.read], x) ==> x in z.k.registered
  {
    hide Inv, LawfulEnv, Out, Can, Leads, Do, IsNews;
    ReadFrame(g, y, key, ephemeral, x);
    z := Do(g, y, ClientReads(key, ephemeral));
    StepKeeps(g, y, ClientReads(key, ephemeral));
    LeadsBy(g, y, ClientReads(key, ephemeral));
  }

  lemma {:induction false} ReadFrame(g: Setting, y: Sys, key: seq<byte>, ephemeral: seq<byte>, x: ConnId)
    requires LawfulEnv(g.e) && Inv(g, y) && CanRead(y, x) && y.read < |Sent(y)| && |key| == 32
    ensures Can(g, y, ClientReads(key, ephemeral))
    ensures var z := Do(g, y, ClientReads(key, ephemeral));
            && z.s == y.s && z.sock == y.sock && z.read == y.read + 1
            && x in z.k.mocks && z.k.ws == y.k.ws
            && (x in z.k.registered <==> x in y.k.registered && !IsNews(Sent(y)[y.read], x))
            && (x in y.k.registered && IsNews(Sent(y)[y.read], x) ==> z.k.mocks[x].state == Closed)
            && (x !in y.k.registered ==> z.k.mocks[x] == y.k.mocks[x])
  {
    assert KeyInv(g, y) && LinkOk(LinkOf(y, x));
    hide Inv, KeyInv, LinkOk, LinkOf, LawfulEnv, Out, IsNews, Can, Do, ClientHandles;
    CanReadNow(g, y, key, ephemeral, x);
    HomeIsKeyed(g, y, x);
    OneRead(g, y, key, ephemeral, x);
  }

  lemma {:induction false} CanReadNow(g: Setting, y: Sys, key: seq<byte>, ephemeral: seq<byte>, x: ConnId)
    requires CanRead(y, x) && y.read < |Sent(y)| && |key| == 32
    ensures Can(g, y, ClientReads(key, ephemeral))
    ensures var z := Do(g, y, ClientReads(key, ephemeral)); z.s == y.s && z.sock == y.sock && z.read == y.read + 1
  {
    hide ClientHandles, Out;
  }

  lemma {:induction false} ReadRest(g: Setting, y: Sys, n: nat, key: seq<byte>, ephemeral: seq<byte>, x: ConnId)
    returns (z: Sys)
    requires LawfulEnv(g.e) && Inv(g, y) && CanRead(y, x) && |key| == 32 && y.read + n == |Sent(y)|
    requires ClosedAtClient(y, x) || x in y.k.registered
    ensures Leads(g, y, ReadOn(n, key, ephemeral), z) && Inv(g, z) && z.s == y.s && x in z.k.mocks
    ensures ClosedAtClient(y, x) ==> ClosedAtClient(z, x)
    ensures x in y.k.registered && NewsInFlight(y, x) ==> ClosedAtClient(z, x)
    ensures x in y.k.registered && !NewsInFlight(y, x) ==> x in z.k.registered
    decreases n
  {
    if n == 0 {
      z := y;
      NothingInFlight(y, x);
      LeadsStill(g, y);
    } else {
      hide Leads, LawfulEnv, Inv, CanRead, NewsInFlight, Out;
      var y1 := ReadStep(g, y, key, ephemeral, x);
      OneLess(y, y1, x);
      z := ReadRest(g, y1, n - 1, key, ephemeral, x);
      LeadsOn(g, y, [ClientReads(key, ephemeral)], y1, ReadOn(n - 1, key, ephemeral), z);
    }
  }

  lemma {:induction false} LeadsStill(g: Setting, y: Sys)
    ensures Leads(g, y, [], y)
  {
    hide Can, Do;
  }

  /**
   From every reachable state in which the client has a connection registered that was made on the current
   socket: reading what is in flight is possible, and the client's socket is closed and unregistered then
   if and only if the news that it is closed were in flight; and they are whenever the server has closed the
   mock, still holds its entry, and can send.
   */
  lemma {:induction false} CloseArrives(g: Setting, start: Sys, run: seq<Action>, y: Sys, key: seq<byte>,
                                        ephemeral: seq<byte>, x: ConnId) returns (z: Sys)
    requires LawfulEnv(g.e) && Start(start) && Leads(g, start, run, y) && |key| == 32
    requires x in y.k.mocks && x in y.k.registered && MadeOn(y.s, y.sock, x)
    requires y.k.ws == Open || y.k.ws == Closing
    ensures y.read <= |Sent(y)| && Leads(g, y, ReadOn(|Sent(y)| - y.read, key, ephemeral), z) && z.s == y.s
    ensures x in z.k.mocks
    ensures z.k.mocks[x].state == Closed && x !in z.k.registered <==> NewsInFlight(y, x)
    ensures x in y.s.sockets && !Receives(y.s, x) && CanSend(y.s, y.sock) ==>
      NewsInFlight(y, x) && z.k.mocks[x].state == Closed && x !in z.k.registered
  {
    hide Leads, Inv, Start, LawfulEnv, Out, Receives, CanSend, ReadOn, Told;
    ReachedNews(g, start, run, y, x);
    ReadInside(g, y);
    z := ReadRest(g, y, |Sent(y)| - y.read, key, ephemeral, x);
  }

  lemma {:induction false} ReadInside(g: Setting, y: Sys)
    requires Inv(g, y)
    ensures y.read <= |Sent(y)|
  {
    hide RegistryOk, Housed, LinkOk, LinkOf, IdentityOk, SessionOk, ClientItems, Announced, KeysAgree, Out;
  }

  lemma {:induction false} ReachedNews(g: Setting, start: Sys, run: seq<Action>, y: Sys, x: ConnId)
    requires LawfulEnv(g.e) && Start(start) && Leads(g, start, run, y)
    ensures Inv(g, y) && NewsOk(y, x)
  {
    StartInv(g, start);
    NoNews(start, x);
    hide Reached, Possible, Inv, Start, NewsOk, LawfulEnv, Do, Can;
    RunKeeps(g, start, run);
    RunNews(g, start, run, x);
  }

  lemma {:induction false} NoNews(y: Sys, x: ConnId)
    requires Start(y)
    ensures NewsOk(y, x)
  {
  }
}
