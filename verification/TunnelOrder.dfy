/** Every step of the tunnel keeps the order of the payloads of every connection. */
module TunnelOrder {
  import opened Bytes
  import opened Crypto
  import opened Messages
  import opened ServerSide
  import opened ServerTheorems
  import opened ClientSide
  import opened Steady
  import opened Tunnel
  import opened TunnelKeys

  // ---- requests to connect ----

  lemma {:induction false} RequestedConcat(a: seq<Item>, b: seq<Item>, x: ConnId)
    ensures Requested(a + b, x) == Requested(a, x) + Requested(b, x)
    decreases |b|
  {
    if b == [] {
      assert a + b == a;
    } else {
      assert (a + b)[..|a + b| - 1] == a + b[..|b| - 1];
      RequestedConcat(a, b[..|b| - 1], x);
    }
  }

  lemma {:induction false} RequestedOne(it: Item, x: ConnId)
    ensures Requested([it], x) == if it.plain == Some(WsConnect(x)) then 1 else 0
  {
    assert [it][..0] == [];
  }

  lemma {:induction false} DataOne(it: Item, x: ConnId)
    ensures Data([it], x)
         == if it.plain.Some? && it.plain.value.WsMessage? && it.plain.value.conn == x
            then [it.plain.value.data] else []
  {
    assert [it][..0] == [];
  }

  /** The channel grows at its end. */
  lemma {:induction false} ChannelGrows(items: seq<Item>, more: seq<Item>, n: nat, x: ConnId)
    requires n <= |items|
    ensures Requested(From(items + more, n), x) == Requested(From(items, n), x) + Requested(more, x)
    ensures Data(From(items + more, n), x) == Data(From(items, n), x) + Data(more, x)
    ensures Mentions(From(items + more, n), x) <==> Mentions(From(items, n), x) || Mentions(more, x)
  {
    var a, b := From(items, n), From(items + more, n);
    assert b == a + more;
    RequestedConcat(a, more, x);
    DataConcat(a, more, x);
    forall i | 0 <= i < |more| && About(more[i], x)
      ensures Mentions(b, x)
    {
      assert b[|a| + i] == more[i];
    }
    assert forall i :: 0 <= i < |a| ==> a[i] == b[i];
    assert forall i :: |a| <= i < |b| ==> b[i] == more[i - |a|];
  }

  /** And it is emptied from its head. */
  lemma {:induction false} ChannelMoves(items: seq<Item>, n: nat, x: ConnId)
    requires n < |items|
    ensures Requested(From(items, n), x)
         == (if items[n].plain == Some(WsConnect(x)) then 1 else 0) + Requested(From(items, n + 1), x)
    ensures Data(From(items, n), x) == Data([items[n]], x) + Data(From(items, n + 1), x)
    ensures Mentions(From(items, n), x) <==> About(items[n], x) || Mentions(From(items, n + 1), x)
  {
    var a, b := From(items, n), From(items, n + 1);
    assert a == [items[n]] + b;
    RequestedOne(items[n], x);
    RequestedConcat([items[n]], b, x);
    DataConcat([items[n]], b, x);
    forall i | 0 <= i < |b| && About(b[i], x)
      ensures Mentions(a, x)
    {
      assert a[i + 1] == b[i];
    }
    assert About(items[n], x) ==> About(a[0], x);
    assert forall i :: 1 <= i < |a| ==> a[i] == b[i - 1];
  }

  // ---- the server does something else ----

  /** How the link of a connection changes while the server is busy elsewhere. */
  predicate LinkSteady(l: Link, l': Link, said: seq<Payload>, gone: seq<Payload>) {
    && l' == l.(elsewhere := l'.elsewhere, hears := l'.hears, live := l'.live, keyed := l'.keyed,
                mentioned := l'.mentioned, appSent := l.appSent + said, coming := l.coming + gone)
    && (l'.hears ==> l.hears && l'.live) && (l'.live ==> l.live) && (l'.live && l.keyed ==> l'.keyed)
    && (l'.mentioned ==> l.mentioned || l.here) && (l'.elsewhere ==> l.elsewhere)
    && gone <= said && (l.here && l'.live && l.keyed ==> gone == said) && (!l.here || !l.live ==> gone == [])
    && (!l.made ==> said == [])
  }

  lemma {:induction false} LinkSteadyOk(l: Link, l': Link, said: seq<Payload>, gone: seq<Payload>)
    requires LinkOk(l) && LinkSteady(l, l', said, gone)
    ensures LinkOk(l')
  {
    assert l.m.received + (l.coming + gone) == l.m.received + l.coming + gone;
  }

  lemma {:induction false} NewsIsHere(e: Env, s: Server, t: Server, sock: Sock, x: ConnId)
    requires Balanced(e, s, t, sock, x) && Mentions(NewItems(s, t, sock), x)
    ensures MadeOn(s, sock, x)
  {
    hide Out, Data, SentByApp, OpenEnvelope;
    var more := NewItems(s, t, sock);
    var i :| 0 <= i < |more| && About(more[i], x);
    assert SealedItem(e, s, sock, x, Out(t, sock)[|Out(s, sock)| + i]);
  }

  lemma {:induction false} SteadyChannel(g: Setting, y: Sys, t: Server, x: ConnId)
    requires y.read <= |Sent(y)| && Balanced(g.e, y.s, t, y.sock, x)
    ensures var more := NewItems(y.s, t, y.sock);
            && Data(From(Out(t, y.sock), y.read), x) == Data(From(Sent(y), y.read), x) + Data(more, x)
            && (Mentions(From(Out(t, y.sock), y.read), x) ==>
                  Mentions(From(Sent(y), y.read), x) || MadeOn(y.s, y.sock, x))
  {
    var more := NewItems(y.s, t, y.sock);
    assert Out(t, y.sock) == Sent(y) + more;
    ChannelGrows(Sent(y), more, y.read, x);
    hide Balanced, Out, Data, SentByApp, From, Mentions, MadeOn;
    if Mentions(more, x) {
      NewsIsHere(g.e, y.s, t, y.sock, x);
    }
  }

  /** The two cursors are in range and a key has the right size. */
  predicate Basics(y: Sys) {
    y.taken <= |y.k.out| && y.read <= |Sent(y)| && (y.sock in y.s.keys ==> |y.s.keys[y.sock]| == 32)
  }

  lemma {:induction false} SteadyBasics(g: Setting, y: Sys, t: Server, x: ConnId)
    requires Basics(y) && Steady.Steady(g.e, y.s, t, y.sock, x)
    ensures Basics(y.(s := t))
  {
    hide Out, Data, Delivered, SentByApp, Hears, SealedItem;
  }

  lemma {:induction false} SteadyLink(g: Setting, y: Sys, t: Server, x: ConnId)
    requires Basics(y) && x in y.k.mocks && LinkOk(LinkOf(y, x)) && Steady.Steady(g.e, y.s, t, y.sock, x)
    ensures LinkOk(LinkOf(y.(s := t), x)) && Basics(y.(s := t))
  {
    SteadyChannel(g, y, t, x);
    SteadyBasics(g, y, t, x);
    var said := SentByApp(t.app, x)[|SentByApp(y.s.app, x)|..];
    hide Out, Data, Requested, Delivered, SentByApp, Hears, From, Mentions, SealedItem, LinkOk;
    LinkSteadyOk(LinkOf(y, x), LinkOf(y.(s := t), x), said, Data(NewItems(y.s, t, y.sock), x));
  }

  // ---- the client sends ----

  function More(k: Client, t: Client): seq<Item> {
    From(t.out, |k.out|)
  }

  /** The link after the client has changed and has sent more. */
  lemma {:induction false} ClientLink(y: Sys, t: Client, x: ConnId)
    requires y.taken <= |y.k.out| && y.k.out <= t.out && x in y.k.mocks && x in t.mocks
    ensures var l, more := LinkOf(y, x), More(y.k, t);
            LinkOf(y.(k := t), x)
            == l.(m := t.mocks[x], registered := x in t.registered, ws := t.ws, key := t.key.Some?,
                  requested := l.requested + Requested(more, x), underway := l.underway + Data(more, x))
  {
    assert t.out == y.k.out + More(y.k, t);
    hide Out, Data, Requested, Delivered, SentByApp, Hears, From, Mentions, More;
    ChannelGrows(y.k.out, More(y.k, t), y.taken, x);
  }

  /** What one send adds, as seen from connection `z`. */
  lemma {:induction false} SendMore(g: Setting, k: Client, m: Msg, z: ConnId)
    requires LawfulEnv(g.e) && SessionOk(k)
    ensures var t := TrySend(g.e, k, m);
            var sends := k.ws == Open && k.key.Some?;
            && t.(out := k.out, drawn := k.drawn) == k && k.out <= t.out
            && Data(More(k, t), z) == (if sends && m.WsMessage? && m.conn == z then [m.data] else [])
            && Requested(More(k, t), z) == (if sends && m == WsConnect(z) then 1 else 0)
  {
    SendSpec(g, k, m);
    hide TrySend;
    var t := TrySend(g.e, k, m);
    if k.ws == Open && k.key.Some? {
      var it := t.out[|k.out|];
      assert More(k, t) == [it];
      DataOne(it, z);
      RequestedOne(it, z);
    } else {
      assert More(k, t) == [];
    }
  }

  lemma {:induction false} MoreTwice(k: Client, t: Client, u: Client, z: ConnId)
    requires k.out <= t.out <= u.out
    ensures Data(More(k, u), z) == Data(More(k, t), z) + Data(More(t, u), z)
    ensures Requested(More(k, u), z) == Requested(More(k, t), z) + Requested(More(t, u), z)
  {
    assert More(k, u) == More(k, t) + More(t, u);
    DataConcat(More(k, t), More(t, u), z);
    RequestedConcat(More(k, t), More(t, u), z);
  }

  lemma {:induction false} NoMore(k: Client, t: Client, z: ConnId)
    requires t.out == k.out
    ensures Data(More(k, t), z) == [] && Requested(More(k, t), z) == 0
  {
    assert More(k, t) == [];
  }

  /** From `k` to `t` the client has sent exactly these payloads on `x`, if it could send at all. */
  predicate Flushed(k: Client, t: Client, x: ConnId, sent: seq<Payload>, z: ConnId) {
    && t.(out := k.out, drawn := k.drawn) == k && k.out <= t.out
    && Data(More(k, t), z) == (if k.ws == Open && k.key.Some? && x == z then sent else [])
    && Requested(More(k, t), z) == 0
  }

  lemma {:induction false} FlushLast(g: Setting, k: Client, t: Client, x: ConnId, front: seq<Payload>, data: Payload,
                                     z: ConnId)
    requires LawfulEnv(g.e) && SessionOk(k) && Flushed(k, t, x, front, z)
    ensures Flushed(k, TrySend(g.e, t, WsMessage(x, data)), x, front + [data], z)
  {
    SendMore(g, t, WsMessage(x, data), z);
    hide TrySend, Data, Requested, More, SessionOk;
    MoreTwice(k, t, TrySend(g.e, t, WsMessage(x, data)), z);
  }

  /** The flush sends the whole queue in order, or nothing. */
  lemma {:induction false} FlushMore(g: Setting, k: Client, x: ConnId, queue: seq<Payload>, z: ConnId)
    requires LawfulEnv(g.e) && SessionOk(k)
    ensures Flushed(k, Flush(g.e, k, x, queue), x, queue, z)
    decreases |queue|
  {
    if queue == [] {
      NoMore(k, k, z);
    } else {
      hide TrySend, Flushed, SessionOk;
      var front, data := queue[..|queue| - 1], queue[|queue| - 1];
      FlushMore(g, k, x, front, z);
      FlushLast(g, k, Flush(g.e, k, x, front), x, front, data, z);
      assert front + [data] == queue;
    }
  }

  // ---- what the client does about one connection ----

  /** The client does something that is not about `z`. */
  lemma {:induction false} AsideLink(y: Sys, t: Client, z: ConnId)
    requires y.taken <= |y.k.out| && y.k.out <= t.out && z in y.k.mocks && z in t.mocks && LinkOk(LinkOf(y, z))
    requires t.mocks[z] == y.k.mocks[z] && (z in t.registered <==> z in y.k.registered)
    requires t.ws == y.k.ws && (t.key.Some? <== y.k.key.Some?)
    requires Data(More(y.k, t), z) == [] && Requested(More(y.k, t), z) == 0
    ensures LinkOk(LinkOf(y.(k := t), z))
  {
    hide Data, Requested, More, Out, Delivered, SentByApp, Hears, From, Mentions;
    ClientLink(y, t, z);
    assert LinkOf(y, z).underway + [] == LinkOf(y, z).underway;
  }

  /** An item of the client, early or not. */
  predicate KnownItem(g: Setting, k: Client, s: Server, it: Item) {
    FromClient(g, k, s, it, true) || FromClient(g, k, s, it, false)
  }

  /** Nothing in the client's channel is about a connection that it does not know. */
  lemma {:induction false} UnknownIsSilent(g: Setting, k: Client, s: Server, items: seq<Item>, x: ConnId)
    requires x !in k.mocks && forall i :: 0 <= i < |items| ==> KnownItem(g, k, s, items[i])
    ensures Requested(items, x) == 0 && Data(items, x) == []
    decreases |items|
  {
    hide OpenEnvelope, BoxSealOpen;
    if items != [] {
      assert KnownItem(g, k, s, items[|items| - 1]);
      UnknownIsSilent(g, k, s, items[..|items| - 1], x);
    }
  }

  lemma {:induction false} UnusedSilence(y: Sys, x: ConnId)
    requires Unused(y, x) && y.read <= |Sent(y)|
    ensures Data(From(Sent(y), y.read), x) == [] && !Mentions(From(Sent(y), y.read), x)
  {
    hide Delivered, SentByApp, Out;
    var items := Sent(y);
    assert items == items[..y.read] + From(items, y.read);
    DataConcat(items[..y.read], From(items, y.read), x);
    assert forall i :: 0 <= i < |From(items, y.read)| ==> From(items, y.read)[i] == items[y.read + i];
  }

  lemma {:induction false} FreshLinkOk(l: Link)
    requires l.m == ClientSide.Mock(Connecting, [], [], [], false) && l.registered
    requires !l.made && !l.here && !l.elsewhere && !l.hears && l.requested == 0 && !l.mentioned
    requires l.delivered == [] && l.underway == [] && l.appSent == [] && l.coming == []
    ensures LinkOk(l)
  {
  }

  lemma {:induction false} UnusedIsDeaf(y: Sys, x: ConnId)
    requires RegistryOk(y.s) && x !in y.s.made
    ensures !Hears(y.s, y.sock, x)
  {
    assert x in y.s.sockets ==> SocketOk(y.s, x) && MockOk(y.s, y.s.sockets[x].mock);
  }

  lemma {:induction false} NothingFromClient(g: Setting, y: Sys, x: ConnId)
    requires KeyInv(g, y) && x !in y.k.mocks
    ensures Requested(From(y.k.out, y.taken), x) == 0 && Data(From(y.k.out, y.taken), x) == []
  {
    hide FromClient, IdentityOk, SessionOk, Announced, KeysAgree, Requested, Data;
    forall i | 0 <= i < |From(y.k.out, y.taken)|
      ensures KnownItem(g, y.k, y.s, From(y.k.out, y.taken)[i])
    {
      assert From(y.k.out, y.taken)[i] == y.k.out[y.taken + i];
      assert FromClient(g, y.k, y.s, y.k.out[y.taken + i], Early(y.k, y.taken + i));
    }
    UnknownIsSilent(g, y.k, y.s, From(y.k.out, y.taken), x);
  }

  lemma {:induction false} NewLink(g: Setting, y: Sys, x: ConnId)
    requires KeyInv(g, y) && RegistryOk(y.s) && Unused(y, x)
    ensures LinkOk(LinkOf(y.(k := NewSocket(y.k, x)), x))
  {
    NothingFromClient(g, y, x);
    UnusedSilence(y, x);
    UnusedIsDeaf(y, x);
    hide Data, Requested, Delivered, SentByApp, Out, From, Mentions, RegistryOk, LinkOk, KeyInv, Hears;
    FreshLinkOk(LinkOf(y.(k := NewSocket(y.k, x)), x));
  }

  /** The client can keep its key and has not been read too far. */
  predicate Sound(y: Sys) {
    SessionOk(y.k) && y.taken <= |y.k.out|
  }

  lemma {:induction false} MoreSame(k: Client, k1: Client, t: Client)
    requires k1.out == k.out
    ensures More(k, t) == More(k1, t)
  {
  }

  lemma {:induction false} AskLink(g: Setting, y: Sys, x: ConnId, portMatches: bool)
    requires LawfulEnv(g.e) && Sound(y) && x in y.k.mocks && !y.k.mocks[x].asked && LinkOk(LinkOf(y, x))
    ensures LinkOk(LinkOf(y.(k := FinishConnect(g.e, y.k, x, portMatches)), x))
  {
    hide TrySend, Data, Requested, More, Out, Delivered, SentByApp, Hears, From, Mentions, LinkOk;
    var k1 := Set(y.k, x, y.k.mocks[x].(asked := true));
    var t := FinishConnect(g.e, y.k, x, portMatches);
    SendMore(g, k1, WsConnect(x), x);
    NoMore(y.k, k1, x);
    MoreSame(y.k, k1, t);
    ClientLink(y, t, x);
    AskedLinkOk(LinkOf(y, x), LinkOf(y.(k := t), x));
  }

  lemma {:induction false} AskedLinkOk(l: Link, l': Link)
    requires LinkOk(l) && !l.m.asked
    requires l' == l.(m := l.m.(asked := true), requested := l'.requested, underway := l.underway + [])
    requires l'.requested == l.requested || (l'.requested == l.requested + 1 && l.key)
    ensures LinkOk(l')
  {
    assert l.underway + [] == l.underway;
  }

  /** A payload on a socket that is still connecting. */
  lemma {:induction false} QueueLink(y: Sys, x: ConnId, data: Payload)
    requires Sound(y) && x in y.k.mocks && LinkOk(LinkOf(y, x)) && y.k.mocks[x].state == Connecting
    ensures var m := y.k.mocks[x];
            LinkOk(LinkOf(y.(k := Set(y.k, x, m.(queue := m.queue + [data], sent := m.sent + [data]))), x))
  {
    hide Data, Requested, More, Out, Delivered, SentByApp, Hears, From, Mentions, LinkOk, SessionOk;
    var m := y.k.mocks[x];
    var t := Set(y.k, x, m.(queue := m.queue + [data], sent := m.sent + [data]));
    NoMore(y.k, t, x);
    ClientLink(y, t, x);
    SentLinkOk(LinkOf(y, x), LinkOf(y.(k := t), x), data);
  }

  /** A payload on an open socket. */
  lemma {:induction false} OpenSendLink(g: Setting, y: Sys, x: ConnId, data: Payload)
    requires LawfulEnv(g.e) && Sound(y) && x in y.k.mocks && LinkOk(LinkOf(y, x)) && y.k.mocks[x].state == Open
    ensures var k1 := Set(y.k, x, y.k.mocks[x].(sent := y.k.mocks[x].sent + [data]));
            var t := TrySend(g.e, k1, WsMessage(x, data));
            x in t.mocks && LinkOk(LinkOf(y.(k := t), x))
  {
    hide TrySend, Data, Requested, More, Out, Delivered, SentByApp, Hears, From, Mentions, LinkOk;
    var k1 := Set(y.k, x, y.k.mocks[x].(sent := y.k.mocks[x].sent + [data]));
    var t := TrySend(g.e, k1, WsMessage(x, data));
    assert SessionOk(k1);
    hide SessionOk;
    OpenHasKey(LinkOf(y, x));
    SendMore(g, k1, WsMessage(x, data), x);
    MoreSame(y.k, k1, t);
    ClientLink(y, t, x);
    SentLinkOk(LinkOf(y, x), LinkOf(y.(k := t), x), data);
  }

  lemma {:induction false} SendLink(g: Setting, y: Sys, x: ConnId, data: Payload)
    requires LawfulEnv(g.e) && Sound(y) && x in y.k.mocks && LinkOk(LinkOf(y, x))
    ensures x in SocketSend(g.e, y.k, x, data).mocks
    ensures LinkOk(LinkOf(y.(k := SocketSend(g.e, y.k, x, data)), x))
  {
    hide TrySend, LinkOf, LinkOk, Sound;
    match y.k.mocks[x].state
    case Connecting =>
      QueueLink(y, x, data);
    case Open =>
      OpenSendLink(g, y, x, data);
    case _ =>
  }

  lemma {:induction false} OpenHasKey(l: Link)
    requires LinkOk(l)
    ensures l.m.state == Open ==> l.key
  {
  }

  /** A payload is queued, or goes under way, or the socket is closed and it is refused. */
  lemma {:induction false} SentLinkOk(l: Link, l': Link, data: Payload)
    requires LinkOk(l)
    requires match l.m.state
             case Connecting => l' == l.(m := l.m.(queue := l.m.queue + [data], sent := l.m.sent + [data]),
                                         underway := l.underway + [])
             case Open => l' == l.(m := l.m.(sent := l.m.sent + [data]),
                                   underway := l.underway + if l.ws == Open then [data] else [])
             case _ => l' == l.(underway := l.underway + [])
    ensures LinkOk(l')
  {
    assert l.underway + [] == l.underway;
    assert l.delivered + l.underway + (l.m.queue + [data]) == l.delivered + l.underway + l.m.queue + [data];
    assert l.delivered + (l.underway + [data]) + [] == l.delivered + l.underway + [] + [data];
  }

  lemma {:induction false} CloseLink(g: Setting, y: Sys, x: ConnId)
    requires LawfulEnv(g.e) && Sound(y) && x in y.k.mocks && LinkOk(LinkOf(y, x))
    ensures LinkOk(LinkOf(y.(k := SocketClose(g.e, y.k, x)), x))
  {
    var m := y.k.mocks[x];
    hide LinkOk, LinkOf;
    if m.state == Closing || m.state == Closed {
      assert SocketClose(g.e, y.k, x) == y.k;
    } else {
      var k1 := Set(y.k, x, m.(state := Closing));
      var t := TrySend(g.e, k1, WsClose(x));
      SendMore(g, k1, WsClose(x), x);
      assert More(y.k, t) == More(k1, t);
      hide TrySend, Data, Requested;
      RetiredLink(y, t.(registered := t.registered - {x}), x);
    }
  }

  /** The client is done with a connection. */
  lemma {:induction false} RetiredLink(y: Sys, t: Client, x: ConnId)
    requires y.taken <= |y.k.out| && y.k.out <= t.out && x in y.k.mocks && x in t.mocks && LinkOk(LinkOf(y, x))
    requires x !in t.registered && (t.mocks[x].state == Closing || t.mocks[x].state == Closed)
    requires t.mocks[x] == y.k.mocks[x].(state := t.mocks[x].state)
    requires Data(More(y.k, t), x) == [] && Requested(More(y.k, t), x) == 0
    ensures LinkOk(LinkOf(y.(k := t), x))
  {
    hide Data, Requested, More, Out, Delivered, SentByApp, Hears, From, Mentions, LinkOk;
    ClientLink(y, t, x);
    ClosedLinkOk(LinkOf(y, x), LinkOf(y.(k := t), x));
  }

  lemma {:induction false} ClosedLinkOk(l: Link, l': Link)
    requires LinkOk(l) && (l'.m.state == Closing || l'.m.state == Closed) && !l'.registered
    requires l' == l.(m := l.m.(state := l'.m.state), registered := false, ws := l'.ws, key := l'.key,
                      underway := l.underway + [])
    ensures LinkOk(l')
  {
    assert l.underway + [] == l.underway;
  }

  // ---- what the client reads ----

  /** The server says that the connection is open: the queue goes under way. */
  lemma {:induction false} OpenedLink(g: Setting, y: Sys, x: ConnId)
    requires LawfulEnv(g.e) && Sound(y) && y.k.key.Some?
    requires x in y.k.mocks && x in y.k.registered && LinkOk(LinkOf(y, x)) && LinkOf(y, x).here
    ensures LinkOk(LinkOf(y.(k := HandleEvent(g.e, y.k, x, Opened)), x))
  {
    hide Flush, Data, Requested, More, Out, Delivered, SentByApp, Hears, From, Mentions, LinkOk;
    var m, t := y.k.mocks[x], HandleEvent(g.e, y.k, x, Opened);
    var k1 := Set(y.k, x, m.(state := Open, queue := []));
    FlushMore(g, k1, x, m.queue, x);
    MoreSame(y.k, k1, t);
    ClientLink(y, t, x);
    OpenedLinkOk(LinkOf(y, x), LinkOf(y.(k := t), x));
  }

  lemma {:induction false} OpenedLinkOk(l: Link, l': Link)
    requires LinkOk(l) && l.registered && l.here && l.key
    requires l' == l.(m := l.m.(state := Open, queue := []),
                      underway := l.underway + if l.ws == Open then l.m.queue else [])
    ensures LinkOk(l')
  {
    assert l.underway + [] == l.underway;
    assert l.delivered + (l.underway + l.m.queue) + [] == l.delivered + l.underway + l.m.queue;
    assert l.delivered + l.underway + [] == l.delivered + l.underway;
  }

  /** The client moves on in what the server sent; `got` is what it took of it for this connection. */
  lemma {:induction false} ReadOn(y: Sys, x: ConnId)
    requires y.read < |Sent(y)| && x in y.k.mocks
    ensures var l, l' := LinkOf(y, x), LinkOf(y.(read := y.read + 1), x);
            && l' == l.(mentioned := l'.mentioned, coming := l'.coming) && (l'.mentioned ==> l.mentioned)
            && l.coming == Data([Sent(y)[y.read]], x) + l'.coming
            && (About(Sent(y)[y.read], x) ==> l.mentioned)
  {
    ChannelMoves(Sent(y), y.read, x);
    hide Out, Data, Requested, Delivered, SentByApp, Hears, From, Mentions;
  }

  lemma {:induction false} PassedBy(l: Link, l': Link)
    requires LinkOk(l) && l' == l.(mentioned := l'.mentioned) && (l'.mentioned ==> l.mentioned)
    ensures LinkOk(l')
  {
  }

  /** What is not about `z` leaves it alone. */
  predicate Aside(k: Client, t: Client, z: ConnId) {
    && z in k.mocks && z in t.mocks && t.mocks[z] == k.mocks[z] && (z in t.registered <==> z in k.registered)
    && t.ws == k.ws && (k.key.Some? ==> t.key.Some?) && k.out <= t.out
    && Data(More(k, t), z) == [] && Requested(More(k, t), z) == 0
  }

  lemma {:induction false} PlainAside(g: Setting, k: Client, m: Msg, z: ConnId)
    requires LawfulEnv(g.e) && SessionOk(k) && z in k.mocks && !((m.WsEvent? || m.WsMessage?) && m.conn == z)
    ensures Aside(k, HandlePlain(g.e, k, m), z)
  {
    var t := HandlePlain(g.e, k, m);
    if m.WsEvent? && m.event == Opened && m.conn in k.registered && m.conn in k.mocks {
      var k1 := Set(k, m.conn, k.mocks[m.conn].(state := Open, queue := []));
      FlushMore(g, k1, m.conn, k.mocks[m.conn].queue, z);
      assert More(k, t) == More(k1, t);
      hide Flush, Data, Requested, More;
    } else {
      NoMore(k, t, z);
    }
  }

  /** The announcement changes the session and sends at most the sealed key. */
  lemma {:induction false} AnnouncementAside(g: Setting, k: Client, w: Wire, key: seq<byte>, ephemeral: seq<byte>,
                                             z: ConnId)
    requires w.ServerKx? && z in k.mocks
    ensures Aside(k, ClientHandles(g, k, w, key, ephemeral), z)
  {
    hide BoxSeal, EarlyChecks, LateChecks;
    var t := ClientHandles(g, k, w, key, ephemeral);
    if |t.out| == |k.out| {
      NoMore(k, t, z);
    } else {
      var it := t.out[|k.out|];
      assert More(k, t) == [it];
      DataOne(it, z);
      RequestedOne(it, z);
    }
  }

  /** The client handles a message that is not about `z`, and moves on. */
  lemma {:induction false} OtherReadLink(y: Sys, t: Client, z: ConnId)
    requires y.taken <= |y.k.out| && y.read < |Sent(y)| && Aside(y.k, t, z) && LinkOk(LinkOf(y, z))
    requires Sent(y)[y.read].plain.Some? ==>
      !(Sent(y)[y.read].plain.value.WsMessage? && Sent(y)[y.read].plain.value.conn == z)
    ensures LinkOk(LinkOf(y.(k := t, read := y.read + 1), z))
  {
    hide LinkOf, LinkOk, Out, Data;
    AsideLink(y, t, z);
    MovesOn(y.(k := t), z);
  }

  /** A payload for `x` is received, or the connection is no longer registered. */
  lemma {:induction false} PayloadReadLink(g: Setting, y: Sys, x: ConnId, data: Payload)
    requires y.taken <= |y.k.out| && y.read < |Sent(y)| && x in y.k.mocks && LinkOk(LinkOf(y, x))
    requires Sent(y)[y.read].plain == Some(WsMessage(x, data))
    ensures LinkOk(LinkOf(y.(k := HandlePlain(g.e, y.k, WsMessage(x, data)), read := y.read + 1), x))
  {
    hide LinkOf, LinkOk, Out;
    ReceivesLink(y, HandlePlain(g.e, y.k, WsMessage(x, data)), x, data);
  }

  lemma {:induction false} ReceivesLink(y: Sys, t: Client, x: ConnId, data: Payload)
    requires y.taken <= |y.k.out| && y.read < |Sent(y)| && x in y.k.mocks && x in t.mocks && LinkOk(LinkOf(y, x))
    requires Sent(y)[y.read].plain == Some(WsMessage(x, data))
    requires t == y.k.(mocks := t.mocks)
    requires t.mocks[x]
          == if x in y.k.registered then y.k.mocks[x].(received := y.k.mocks[x].received + [data]) else y.k.mocks[x]
    ensures LinkOk(LinkOf(y.(k := t, read := y.read + 1), x))
  {
    hide LinkOk, Out, Delivered, SentByApp, Hears, Mentions, Requested, Data, From;
    var y1 := y.(read := y.read + 1);
    ReadOn(y, x);
    DataOne(Sent(y)[y.read], x);
    NoMore(y.k, t, x);
    ClientLink(y1, t, x);
    ReceivedLinkOk(LinkOf(y, x), LinkOf(y.(k := t, read := y.read + 1), x), data);
  }

  lemma {:induction false} ReceivedLinkOk(l: Link, l': Link, data: Payload)
    requires LinkOk(l) && l.mentioned && l.coming == [data] + l'.coming && (l'.mentioned ==> l.mentioned)
    requires l' == l.(m := if l.registered then l.m.(received := l.m.received + [data]) else l.m,
                      underway := l.underway + [], mentioned := l'.mentioned, coming := l'.coming)
    ensures LinkOk(l')
  {
    assert l.underway + [] == l.underway;
    assert l.m.received + ([data] + l'.coming) == l.m.received + [data] + l'.coming;
  }

  /** An event for `x`. */
  lemma {:induction false} EventLink(g: Setting, y: Sys, x: ConnId, event: Event)
    requires LawfulEnv(g.e) && Sound(y) && y.k.key.Some?
    requires x in y.k.mocks && LinkOk(LinkOf(y, x)) && (event == Opened ==> LinkOf(y, x).mentioned)
    ensures x in HandlePlain(g.e, y.k, WsEvent(x, event)).mocks
    ensures LinkOk(LinkOf(y.(k := HandlePlain(g.e, y.k, WsEvent(x, event))), x))
  {
    hide LinkOf, LinkOk, Flush;
    var t := HandlePlain(g.e, y.k, WsEvent(x, event));
    if x in y.k.registered && event == Opened {
      MentionedIsHere(LinkOf(y, x));
      OpenedLink(g, y, x);
    } else if x in y.k.registered && event == ClosedByPeer {
      NoMore(y.k, t, x);
      RetiredLink(y, t, x);
    } else {
      assert y.(k := t) == y;
    }
  }

  lemma {:induction false} MentionedIsHere(l: Link)
    requires LinkOk(l) && l.mentioned
    ensures l.here
  {
  }

  lemma {:induction false} EventReadLink(g: Setting, y: Sys, x: ConnId, event: Event)
    requires LawfulEnv(g.e) && Sound(y) && y.k.key.Some?
    requires y.read < |Sent(y)| && x in y.k.mocks && LinkOk(LinkOf(y, x))
    requires Sent(y)[y.read].plain == Some(WsEvent(x, event))
    ensures x in HandlePlain(g.e, y.k, WsEvent(x, event)).mocks
    ensures LinkOk(LinkOf(y.(k := HandlePlain(g.e, y.k, WsEvent(x, event)), read := y.read + 1), x))
  {
    hide LinkOf, LinkOk, HandlePlain, Out, Data, Sound;
    ReadOn(y, x);
    EventLink(g, y, x, event);
    MovesOn(y.(k := HandlePlain(g.e, y.k, WsEvent(x, event))), x);
  }

  lemma {:induction false} MovesOn(y: Sys, x: ConnId)
    requires x in y.k.mocks && y.read < |Sent(y)| && LinkOk(LinkOf(y, x))
    requires Sent(y)[y.read].plain.Some? ==>
      !(Sent(y)[y.read].plain.value.WsMessage? && Sent(y)[y.read].plain.value.conn == x)
    ensures LinkOk(LinkOf(y.(read := y.read + 1), x))
  {
    hide LinkOf, LinkOk, Out, Data;
    DataOne(Sent(y)[y.read], x);
    ReadOn(y, x);
    var l := LinkOf(y.(read := y.read + 1), x);
    assert [] + l.coming == l.coming;
    PassedBy(LinkOf(y, x), l);
  }

  /** Without a key the client drops what it reads; it has no connection that is made then. */
  lemma {:induction false} DropsRead(y: Sys, x: ConnId)
    requires x in y.k.mocks && y.read < |Sent(y)| && LinkOk(LinkOf(y, x)) && y.k.key.None?
    ensures LinkOk(LinkOf(y.(read := y.read + 1), x))
  {
    hide LinkOk, Out, Data, Requested, Delivered, SentByApp, Hears, From, Mentions;
    ReadOn(y, x);
    UnreadLinkOk(LinkOf(y, x), LinkOf(y.(read := y.read + 1), x));
  }

  lemma {:induction false} UnreadLinkOk(l: Link, l': Link)
    requires LinkOk(l) && !l.key && l' == l.(mentioned := l'.mentioned, coming := l'.coming)
    requires (l'.mentioned ==> l.mentioned) && |l'.coming| <= |l.coming|
    ensures LinkOk(l')
  {
  }
}
