/** The hypotheses about primitives, codec and nonces can be met. */
module Consistency {
  import opened Bytes
  import opened Crypto
  import opened Messages

  /** A number in unary, so that no code is the beginning of another. */
  function Unary(n: nat): (s: seq<byte>)
    ensures |s| == n + 1
  {
    if n == 0 then [0] else [1] + Unary(n - 1)
  }

  lemma {:induction false} UnaryPrefix(a: nat, b: nat, s: seq<byte>, t: seq<byte>)
    requires Unary(a) + s == Unary(b) + t
    ensures a == b && s == t
  {
    var u, v := Unary(a) + s, Unary(b) + t;
    assert u[0] == Unary(a)[0] && v[0] == Unary(b)[0];
    if a > 0 && b > 0 {
      assert u[1..] == Unary(a - 1) + s && v[1..] == Unary(b - 1) + t;
      UnaryPrefix(a - 1, b - 1, s, t);
    } else {
      assert u[1..] == s && v[1..] == t;
    }
  }

  function Chars(s: string): seq<byte> {
    if s == [] then [] else Unary(s[0] as int) + Chars(s[1..])
  }

  lemma {:induction false} CharsInjective(s: string, t: string)
    requires Chars(s) == Chars(t)
    ensures s == t
  {
    if s != [] && t != [] {
      UnaryPrefix(s[0] as int, t[0] as int, Chars(s[1..]), Chars(t[1..]));
      CharsInjective(s[1..], t[1..]);
      assert s == [s[0]] + s[1..] && t == [t[0]] + t[1..];
    }
  }

  function PayloadBytes(p: Payload): seq<byte> {
    match p
    case Text(text) => [0] + Chars(text)
    case Binary(bytes) => [1] + bytes
  }

  lemma {:induction false} PayloadInjective(p: Payload, q: Payload)
    requires PayloadBytes(p) == PayloadBytes(q)
    ensures p == q
  {
    var u, v := PayloadBytes(p), PayloadBytes(q);
    assert u[0] == v[0] && u[1..] == v[1..];
    if p.Text? {
      assert u[1..] == Chars(p.text) && v[1..] == Chars(q.text);
      CharsInjective(p.text, q.text);
    } else {
      assert u[1..] == p.bytes && v[1..] == q.bytes;
    }
  }

  function Rank(event: Event): byte {
    match event
    case Opened => 0
    case ClosedByPeer => 1
    case Errored => 2
  }

  function Kind(m: Msg): nat {
    match m
    case HttpRequest(_, _) => 0
    case HttpResponse(_, _) => 1
    case WsConnect(_) => 2
    case WsMessage(_, _) => 3
    case WsClose(_) => 4
    case WsEvent(_, _) => 5
  }

  function Id(m: Msg): nat {
    if m.HttpRequest? || m.HttpResponse? then m.req else m.conn
  }

  function Body(m: Msg): seq<byte> {
    match m
    case HttpRequest(_, content) => PayloadBytes(content)
    case HttpResponse(_, content) => PayloadBytes(content)
    case WsMessage(_, data) => PayloadBytes(data)
    case WsEvent(_, event) => [Rank(event)]
    case _ => []
  }

  function Code(m: Msg): seq<byte> {
    Unary(Kind(m)) + (Unary(Id(m)) + Body(m))
  }

  lemma {:induction false} CodeInjective(m: Msg, n: Msg)
    requires Code(m) == Code(n)
    ensures m == n
  {
    hide PayloadBytes, Unary;
    UnaryPrefix(Kind(m), Kind(n), Unary(Id(m)) + Body(m), Unary(Id(n)) + Body(n));
    UnaryPrefix(Id(m), Id(n), Body(m), Body(n));
    match m
    case HttpRequest(_, content) => PayloadInjective(content, n.content);
    case HttpResponse(_, content) => PayloadInjective(content, n.content);
    case WsMessage(_, data) => PayloadInjective(data, n.data);
    case WsEvent(_, event) => assert [Rank(event)][0] == [Rank(n.event)][0];
    case _ =>
  }

  predicate Codes(m: Msg, b: seq<byte>) {
    Code(m) == b
  }

  ghost function Uncode(b: seq<byte>): Option<Msg> {
    if exists m :: Codes(m, b) then var m :| Codes(m, b); Some(m) else None
  }

  lemma {:induction false} UncodeUndoes(m: Msg)
    ensures Uncode(Code(m)) == Some(m)
  {
    assert Codes(m, Code(m));
    var n := Uncode(Code(m)).value;
    assert Codes(n, Code(m));
    CodeInjective(n, m);
  }

  /** A suite without secrecy, a unary codec and constant nonces meet all the laws. */
  lemma {:induction false} LawsCanBeMet()
    ensures exists e :: LawfulEnv(e)
  {
    LawsAreConsistent();
    hide PlainSuite, Code, Uncode, Lawful;
    var e := Env(PlainSuite(), m => Code(m), b => Uncode(b), _ => Zeros(24));
    forall m
      ensures e.decode(e.encode(m)) == Some(m)
    {
      UncodeUndoes(m);
    }
    assert LawfulEnv(e);
  }
}
