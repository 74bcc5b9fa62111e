/** What travels through the tunnel (tunnel/src/types.ts). */
module Messages {
  import opened Bytes
  import opened Crypto

  /** Identities, compared only for equality. */
  type Sock = nat
  type ConnId = nat
  type ReqId = nat

  datatype Payload = Text(text: string) | Binary(bytes: seq<byte>)

  datatype ReadyState = Connecting | Open | Closing | Closed

  datatype Event = Opened | ClosedByPeer | Errored

  /** A plaintext message; an HTTP request or response is an opaque payload with an id. */
  datatype Msg =
    | HttpRequest(req: ReqId, content: Payload)
    | HttpResponse(req: ReqId, content: Payload)
    | WsConnect(conn: ConnId)
    | WsMessage(conn: ConnId, data: Payload)
    | WsClose(conn: ConnId)
    | WsEvent(conn: ConnId, event: Event)

  /** A message on the control socket; `Other` is anything that decodes to none of the known forms. */
  datatype Wire =
    | ClientReady
    | ServerKx(x25519PublicKey: seq<byte>, quote: seq<byte>)
    | ClientKx(sealedSymmetricKey: seq<byte>)
    | Enc(nonce: seq<byte>, ciphertext: seq<byte>)
    | Other

  /** A message that was sent, with the history of what was encrypted into it. */
  datatype Item = Item(wire: Wire, plain: Option<Msg>)

  /** The primitives, the CBOR codec, and the random nonces in the order in which they are drawn. */
  datatype Env = Env(suite: Suite, encode: Msg -> seq<byte>, decode: seq<byte> -> Option<Msg>, nonce: nat -> seq<byte>)

  ghost predicate LawfulEnv(e: Env) {
    && Lawful(e.suite)
    && (forall m :: e.decode(e.encode(m)) == Some(m))
    && (forall i :: |e.nonce(i)| == 24)
  }

  /** Encrypting a payload under a key; `None` where a length check throws. */
  function Envelope(e: Env, key: seq<byte>, n: nat, m: Msg): Option<Wire> {
    var ct := SecretboxEasy(e.suite, e.encode(m), e.nonce(n), key);
    if ct.None? then None else Some(Enc(e.nonce(n), ct.value))
  }

  /** Decrypting an envelope; `None` where it throws or is not an envelope. */
  function OpenEnvelope(e: Env, key: seq<byte>, w: Wire): Option<Msg> {
    if !w.Enc? then None
    else
      var pt := SecretboxOpenEasy(e.suite, w.ciphertext, w.nonce, key);
      if pt.None? then None else e.decode(pt.value)
  }

  lemma {:induction false} EnvelopeOpens(e: Env, key: seq<byte>, n: nat, m: Msg)
    requires LawfulEnv(e) && |key| == 32
    ensures Envelope(e, key, n, m).Some? && Envelope(e, key, n, m).value.Enc?
    ensures OpenEnvelope(e, key, Envelope(e, key, n, m).value) == Some(m)
  {
    SecretboxOpens(e.suite, e.encode(m), e.nonce(n), key);
  }

  /** The envelope carries the nonce of draw `n`. */
  predicate DrewNonce(e: Env, n: nat, w: Wire) {
    w.Enc? && w.nonce == e.nonce(n)
  }

  lemma {:induction false} EnvelopeDraws(e: Env, key: seq<byte>, n: nat, m: Msg)
    ensures Envelope(e, key, n, m).Some? ==> DrewNonce(e, n, Envelope(e, key, n, m).value)
  {
    hide SecretboxEasy;
  }

  /** Between `was` and `now` exactly these messages were sent, each in an envelope that opens under the key. */
  predicate Transmits(e: Env, key: seq<byte>, was: seq<Item>, now: seq<Item>, ms: seq<Msg>) {
    && |now| == |was| + |ms| && now[..|was|] == was
    && forall i :: 0 <= i < |ms| ==>
         now[|was| + i].plain == Some(ms[i]) && OpenEnvelope(e, key, now[|was| + i].wire) == Some(ms[i])
  }

  lemma {:induction false} TransmitsMore(e: Env, key: seq<byte>, a: seq<Item>, b: seq<Item>, c: seq<Item>,
                                         ms: seq<Msg>, m: Msg)
    requires Transmits(e, key, a, b, ms) && Transmits(e, key, b, c, [m])
    ensures Transmits(e, key, a, c, ms + [m])
  {
    hide OpenEnvelope;
    assert c[..|a|] == c[..|b|][..|a|];
    assert forall i :: 0 <= i < |b| ==> c[i] == c[..|b|][i];
  }

  /** The payloads for one connection, in order. */
  function Data(items: seq<Item>, x: ConnId): seq<Payload> {
    if items == [] then []
    else
      var p := items[|items| - 1].plain;
      Data(items[..|items| - 1], x) + if p.Some? && p.value.WsMessage? && p.value.conn == x then [p.value.data] else []
  }

  lemma {:induction false} DataConcat(a: seq<Item>, b: seq<Item>, x: ConnId)
    ensures Data(a + b, x) == Data(a, x) + Data(b, x)
  {
    if b == [] {
      assert a + b == a;
    } else {
      var b' := b[..|b| - 1];
      assert (a + b)[..|a + b| - 1] == a + b';
      DataConcat(a, b', x);
    }
  }
}
