/** The secret box and the sealed box (tunnel/src/crypto.ts) over abstract primitives with stated laws. */
module Crypto {
  import opened Bytes

  type word = w: int | 0 <= w < 0x1_0000_0000

  /** X25519, the HSalsa20 core, BLAKE2b with 24 bytes of output, and XSalsa20-Poly1305. */
  datatype Suite = Suite(
    publicKey: seq<byte> -> seq<byte>,
    sharedSecret: (seq<byte>, seq<byte>) -> seq<byte>,
    hsalsaCore: (seq<word>, seq<word>) -> seq<word>,
    blake2b24: seq<byte> -> seq<byte>,
    encrypt: (seq<byte>, seq<byte>, seq<byte>) -> seq<byte>,
    decrypt: (seq<byte>, seq<byte>, seq<byte>) -> Option<seq<byte>>)

  /** Diffie-Hellman commutes, decryption undoes encryption, and the sizes are those of the primitives. */
  ghost predicate Lawful(c: Suite) {
    && (forall sk :: |c.publicKey(sk)| == 32)
    && (forall a, b :: c.sharedSecret(a, c.publicKey(b)) == c.sharedSecret(b, c.publicKey(a)))
    && (forall a, b :: |c.sharedSecret(a, b)| == 32)
    && (forall k, n, m :: c.decrypt(k, n, c.encrypt(k, n, m)) == Some(m))
    && (forall k, n, m :: |c.encrypt(k, n, m)| == |m| + 16)
  }

  /** A suite without any secrecy, to show that the laws can be met. */
  function PlainSuite(): Suite {
    Suite(sk => Zeros(32), (a, b) => Zeros(32), (k, n) => k, b => Zeros(24),
          (k, n, m) => Zeros(16) + m, (k, n, ct) => if |ct| < 16 then None else Some(ct[16..]))
  }

  lemma {:induction false} LawsAreConsistent()
    ensures Lawful(PlainSuite())
  {
    forall k: seq<byte>, n: seq<byte>, m: seq<byte>
      ensures PlainSuite().decrypt(k, n, PlainSuite().encrypt(k, n, m)) == Some(m)
    {
      assert (Zeros(16) + m)[16..] == m;
    }
  }

  function WordsOf(bytes: seq<byte>): (words: seq<word>)
    ensures |words| == |bytes| / 4
  {
    if |bytes| < 4 then [] else [Word(bytes[..4])] + WordsOf(bytes[4..])
  }

  function Word(b: seq<byte>): word
    requires |b| == 4
  {
    LEOfNatLE(b);
    NatLE(b)
  }

  function BytesOf(words: seq<word>): (bytes: seq<byte>)
    ensures |bytes| == 4 * |words|
  {
    if words == [] then [] else LE(words[0], 4) + BytesOf(words[1..])
  }

  /** `u32ToU8LE` undoes `u8ToU32LE` on whole words. */
  lemma {:induction false} BytesRoundTrip(bytes: seq<byte>)
    requires |bytes| % 4 == 0
    ensures BytesOf(WordsOf(bytes)) == bytes
  {
    if bytes != [] {
      LEOfNatLE(bytes[..4]);
      BytesRoundTrip(bytes[4..]);
      assert bytes == bytes[..4] + bytes[4..];
    }
  }

  /** And `u8ToU32LE` undoes `u32ToU8LE` on all words. */
  lemma {:induction false} WordsRoundTrip(words: seq<word>)
    ensures WordsOf(BytesOf(words)) == words
  {
    if words != [] {
      var head, tail := LE(words[0], 4), BytesOf(words[1..]);
      assert (head + tail)[..4] == head && (head + tail)[4..] == tail;
      assert Pow256(4) == 0x1_0000_0000;
      NatLEOfLE(words[0], 4);
      WordsRoundTrip(words[1..]);
      assert words == [words[0]] + words[1..];
    }
  }

  lemma {:induction false} WordAt(bytes: seq<byte>, i: nat)
    requires 4 * i + 4 <= |bytes|
    ensures WordsOf(bytes)[i] == Word(bytes[4 * i..4 * i + 4])
  {
    hide Word;
    if i > 0 {
      WordAt(bytes[4..], i - 1);
      assert bytes[4..][4 * (i - 1)..4 * (i - 1) + 4] == bytes[4 * i..4 * i + 4];
    }
  }

  method U8ToU32LE(bytes: seq<byte>) returns (out: seq<word>)
    ensures out == WordsOf(bytes)
    ensures |out| == |bytes| / 4 && forall i :: 0 <= i < |out| ==> out[i] == NatLE(bytes[4 * i..4 * i + 4])
  {
    hide WordsOf, Word;
    var words := new word[|bytes| / 4];
    for i := 0 to words.Length
      invariant forall j :: 0 <= j < i ==> words[j] == WordsOf(bytes)[j]
    {
      WordAt(bytes, i);
      words[i] := Word(bytes[4 * i..4 * i + 4]);
    }
    out := words[..];
    forall i | 0 <= i < |out|
      ensures out[i] == NatLE(bytes[4 * i..4 * i + 4])
    {
      WordAt(bytes, i);
      WordIsNat(bytes[4 * i..4 * i + 4]);
    }
  }

  lemma {:induction false} WordIsNat(b: seq<byte>)
    requires |b| == 4
    ensures Word(b) == NatLE(b)
  {
  }

  method U32ToU8LE(words: seq<word>) returns (out: seq<byte>)
    ensures out == BytesOf(words)
    ensures |out| == 4 * |words| && forall i :: 0 <= i < |words| ==> NatLE(out[4 * i..4 * i + 4]) == words[i]
  {
    WordsRoundTrip(words);
    forall i | 0 <= i < |words|
      ensures NatLE(BytesOf(words)[4 * i..4 * i + 4]) == words[i]
    {
      WordAt(BytesOf(words), i);
      WordIsNat(BytesOf(words)[4 * i..4 * i + 4]);
    }
    hide NatLE, WordsOf;
    out := [];
    assert words[0..] == words;
    for i := 0 to |words|
      invariant out + BytesOf(words[i..]) == BytesOf(words)
    {
      assert words[i..][1..] == words[i + 1..];
      out := out + LE(words[i], 4);
    }
  }

  function HSalsa20(c: Suite, key: seq<byte>, nonce: seq<byte>): Option<seq<byte>> {
    if |key| != 32 || |nonce| != 16 then None
    else Some(BytesOf(c.hsalsaCore(WordsOf(key), WordsOf(nonce))))
  }

  /** `None` is the thrown length or decryption error. */
  function SecretboxEasy(c: Suite, plaintext: seq<byte>, nonce: seq<byte>, key: seq<byte>): Option<seq<byte>> {
    if |nonce| != 24 || |key| != 32 then None else Some(c.encrypt(key, nonce, plaintext))
  }

  function SecretboxOpenEasy(c: Suite, ciphertext: seq<byte>, nonce: seq<byte>, key: seq<byte>): Option<seq<byte>> {
    if |nonce| != 24 || |key| != 32 then None else c.decrypt(key, nonce, ciphertext)
  }

  /** `ephemeral` is the secret of the fresh key pair. */
  function BoxSeal(c: Suite, message: seq<byte>, recipient: seq<byte>, ephemeral: seq<byte>): Option<seq<byte>> {
    if |recipient| != 32 then None
    else
      var ephPk := c.publicKey(ephemeral);
      var preKey := HSalsa20(c, Slice(c.sharedSecret(ephemeral, recipient), 0, 32), Zeros(16));
      if preKey.None? then None
      else Some(ephPk + c.encrypt(preKey.value, c.blake2b24(ephPk + recipient), message))
  }

  function BoxSealOpen(c: Suite, sealed: seq<byte>, recipient: seq<byte>, secret: seq<byte>): Option<seq<byte>> {
    if |recipient| != 32 || |secret| != 32 || |sealed| < 48 then None
    else
      var ephPk, ct := sealed[..32], sealed[32..];
      var preKey := HSalsa20(c, Slice(c.sharedSecret(secret, ephPk), 0, 32), Zeros(16));
      if preKey.None? then None
      else c.decrypt(preKey.value, c.blake2b24(ephPk + recipient), ct)
  }

  /**
   The recipient opens what was sealed to it, whatever the ephemeral key; the sender derives the key the other way
   round.
   */
  lemma {:induction false} SealOpens(c: Suite, message: seq<byte>, secret: seq<byte>, ephemeral: seq<byte>)
    requires Lawful(c) && |secret| == 32
    ensures BoxSeal(c, message, c.publicKey(secret), ephemeral).Some?
    ensures BoxSealOpen(c, BoxSeal(c, message, c.publicKey(secret), ephemeral).value, c.publicKey(secret), secret)
         == Some(message)
  {
    hide WordsOf, BytesOf;
    var pk, ephPk := c.publicKey(secret), c.publicKey(ephemeral);
    var sealed := BoxSeal(c, message, pk, ephemeral).value;
    assert c.sharedSecret(ephemeral, pk) == c.sharedSecret(secret, ephPk);
    assert |ephPk| == 32;
    assert sealed[..32] == ephPk;
  }

  lemma {:induction false} SecretboxOpens(c: Suite, plaintext: seq<byte>, nonce: seq<byte>, key: seq<byte>)
    requires Lawful(c) && |nonce| == 24 && |key| == 32
    ensures SecretboxEasy(c, plaintext, nonce, key).Some?
    ensures SecretboxOpenEasy(c, SecretboxEasy(c, plaintext, nonce, key).value, nonce, key) == Some(plaintext)
  {
  }

  /** What is sealed: the ephemeral public key, and the message under a key from the shared secret and zeros. */
  lemma {:induction false} SealedForm(c: Suite, message: seq<byte>, recipient: seq<byte>, ephemeral: seq<byte>)
    requires Lawful(c)
    ensures BoxSeal(c, message, recipient, ephemeral)
         == if |recipient| != 32 then None
            else
              var shared := WordsOf(c.sharedSecret(ephemeral, recipient));
              Some(c.publicKey(ephemeral)
                   + c.encrypt(BytesOf(c.hsalsaCore(shared, [0, 0, 0, 0])),
                               c.blake2b24(c.publicKey(ephemeral) + recipient), message))
  {
    var shared := c.sharedSecret(ephemeral, recipient);
    assert |shared| == 32;
    assert Slice(shared, 0, 32) == shared[..32] == shared;
    ZeroWords();
    hide BytesOf, WordsOf;
  }

  lemma {:induction false} ZeroWords()
    ensures WordsOf(Zeros(16)) == [0, 0, 0, 0]
  {
    assert forall i :: 0 <= i < 4 ==> Zeros(16)[4 * i..4 * i + 4] == [0, 0, 0, 0];
    NoNumber([0, 0, 0, 0]);
    hide WordsOf, NatLE;
    forall i | 0 <= i < 4
      ensures WordsOf(Zeros(16))[i] == 0
    {
      WordAt(Zeros(16), i);
      WordIsNat([0, 0, 0, 0]);
    }
  }

  lemma {:induction false} NoNumber(s: seq<byte>)
    requires forall i :: 0 <= i < |s| ==> s[i] == 0
    ensures NatLE(s) == 0
  {
    if s != [] {
      NoNumber(s[1..]);
    }
  }

  /** Keys of 32 bytes and nonces of 24 are demanded everywhere, and 48 bytes of a sealed message. */
  lemma {:induction false} LengthsAreChecked(c: Suite, m: seq<byte>, nonce: seq<byte>, key: seq<byte>,
                                             secret: seq<byte>)
    ensures SecretboxEasy(c, m, nonce, key).None? <==> |nonce| != 24 || |key| != 32
    ensures |nonce| != 24 || |key| != 32 ==> SecretboxOpenEasy(c, m, nonce, key).None?
    ensures |key| != 32 || |secret| != 32 || |m| < 48 ==> BoxSealOpen(c, m, key, secret).None?
  {
    hide HSalsa20;
  }
}
