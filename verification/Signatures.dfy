/**
 Signature re-encodings: SEV-SNP components (qvl/src/parseSev.ts), raw ECDSA to DER
 (qvl/src/utils.ts) and DER to raw (qvl/src/x509.ts).
 */
module Signatures {
  import opened Bytes
  import Crl

  // ---- little-endian components of an SEV-SNP report ----

  lemma {:induction false} NatLEConcat(a: seq<byte>, b: seq<byte>)
    ensures NatLE(a + b) == NatLE(a) + Pow256(|a|) * NatLE(b)
  {
    if a == [] {
      assert a + b == b;
    } else {
      assert (a + b)[1..] == a[1..] + b;
      NatLEConcat(a[1..], b);
      assert 256 * (Pow256(|a| - 1) * NatLE(b)) == Pow256(|a|) * NatLE(b);
    }
  }

  lemma {:induction false} NatLEZeros(n: nat)
    ensures NatLE(Zeros(n)) == 0
  {
    if n > 0 {
      assert Zeros(n)[1..] == Zeros(n - 1);
      NatLEZeros(n - 1);
    }
  }

  /** The last 48 bytes of a big-endian number are its remainder. */
  lemma {:induction false} LastBytes(s: seq<byte>, n: nat)
    requires n <= |s|
    ensures NatBE(s[|s| - n..]) == NatBE(s) % Pow256(n)
  {
    var front, back := s[..|s| - n], s[|s| - n..];
    assert s == front + back;
    NatBEConcat(front, back);
    NatBEBound(back);
    Remainder(NatBE(front), Pow256(n), NatBE(back));
  }

  lemma {:induction false} Remainder(q: nat, m: nat, r: nat)
    requires r < m
    ensures (q * m + r) % m == r
  {
    var x := q * m + r;
    var d := q - x / m;
    assert x == (x / m) * m + x % m;
    assert d * m == q * m - (x / m) * m;
    SmallMultiple(d, m, x % m - r);
  }

  lemma {:induction false} SmallMultiple(d: int, m: int, e: int)
    requires m > 0 && d * m == e && 0 - m < e < m
    ensures d == 0 && e == 0
  {
    Scales(d, 1, m);
    Scales(-1, d, m);
  }

  lemma {:induction false} Scales(a: int, b: int, m: int)
    requires m > 0
    ensures a >= b ==> a * m >= b * m
  {
  }

  lemma {:induction false} SmallRemainder(x: nat, m: nat)
    requires x < m
    ensures x % m == x
  {
    Remainder(0, m, x);
  }

  /** The 48 bytes that are produced: cut from the left, or padded there. */
  function RightAligned(reversed: seq<byte>): (out: seq<byte>)
    ensures |out| == 48
  {
    if |reversed| > 48 then reversed[|reversed| - 48..] else Zeros(48 - |reversed|) + reversed
  }

  lemma {:induction false} RightAlignedValue(reversed: seq<byte>)
    ensures NatBE(RightAligned(reversed)) == NatBE(reversed) % Pow256(48)
  {
    hide Pow256, NatBE;
    if |reversed| > 48 {
      LastBytes(reversed, 48);
    } else {
      var zeros := Zeros(48 - |reversed|);
      NatBEConcat(zeros, reversed);
      NatBEZeros(48 - |reversed|);
      NatBEBound(RightAligned(reversed));
      assert 0 * Pow256(|reversed|) == 0;
      SmallRemainder(NatBE(reversed), Pow256(48));
    }
  }

  /**
   `convertSignatureComponent`: trailing zeros are trimmed, the rest is reversed and aligned to 48
   bytes. Read big-endian, the output is the input read little-endian, modulo 2^384.
   */
  method ConvertSignatureComponent(component: seq<byte>) returns (out: seq<byte>)
    ensures |out| == 48
    ensures NatBE(out) == NatLE(component) % Pow256(48)
  {
    hide NatLE, NatBE, Pow256, RightAligned;
    var end := |component|;
    while end > 0 && component[end - 1] == 0
      invariant 0 <= end <= |component|
      invariant component[end..] == Zeros(|component| - end)
    {
      end := end - 1;
    }
    var littleEndian := component[..end];
    NatLEConcat(littleEndian, component[end..]);
    NatLEZeros(|component| - end);
    assert component == littleEndian + component[end..];
    var reversed := new byte[end];
    for i := 0 to end
      invariant forall k :: 0 <= k < i ==> reversed[k] == littleEndian[end - 1 - k]
    {
      reversed[i] := littleEndian[end - 1 - i];
    }
    assert reversed[..] == Reverse(littleEndian);
    NatBEReverse(littleEndian);
    RightAlignedValue(reversed[..]);
    if end > 48 {
      out := reversed[end - 48..];
      assert out == reversed[..][end - 48..];
    } else {
      out := Zeros(48 - end) + reversed[..];
    }
    assert out == RightAligned(reversed[..]) by { UnfoldAligned(reversed[..]); }
  }

  lemma {:induction false} UnfoldAligned(s: seq<byte>)
    ensures RightAligned(s) == if |s| > 48 then s[|s| - 48..] else Zeros(48 - |s|) + s
  {
  }

  // ---- raw ECDSA signatures and DER ----

  function StripZeros(s: seq<byte>): (t: seq<byte>)
    ensures |t| <= |s|
  {
    if s != [] && s[0] == 0 then StripZeros(s[1..]) else s
  }

  /** The content octets of a DER INTEGER: no leading zeros, except one that keeps it positive. */
  function IntegerContent(buf: seq<byte>): (v: seq<byte>)
    ensures 1 <= |v| <= |buf| + 1
  {
    var t := StripZeros(buf);
    var v := if t == [] then [0] else t;
    if v[0] >= 128 then [0] + v else v
  }

  function Element(tag: byte, content: seq<byte>): seq<byte>
    requires |content| < 256
  {
    [tag, |content|] + content
  }

  function EncodeDer(raw: seq<byte>): seq<byte>
    requires |raw| == 64
  {
    Element(0x30, Element(0x02, IntegerContent(raw[..32])) + Element(0x02, IntegerContent(raw[32..])))
  }

  /** The `encodeInteger` closure. */
  method EncodeInteger(buf: seq<byte>) returns (r: seq<byte>)
    requires |buf| <= 32
    ensures r == Element(0x02, IntegerContent(buf))
  {
    hide StripZeros;
    var v := StripLoop(buf);
    if |v| == 0 {
      v := [0];
    }
    if v[0] >= 0x80 {
      v := [0] + v;
    }
    r := [0x02, |v|] + v;
  }

  method EncodeEcdsaSignatureToDer(raw: seq<byte>) returns (der: Option<seq<byte>>)
    ensures der == if |raw| == 64 then Some(EncodeDer(raw)) else None
  {
    if |raw| != 64 {
      return None;
    }
    var r := EncodeInteger(raw[..32]);
    var s := EncodeInteger(raw[32..]);
    assert [0x30, |r| + |s|] + r + s == [0x30, |r + s|] + (r + s);
    return Some([0x30, |r| + |s|] + r + s);
  }

  /** Strip leading zeros, keep the last `width` bytes, pad on the left. */
  function PadTo(width: nat, v: seq<byte>): (r: seq<byte>)
    ensures |r| == width
  {
    var t := StripZeros(v);
    if |t| > width then t[|t| - width..] else Zeros(width - |t|) + t
  }

  method StripLoop(v: seq<byte>) returns (out: seq<byte>)
    ensures out == StripZeros(v)
  {
    out := v;
    while |out| > 0 && out[0] == 0
      invariant StripZeros(out) == StripZeros(v)
      decreases |out|
    {
      out := out[1..];
    }
  }

  /** The `pad` closure. */
  method Pad(width: nat, v: seq<byte>) returns (res: seq<byte>)
    ensures res == PadTo(width, v)
    ensures |res| == width && NatBE(res) == NatBE(v) % Pow256(width)
  {
    PadValue(width, v);
    hide StripZeros, NatBE, Pow256;
    var out := StripLoop(v);
    if |out| > width {
      out := out[|out| - width..];
    }
    assert Zeros(0) + out == out;
    res := Zeros(width - |out|) + out;
  }

  lemma {:induction false} StripValue(v: seq<byte>)
    ensures NatBE(StripZeros(v)) == NatBE(v)
  {
    StripThenPad(v);
    var t := StripZeros(v);
    NatBEConcat(Zeros(|v| - |t|), t);
    NatBEZeros(|v| - |t|);
    hide NatBE, StripZeros, Pow256;
    assert 0 * Pow256(|t|) == 0;
  }

  /** The padded number is the number, modulo the width. */
  lemma {:induction false} PadValue(width: nat, v: seq<byte>)
    ensures NatBE(PadTo(width, v)) == NatBE(v) % Pow256(width)
  {
    var t := StripZeros(v);
    StripValue(v);
    hide NatBE, StripZeros, Pow256;
    if |t| > width {
      LastBytes(t, width);
    } else {
      var zeros := Zeros(width - |t|);
      NatBEConcat(zeros, t);
      NatBEZeros(width - |t|);
      NatBEBound(PadTo(width, v));
      assert 0 * Pow256(|t|) == 0;
      SmallRemainder(NatBE(t), Pow256(width));
    }
  }

  /** The two INTEGER contents of a DER signature, read with the reference element reader. */
  function DerIntegers(der: seq<byte>): Option<(seq<byte>, seq<byte>)> {
    var outer := Crl.TlvAt(der, 0);
    if outer.None? then None
    else
      var r := Crl.TlvAt(der, outer.value.value);
      if r.None? then None
      else
        var s := Crl.TlvAt(der, r.value.next);
        if s.None? then None
        else Some((Crl.Subarray(der, Position(r.value.value), r.value.next),
                   Crl.Subarray(der, Position(s.value.value), s.value.next)))
  }

  function Position(p: int): nat {
    if p < 0 then 0 else p
  }

  function DecodeDer(der: seq<byte>, width: nat): Option<seq<byte>> {
    var ints := DerIntegers(der);
    if ints.None? then None else Some(PadTo(width, ints.value.0) + PadTo(width, ints.value.1))
  }

  lemma {:induction false} StripThenPad(s: seq<byte>)
    ensures Zeros(|s| - |StripZeros(s)|) + StripZeros(s) == s
  {
    if s != [] && s[0] == 0 {
      StripThenPad(s[1..]);
      var n := |s| - |StripZeros(s)|;
      assert Zeros(n) == [0] + Zeros(n - 1);
      assert s == [0] + s[1..];
    }
  }

  lemma {:induction false} StripTwice(s: seq<byte>)
    ensures StripZeros(StripZeros(s)) == StripZeros(s)
  {
    if s != [] && s[0] == 0 {
      StripTwice(s[1..]);
    }
  }

  /** Padding the content octets gives back the 32 bytes. */
  lemma {:induction false} PadContent(buf: seq<byte>)
    ensures PadTo(|buf|, IntegerContent(buf)) == buf
  {
    var t := StripZeros(buf);
    StripThenPad(buf);
    StripTwice(buf);
    if t == [] {
      assert StripZeros([0]) == StripZeros([0][1..]) == [];
    } else if t[0] >= 128 {
      assert ([0] + t)[1..] == t;
    }
  }

  lemma {:induction false} ReadElement(der: seq<byte>, p: nat, tag: byte, content: seq<byte>)
    requires |content| < 128 && p + 2 + |content| <= |der|
    requires der[p..p + 2 + |content|] == Element(tag, content)
    ensures Crl.TlvAt(der, p) == Some(Crl.Tlv(tag, p + 2, p + 2 + |content|))
    ensures der[p + 2..p + 2 + |content|] == content
  {
    var e := der[p..p + 2 + |content|];
    assert der[p] == e[0] && der[p + 1] == e[1] && der[p + 2..p + 2 + |content|] == e[2..];
  }

  /** One SEQUENCE of two INTEGERs, and nothing else. */
  predicate IsSignature(der: seq<byte>) {
    var outer := Crl.TlvAt(der, 0);
    && outer.Some? && outer.value.tag == 48 && outer.value.next == |der|
    && var r := Crl.TlvAt(der, outer.value.value);
       && r.Some? && r.value.tag == 2
       && var s := Crl.TlvAt(der, r.value.next);
          s.Some? && s.value.tag == 2 && s.value.next == |der|
  }

  lemma {:induction false} ReadIntegers(r: seq<byte>, s: seq<byte>)
    requires 1 <= |r| <= 33 && 1 <= |s| <= 33
    ensures DerIntegers(Element(0x30, Element(0x02, r) + Element(0x02, s))) == Some((r, s))
    ensures IsSignature(Element(0x30, Element(0x02, r) + Element(0x02, s)))
  {
    var a, b := Element(0x02, r), Element(0x02, s);
    var der := Element(0x30, a + b);
    assert der[0..2 + |a + b|] == der;
    assert der[2..2 + |a|] == a;
    assert der[2 + |a|..2 + |a| + |b|] == b;
    hide Element, Crl.TlvAt;
    Lengths(r, s);
    ReadElement(der, 0, 0x30, a + b);
    ReadElement(der, 2, 0x02, r);
    ReadElement(der, 2 + |a|, 0x02, s);
  }

  lemma {:induction false} Lengths(r: seq<byte>, s: seq<byte>)
    requires |r| < 128 && |s| < 128
    ensures |Element(0x02, r)| == 2 + |r| && |Element(0x02, s)| == 2 + |s|
    ensures |r| + |s| < 200 ==> |Element(0x30, Element(0x02, r) + Element(0x02, s))| == 6 + |r| + |s|
  {
  }

  /** For every 64-byte raw signature, encoding to DER and padding back is the identity. */
  lemma {:induction false} DerRoundTrip(raw: seq<byte>)
    requires |raw| == 64
    ensures DecodeDer(EncodeDer(raw), 32) == Some(raw)
    ensures IsSignature(EncodeDer(raw))
  {
    var r, s := raw[..32], raw[32..];
    PadContent(r);
    PadContent(s);
    ReadIntegers(IntegerContent(r), IntegerContent(s));
    hide IsSignature;
    hide DerIntegers, Element, IntegerContent, PadTo;
    assert raw == r + s;
  }

  /** What is encoded are the numbers themselves, as positive DER integers in shortest form. */
  lemma {:induction false} ContentValue(buf: seq<byte>)
    ensures NatBE(IntegerContent(buf)) == NatBE(buf)
    ensures IntegerContent(buf)[0] < 128
    ensures |IntegerContent(buf)| > 1 && IntegerContent(buf)[0] == 0 ==> IntegerContent(buf)[1] >= 128
  {
    StripThenPad(buf);
    var t := StripZeros(buf);
    NatBEConcat(Zeros(|buf| - |t|), t);
    NatBEZeros(|buf| - |t|);
    StripTwice(buf);
    if t == [] {
      assert NatBE([0]) == 256 * NatBE([0][..0]);
    } else if t[0] >= 128 {
      NatBEConcat([0], t);
      assert NatBE([0]) == 256 * NatBE([0][..0]);
    }
  }
}
