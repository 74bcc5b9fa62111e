/** Byte strings, the numbers they denote, and the clipped slices of a `Uint8Array`. */
module Bytes {
  type byte = b: int | 0 <= b < 256

  datatype Option<+T> = None | Some(value: T)

  /** `s.subarray(lo, hi)` for offsets that are not negative: both ends are clipped to the length. */
  function Slice(s: seq<byte>, lo: nat, hi: nat): (r: seq<byte>)
    ensures hi <= |s| && lo <= hi ==> r == s[lo..hi]
    ensures lo <= hi ==> |r| <= hi - lo
  {
    var a := if lo <= |s| then lo else |s|;
    var b := if hi <= |s| then hi else |s|;
    if a <= b then s[a..b] else []
  }

  /** A slice that reaches past the end is cut there, and one that starts behind it is empty. */
  lemma {:induction false} SliceClips(s: seq<byte>, lo: nat, hi: nat)
    ensures lo <= |s| <= hi ==> Slice(s, lo, hi) == s[lo..]
    ensures |s| <= lo || hi <= lo ==> Slice(s, lo, hi) == []
  {
  }

  function Pow256(n: nat): (r: nat)
    ensures r > 0
  {
    if n == 0 then 1 else 256 * Pow256(n - 1)
  }

  /** The number whose least significant byte comes first. */
  function NatLE(s: seq<byte>): nat {
    if s == [] then 0 else s[0] + 256 * NatLE(s[1..])
  }

  /** The number whose most significant byte comes first. */
  function NatBE(s: seq<byte>): nat {
    if s == [] then 0 else 256 * NatBE(s[..|s| - 1]) + s[|s| - 1]
  }

  /** The `width` low bytes of `n`, least significant first. */
  function LE(n: nat, width: nat): (s: seq<byte>)
    ensures |s| == width
  {
    if width == 0 then [] else [n % 256] + LE(n / 256, width - 1)
  }

  function Zeros(n: nat): (s: seq<byte>)
    ensures |s| == n && forall i :: 0 <= i < n ==> s[i] == 0
  {
    seq(n, _ => 0)
  }

  function Reverse(s: seq<byte>): (r: seq<byte>)
    ensures |r| == |s| && forall i :: 0 <= i < |s| ==> r[i] == s[|s| - 1 - i]
  {
    if s == [] then [] else Reverse(s[1..]) + [s[0]]
  }

  lemma {:induction false} NatLEOfLE(n: nat, width: nat)
    requires n < Pow256(width)
    ensures NatLE(LE(n, width)) == n
  {
    if width > 0 {
      NatLEOfLE(n / 256, width - 1);
      assert LE(n, width)[1..] == LE(n / 256, width - 1);
    }
  }

  lemma {:induction false} LEOfNatLE(s: seq<byte>)
    ensures NatLE(s) < Pow256(|s|)
    ensures LE(NatLE(s), |s|) == s
  {
    if s != [] {
      var n, m := NatLE(s), NatLE(s[1..]);
      LEOfNatLE(s[1..]);
      LowByte(s[0], m);
      assert n == s[0] + 256 * m && Pow256(|s|) == 256 * Pow256(|s| - 1);
      assert LE(n, |s|) == [n % 256] + LE(n / 256, |s| - 1);
      hide LE, NatLE, Pow256;
      assert s == [s[0]] + s[1..];
    }
  }

  lemma {:induction false} LowByte(b: byte, m: nat)
    ensures (b + 256 * m) % 256 == b && (b + 256 * m) / 256 == m
  {
  }

  lemma {:induction false} NatBEConcat(a: seq<byte>, b: seq<byte>)
    ensures NatBE(a + b) == NatBE(a) * Pow256(|b|) + NatBE(b)
  {
    if b == [] {
      assert a + b == a;
    } else {
      var b' := b[..|b| - 1];
      NatBEConcat(a, b');
      assert (a + b)[..|a + b| - 1] == a + b';
      assert NatBE(a) * (256 * Pow256(|b'|)) == 256 * (NatBE(a) * Pow256(|b'|));
    }
  }

  lemma {:induction false} NatBEBound(s: seq<byte>)
    ensures NatBE(s) < Pow256(|s|)
  {
    if s != [] {
      NatBEBound(s[..|s| - 1]);
    }
  }

  lemma {:induction false} NatBEZeros(n: nat)
    ensures NatBE(Zeros(n)) == 0
  {
    if n > 0 {
      NatBEZeros(n - 1);
      assert Zeros(n)[..n - 1] == Zeros(n - 1);
    }
  }

  /** Reading a string backwards turns one byte order into the other. */
  lemma {:induction false} NatBEReverse(s: seq<byte>)
    ensures NatBE(Reverse(s)) == NatLE(s)
  {
    if s != [] {
      NatBEReverse(s[1..]);
      assert Reverse(s)[..|s| - 1] == Reverse(s[1..]);
    }
  }

  lemma {:induction false} Middle(a: seq<byte>, b: seq<byte>, c: seq<byte>)
    ensures (a + (b + c))[|a|..|a| + |b|] == b
    ensures (a + (b + c))[|a|..] == b + c
    ensures (a + (b + c))[|a| + |b|..] == c
  {
  }
}
