/** Hexadecimal text and the serial-number normal form (qvl/src/utils.ts, qvl/src/x509.ts). */
module Hex {
  import opened Bytes

  const UPPER := "0123456789ABCDEF"
  const LOWER := "0123456789abcdef"

  predicate IsAlphabet(digits: string) {
    |digits| == 16 && forall i, j :: 0 <= i < j < 16 ==> digits[i] != digits[j]
  }

  /** Two digits a byte, most significant first. */
  function Encode(digits: string, s: seq<byte>): (t: string)
    requires |digits| == 16
    ensures |t| == 2 * |s|
    ensures forall i :: 0 <= i < |t| ==> t[i] in digits
  {
    if s == [] then ""
    else Encode(digits, s[..|s| - 1]) + [digits[s[|s| - 1] / 16], digits[s[|s| - 1] % 16]]
  }

  function HexUpper(s: seq<byte>): (t: string)
    ensures |t| == 2 * |s|
    ensures forall i :: 0 <= i < |t| ==> t[i] in UPPER
  {
    Encode(UPPER, s)
  }

  lemma {:induction false} EncodeInjective(digits: string, a: seq<byte>, b: seq<byte>)
    requires IsAlphabet(digits) && Encode(digits, a) == Encode(digits, b)
    ensures a == b
  {
    if a == [] {
      assert |Encode(digits, b)| == 0;
    } else {
      var a', b' := a[..|a| - 1], b[..|b| - 1];
      var x, y := a[|a| - 1], b[|b| - 1];
      var s, t := Encode(digits, a), Encode(digits, b);
      assert s[..|s| - 2] == Encode(digits, a') && t[..|t| - 2] == Encode(digits, b');
      assert digits[x / 16] == s[|s| - 2] == digits[y / 16];
      assert digits[x % 16] == s[|s| - 1] == digits[y % 16];
      EncodeInjective(digits, a', b');
      assert a == a' + [x] && b == b' + [y];
    }
  }

  function DigitValue(c: char): (v: nat)
    ensures v < 16
  {
    if '0' <= c <= '9' then c as int - '0' as int
    else if 'A' <= c <= 'F' then c as int - 'A' as int + 10
    else 0
  }

  predicate IsUpperHex(c: char) {
    '0' <= c <= '9' || 'A' <= c <= 'F'
  }

  predicate AllUpperHex(s: string) {
    forall i :: 0 <= i < |s| ==> IsUpperHex(s[i])
  }

  function Value(s: string): nat {
    if s == "" then 0 else 16 * Value(s[..|s| - 1]) + DigitValue(s[|s| - 1])
  }

  /** The replacement of `/^0+(?=[0-9A-F])/` by nothing: leading zeros go, but one digit stays. */
  function StripZeros(s: string): string {
    if |s| >= 2 && s[0] == '0' && IsUpperHex(s[1]) then StripZeros(s[1..]) else s
  }

  function ToUpper(c: char): char {
    if 'a' <= c <= 'f' then (c as int - 'a' as int + 'A' as int) as char else c
  }

  /** Keep the hexadecimal characters, in upper case. */
  function KeepHex(s: string): string {
    if s == "" then ""
    else if IsUpperHex(ToUpper(s[0])) then [ToUpper(s[0])] + KeepHex(s[1..])
    else KeepHex(s[1..])
  }

  function NormalizeSerialHex(input: string): string {
    StripZeros(KeepHex(input))
  }

  lemma {:induction false} UpperIsHex(i: nat)
    requires i < 16
    ensures IsUpperHex(UPPER[i]) && DigitValue(UPPER[i]) == i
  {
  }

  lemma {:induction false} ValueTwo(u: string, c: char, d: char)
    ensures Value(u + [c, d]) == 256 * Value(u) + 16 * DigitValue(c) + DigitValue(d)
  {
    assert (u + [c, d])[..|u| + 1] == u + [c];
    assert (u + [c])[..|u|] == u;
  }

  lemma {:induction false} ValueOfHex(s: seq<byte>)
    ensures Value(HexUpper(s)) == NatBE(s)
    ensures AllUpperHex(HexUpper(s))
  {
    if s != [] {
      var s', x := s[..|s| - 1], s[|s| - 1];
      ValueOfHex(s');
      UpperIsHex(x / 16);
      UpperIsHex(x % 16);
      ValueTwo(HexUpper(s'), UPPER[x / 16], UPPER[x % 16]);
    }
  }

  lemma {:induction false} ValueDropZero(s: string)
    requires s != "" && s[0] == '0'
    ensures Value(s[1..]) == Value(s)
  {
    if |s| > 1 {
      ValueDropZero(s[..|s| - 1]);
      assert s[1..][..|s| - 2] == s[..|s| - 1][1..];
    }
  }

  predicate Canonical(s: string) {
    AllUpperHex(s) && (|s| >= 2 ==> s[0] != '0')
  }

  lemma {:induction false} StripCanonical(s: string)
    requires AllUpperHex(s)
    ensures Canonical(StripZeros(s)) && Value(StripZeros(s)) == Value(s)
    ensures StripZeros(s) == "" <==> s == ""
  {
    if |s| >= 2 && s[0] == '0' {
      ValueDropZero(s);
      StripCanonical(s[1..]);
    }
  }

  lemma {:induction false} CanonicalPositive(s: string)
    requires Canonical(s) && s != "" && s[0] != '0'
    ensures Value(s) > 0
  {
    if |s| > 1 {
      CanonicalPositive(s[..|s| - 1]);
    }
  }

  /** Equal numbers have equal digits once leading zeros are gone. */
  lemma {:induction false} CanonicalUnique(s: string, t: string)
    requires Canonical(s) && Canonical(t) && s != "" && t != "" && Value(s) == Value(t)
    ensures s == t
  {
    var s', t' := s[..|s| - 1], t[..|t| - 1];
    assert IsUpperHex(s[|s| - 1]) && IsUpperHex(t[|t| - 1]);
    assert s == s' + [s[|s| - 1]] && t == t' + [t[|t| - 1]];
    if s' != "" {
      CanonicalPositive(s');
    }
    if t' != "" {
      CanonicalPositive(t');
    }
    if s' != "" && t' != "" {
      CanonicalUnique(s', t');
    }
  }

  lemma {:induction false} KeepAll(s: string)
    requires AllUpperHex(s)
    ensures KeepHex(s) == s
  {
    if s != "" {
      KeepAll(s[1..]);
      assert IsUpperHex(s[0]) && ToUpper(s[0]) == s[0];
    }
  }

  /**
   Two serials have the same normal form exactly when they are the same unsigned number
   (an empty serial, which DER does not allow, equals only another empty one).
   */
  lemma {:induction false} SerialsAgreeIff(a: seq<byte>, b: seq<byte>)
    ensures NormalizeSerialHex(HexUpper(a)) == StripZeros(HexUpper(a))
    ensures StripZeros(HexUpper(a)) == StripZeros(HexUpper(b))
       <==> NatBE(a) == NatBE(b) && (a == [] <==> b == [])
  {
    var s, t := HexUpper(a), HexUpper(b);
    ValueOfHex(a);
    ValueOfHex(b);
    KeepAll(s);
    StripCanonical(s);
    StripCanonical(t);
    if NatBE(a) == NatBE(b) && a != [] && b != [] {
      CanonicalUnique(StripZeros(s), StripZeros(t));
    }
  }

  lemma {:induction false} KeepHexConcat(s: string, t: string)
    ensures KeepHex(s + t) == KeepHex(s) + KeepHex(t)
  {
    if s == "" {
      assert s + t == t;
    } else {
      assert (s + t)[1..] == s[1..] + t;
      KeepHexConcat(s[1..], t);
    }
  }

  lemma {:induction false} LowerDigit(i: nat)
    requires i < 16
    ensures KeepHex([LOWER[i]]) == [UPPER[i]]
  {
    assert [LOWER[i]][1..] == "";
    assert ToUpper(LOWER[i]) == UPPER[i];
  }

  lemma {:induction false} LowerKept(s: seq<byte>)
    ensures KeepHex(Encode(LOWER, s)) == HexUpper(s)
  {
    if s != [] {
      var x := s[|s| - 1];
      var front, c, d := Encode(LOWER, s[..|s| - 1]), LOWER[x / 16], LOWER[x % 16];
      LowerKept(s[..|s| - 1]);
      LowerDigit(x / 16);
      LowerDigit(x % 16);
      KeepHexConcat(front, [c, d]);
      KeepHexConcat([c], [d]);
      assert [c] + [d] == [c, d];
    }
  }

  lemma {:induction false} DigitIsListed(c: char)
    requires IsUpperHex(ToUpper(c))
    ensures c in UPPER || c in LOWER
  {
    var v := DigitValue(ToUpper(c));
    assert UPPER[v] == c || LOWER[v] == c;
  }

  lemma {:induction false} SeparatorDropped(t: string, u: string, separator: char)
    requires !IsUpperHex(ToUpper(separator))
    ensures KeepHex(t + [separator] + u) == KeepHex(t + u)
  {
    assert [separator][1..] == "";
    assert KeepHex([separator]) == "";
    KeepHexConcat(t + [separator], u);
    KeepHexConcat(t, [separator]);
    KeepHexConcat(t, u);
    hide KeepHex;
  }

  /** The normal form does not depend on the case of the digits, nor on separators between them. */
  lemma {:induction false} NormalFormOfText(s: seq<byte>, t: string, u: string, separator: char)
    requires separator !in UPPER && separator !in LOWER
    ensures NormalizeSerialHex(Encode(LOWER, s)) == NormalizeSerialHex(HexUpper(s)) == StripZeros(HexUpper(s))
    ensures NormalizeSerialHex(t + [separator] + u) == NormalizeSerialHex(t + u)
  {
    hide UPPER, LOWER, StripZeros, KeepHex, HexUpper, Encode, ToUpper, IsUpperHex;
    LowerKept(s);
    SerialsAgreeIff(s, s);
    if IsUpperHex(ToUpper(separator)) {
      DigitIsListed(separator);
    }
    SeparatorDropped(t, u, separator);
  }
}
