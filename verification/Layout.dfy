/**
 Fixed binary layouts, decoded field by field from the front of a buffer: an integer field
 fails on a short buffer, a byte field is cut short by it.
 */
module Layout {
  import opened Bytes

  /** `Num` is a little-endian unsigned integer, `Buf` a run of bytes. */
  datatype Field = Num(width: nat) | Buf(width: nat)

  datatype Value = N(n: nat) | B(b: seq<byte>)

  predicate Shaped(l: seq<Field>, vs: seq<Value>) {
    |l| == |vs| && forall i :: 0 <= i < |l| ==> (l[i].Num? <==> vs[i].N?)
  }

  function Size(l: seq<Field>): nat {
    if l == [] then 0 else l[0].width + Size(l[1..])
  }

  lemma {:induction false} SizeConcat(a: seq<Field>, b: seq<Field>)
    ensures Size(a + b) == Size(a) + Size(b)
  {
    if a == [] {
      assert a + b == b;
    } else {
      assert (a + b)[1..] == a[1..] + b;
      SizeConcat(a[1..], b);
    }
  }

  function DecodeField(f: Field, bytes: seq<byte>): Value {
    if f.Num? then N(NatLE(bytes)) else B(bytes)
  }

  /** `None` stands for the range error of an integer read past the end. */
  function Decode(l: seq<Field>, s: seq<byte>): (r: Option<seq<Value>>)
    ensures r.Some? ==> Shaped(l, r.value)
  {
    if l == [] then Some([])
    else if l[0].Num? && |s| < l[0].width then None
    else
      var head := Slice(s, 0, l[0].width);
      var rest := Decode(l[1..], s[|head|..]);
      if rest.None? then None else Some([DecodeField(l[0], head)] + rest.value)
  }

  predicate Fits(l: seq<Field>, vs: seq<Value>) {
    |l| == |vs| && forall i :: 0 <= i < |l| ==> FitsField(l[i], vs[i])
  }

  predicate FitsField(f: Field, v: Value) {
    match f
    case Num(w) => v.N? && v.n < Pow256(w)
    case Buf(w) => v.B? && |v.b| == w
  }

  function EncodeField(f: Field, v: Value): (s: seq<byte>)
    requires FitsField(f, v)
    ensures |s| == f.width
  {
    if f.Num? then LE(v.n, f.width) else v.b
  }

  function Encode(l: seq<Field>, vs: seq<Value>): (s: seq<byte>)
    requires Fits(l, vs)
    ensures |s| == Size(l)
  {
    if l == [] then [] else EncodeField(l[0], vs[0]) + Encode(l[1..], vs[1..])
  }

  lemma {:induction false} FieldRoundTrip(f: Field, v: Value)
    requires FitsField(f, v)
    ensures DecodeField(f, EncodeField(f, v)) == v
  {
    if f.Num? {
      NatLEOfLE(v.n, f.width);
    }
  }

  lemma {:induction false} DecodeCons(l: seq<Field>, head: seq<byte>, tail: seq<byte>)
    requires l != [] && |head| == l[0].width && Decode(l[1..], tail).Some?
    ensures Decode(l, head + tail) == Some([DecodeField(l[0], head)] + Decode(l[1..], tail).value)
  {
    hide DecodeField, Shaped;
    assert (head + tail)[..|head|] == head && (head + tail)[|head|..] == tail;
  }

  lemma {:induction false} EncodeCons(l: seq<Field>, vs: seq<Value>, rest: seq<byte>)
    requires Fits(l, vs) && l != []
    ensures FitsField(l[0], vs[0]) && Fits(l[1..], vs[1..]) && [vs[0]] + vs[1..] == vs
    ensures Encode(l, vs) + rest == EncodeField(l[0], vs[0]) + (Encode(l[1..], vs[1..]) + rest)
  {
    hide FitsField, EncodeField, Size;
  }

  lemma {:induction false} NothingToDecode(rest: seq<byte>)
    ensures Decode([], rest) == Some([])
  {
  }

  /** Decoding undoes encoding, whatever bytes follow. */
  lemma {:induction false} RoundTrip(l: seq<Field>, vs: seq<Value>, rest: seq<byte>)
    requires Fits(l, vs)
    ensures Decode(l, Encode(l, vs) + rest) == Some(vs)
  {
    if l == [] {
      NothingToDecode(Encode(l, vs) + rest);
    } else {
      EncodeCons(l, vs, rest);
      hide Decode, DecodeField, Encode, EncodeField, Fits, FitsField, Size, Shaped;
      RoundTrip(l[1..], vs[1..], rest);
      FieldRoundTrip(l[0], vs[0]);
      DecodeCons(l, EncodeField(l[0], vs[0]), Encode(l[1..], vs[1..]) + rest);
    }
  }

  /** A buffer that is long enough always decodes, and only its first `Size(l)` bytes count. */
  lemma {:induction false} Local(l: seq<Field>, s: seq<byte>)
    requires |s| >= Size(l)
    ensures Decode(l, s).Some? && Decode(l, s) == Decode(l, s[..Size(l)])
  {
    if l != [] {
      var w := l[0].width;
      var t := s[..Size(l)];
      Local(l[1..], s[w..]);
      assert Slice(s, 0, w) == Slice(t, 0, w);
      assert t[w..] == s[w..][..Size(l[1..])];
    }
  }

  /** Where every field begins, and where the last one ends. */
  predicate Offsets(l: seq<Field>, at: seq<nat>) {
    |at| == |l| + 1 && at[0] == 0 && forall k :: 0 <= k < |l| ==> at[k + 1] == at[k] + l[k].width
  }

  lemma {:induction false} SizeSnoc(l: seq<Field>, k: nat)
    requires k < |l|
    ensures Size(l[..k + 1]) == Size(l[..k]) + l[k].width
  {
    assert l[..k + 1] == l[..k] + [l[k]];
    SizeConcat(l[..k], [l[k]]);
    assert Size([l[k]]) == l[k].width + Size([]);
  }

  lemma {:induction false} OffsetsAreSizes(l: seq<Field>, at: seq<nat>, k: nat)
    requires Offsets(l, at) && k <= |l|
    ensures Size(l[..k]) == at[k]
  {
    hide Size;
    if k > 0 {
      OffsetsAreSizes(l, at, k - 1);
      SizeSnoc(l, k - 1);
    } else {
      NoSize(l);
    }
  }

  lemma {:induction false} NoSize(l: seq<Field>)
    ensures Size(l[..0]) == 0
  {
  }

  /** The bytes of field `k`; fewer at the end of a short buffer. */
  function FieldBytes(l: seq<Field>, s: seq<byte>, k: nat): seq<byte>
    requires k < |l|
  {
    Slice(s, Size(l[..k]), Size(l[..k + 1]))
  }

  /** A value holds the given bytes: as a little-endian number, or as they are. */
  predicate Carries(v: Value, bytes: seq<byte>) {
    if v.N? then v.n == NatLE(bytes) else v.b == bytes
  }

  lemma {:induction false} SizeCons(l: seq<Field>, k: nat)
    requires 0 < k <= |l|
    ensures Size(l[..k]) == l[0].width + Size(l[1..][..k - 1])
  {
    var front := l[..k];
    assert front[0] == l[0] && front[1..] == l[1..][..k - 1];
  }

  lemma {:induction false} SliceOfRest(s: seq<byte>, w: nat, lo: nat, hi: nat)
    requires lo <= hi
    ensures Slice(s[|Slice(s, 0, w)|..], lo, hi) == Slice(s, w + lo, w + hi)
  {
  }

  lemma {:induction false} FieldOfRest(l: seq<Field>, s: seq<byte>, k: nat)
    requires 0 < k < |l|
    ensures FieldBytes(l, s, k) == FieldBytes(l[1..], s[|Slice(s, 0, l[0].width)|..], k - 1)
  {
    SizeCons(l, k);
    SizeCons(l, k + 1);
    SizeSnoc(l[1..], k - 1);
    hide Size;
    assert l[1..][..k] == l[1..][..k - 1 + 1];
    SliceOfRest(s, l[0].width, Size(l[1..][..k - 1]), Size(l[1..][..k]));
  }

  /** Whatever the buffer: a field that is decoded holds the bytes at its offset. */
  lemma {:induction false} FieldAt(l: seq<Field>, s: seq<byte>, k: nat)
    requires k < |l| && Decode(l, s).Some?
    ensures Carries(Decode(l, s).value[k], FieldBytes(l, s, k))
  {
    var rest := s[|Slice(s, 0, l[0].width)|..];
    if k > 0 {
      FieldOfRest(l, s, k);
      FieldAt(l[1..], rest, k - 1);
    } else {
      SizeSnoc(l, 0);
    }
  }

  /** Every value holds the bytes between its offsets. */
  ghost predicate FieldsAt(at: seq<nat>, vs: seq<Value>, s: seq<byte>) {
    |at| == |vs| + 1 && forall k :: 0 <= k < |vs| ==> Carries(vs[k], Slice(s, at[k], at[k + 1]))
  }

  lemma {:induction false} AllFieldsAt(l: seq<Field>, at: seq<nat>, s: seq<byte>)
    requires Offsets(l, at) && Decode(l, s).Some?
    ensures FieldsAt(at, Decode(l, s).value, s)
  {
    hide Decode, Size, Carries;
    forall k | 0 <= k < |l|
      ensures Carries(Decode(l, s).value[k], Slice(s, at[k], at[k + 1]))
    {
      FieldAt(l, s, k);
      OffsetsAreSizes(l, at, k);
      OffsetsAreSizes(l, at, k + 1);
    }
  }

  /** A buffer decodes if and only if every integer field lies inside it. */
  lemma {:induction false} DecodesIff(l: seq<Field>, s: seq<byte>)
    requires forall k :: 0 <= k < |l| ==> l[k].width > 0
    ensures Decode(l, s).Some? <==> forall k :: 0 <= k < |l| && l[k].Num? ==> Size(l[..k + 1]) <= |s|
  {
    if l != [] {
      var rest := s[|Slice(s, 0, l[0].width)|..];
      DecodesIff(l[1..], rest);
      SizeSnoc(l, 0);
      forall k | 0 < k < |l| && l[k].Num?
        ensures Size(l[..k + 1]) <= |s| <==> Size(l[1..][..k]) <= |rest|
      {
        SizeCons(l, k + 1);
        SizeSnoc(l[1..], k - 1);
      }
      assert forall k :: 0 < k < |l| ==> l[1..][k - 1] == l[k];
    }
  }

  lemma {:induction false} DecodesAtIff(l: seq<Field>, at: seq<nat>, s: seq<byte>)
    requires Offsets(l, at) && forall k :: 0 <= k < |l| ==> l[k].width > 0
    ensures Decode(l, s).Some? <==> forall k :: 0 <= k < |l| && l[k].Num? ==> at[k + 1] <= |s|
    ensures Size(l) == at[|l|]
  {
    DecodesIff(l, s);
    hide Decode, Size;
    forall k | 0 <= k <= |l|
      ensures Size(l[..k]) == at[k]
    {
      OffsetsAreSizes(l, at, k);
    }
    assert l[..|l|] == l;
  }
}
