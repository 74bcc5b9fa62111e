/** Intel quotes: SGX version 3, TDX versions 4 and 5 (qvl/src/structs.ts, qvl/src/parse.ts). */
module Quotes {
  import opened Bytes
  import opened Layout

  const HEADER: seq<Field> := [Num(2), Num(2), Num(4), Num(2), Num(2), Buf(16), Buf(20)]

  const SGX_BODY: seq<Field> := [
    Buf(16), Num(4), Buf(28), Buf(16), Buf(32), Buf(32), Buf(32), Buf(96), Num(2), Num(2), Buf(60), Buf(64)]

  const TDX_BODY_10: seq<Field> := [
    Buf(16), Buf(48), Buf(48), Num(4), Num(4), Buf(8), Buf(8), Buf(48), Buf(48), Buf(48), Buf(48),
    Buf(48), Buf(48), Buf(48), Buf(48), Buf(64)]

  const TDX_BODY_15: seq<Field> := TDX_BODY_10 + [Buf(16), Buf(48)]

  const SGX_FIXED: seq<Field> := [Buf(64), Buf(64), Buf(384), Buf(64), Num(2)]
  const TDX_FIXED: seq<Field> := [Buf(64), Buf(64), Num(2), Num(4), Buf(384), Buf(64), Num(2)]
  const TAIL: seq<Field> := [Num(2), Num(4)]

  const HEADER_LEN := 48
  const SGX_BODY_LEN := 384
  const TDX_BODY_10_LEN := 584
  const TDX_BODY_15_LEN := 648

  // ---- offsets, as the formats define them; the last one is the size ----

  /** Version, att_key_type, tee_type, qe_svn, pce_svn, qe_vendor_id, user_data. */
  const HEADER_AT: seq<nat> := [0, 2, 4, 8, 10, 12, 28, 48]

  /** Among others cpu_svn at 0, attributes at 48, mr_enclave at 64, mr_signer at 128, report_data at 320. */
  const SGX_AT: seq<nat> := [0, 16, 20, 48, 64, 96, 128, 160, 256, 258, 260, 320, 384]

  /** Among others tee_tcb_svn at 0, td_attributes at 120, mr_td at 136, four rtmr from 328 on, report_data at 520. */
  const TDX_10_AT: seq<nat> := [0, 16, 64, 112, 116, 120, 128, 136, 184, 232, 280, 328, 376, 424, 472, 520, 584]
  const TDX_15_AT: seq<nat> := [
    0, 16, 64, 112, 116, 120, 128, 136, 184, 232, 280, 328, 376, 424, 472, 520, 584, 600, 648]

  const SGX_FIXED_AT: seq<nat> := [0, 64, 128, 512, 576, 578]
  const TDX_FIXED_AT: seq<nat> := [0, 64, 128, 130, 134, 518, 582, 584]
  const TAIL_AT: seq<nat> := [0, 2, 6]

  lemma {:induction false} HeaderOffsets()
    ensures Offsets(HEADER, HEADER_AT) && Size(HEADER) == HEADER_LEN == 48
  {
    DecodesAtIff(HEADER, HEADER_AT, []);
  }

  lemma {:induction false} SgxOffsets()
    ensures Offsets(SGX_BODY, SGX_AT) && Size(SGX_BODY) == SGX_BODY_LEN == 384
  {
    DecodesAtIff(SGX_BODY, SGX_AT, []);
  }

  lemma {:induction false} Tdx10Offsets()
    ensures Offsets(TDX_BODY_10, TDX_10_AT) && Size(TDX_BODY_10) == TDX_BODY_10_LEN == 584
  {
    DecodesAtIff(TDX_BODY_10, TDX_10_AT, []);
  }

  lemma {:induction false} Tdx15Offsets()
    ensures Offsets(TDX_BODY_15, TDX_15_AT) && Size(TDX_BODY_15) == TDX_BODY_15_LEN == 648
  {
    DecodesAtIff(TDX_BODY_15, TDX_15_AT, []);
  }

  lemma {:induction false} Sizes()
    ensures Size(HEADER) == HEADER_LEN && Size(SGX_BODY) == SGX_BODY_LEN
    ensures Size(TDX_BODY_10) == TDX_BODY_10_LEN && Size(TDX_BODY_15) == TDX_BODY_15_LEN
  {
    HeaderOffsets();
    SgxOffsets();
    Tdx10Offsets();
    Tdx15Offsets();
  }

  lemma {:induction false} SgxFixedOffsets()
    ensures Offsets(SGX_FIXED, SGX_FIXED_AT) && Size(SGX_FIXED) == 578
  {
    DecodesAtIff(SGX_FIXED, SGX_FIXED_AT, []);
  }

  lemma {:induction false} TdxFixedOffsets()
    ensures Offsets(TDX_FIXED, TDX_FIXED_AT) && Size(TDX_FIXED) == 584
  {
    DecodesAtIff(TDX_FIXED, TDX_FIXED_AT, []);
  }

  lemma {:induction false} TailOffsets()
    ensures Offsets(TAIL, TAIL_AT) && Size(TAIL) == 6
  {
    DecodesAtIff(TAIL, TAIL_AT, []);
  }

  lemma {:induction false} FixedSizes()
    ensures Size(SGX_FIXED) == 578 && Size(TDX_FIXED) == 584 && Size(TAIL) == 6
  {
    SgxFixedOffsets();
    TdxFixedOffsets();
    TailOffsets();
  }

  datatype Signature = Signature(
    ecdsa: seq<byte>, attestationKey: seq<byte>, qeReport: seq<byte>, qeReportSignature: seq<byte>,
    authData: seq<byte>, certDataType: nat, certDataLen: nat, certData: seq<byte>)

  /** `body` is decoded by the layout that the version and the body type select. */
  datatype Quote = Quote(header: seq<Value>, body: seq<Value>, signature: Signature)

  function ReadUInt(s: seq<byte>, offset: nat, width: nat): Option<nat> {
    if offset + width <= |s| then Some(NatLE(s[offset..offset + width])) else None
  }

  function Rest(s: seq<byte>, offset: nat): seq<byte> {
    if offset <= |s| then s[offset..] else []
  }

  /** The auth data and the certificate data that follow the fixed part, at `offset`. */
  function ParseTail(sigData: seq<byte>, offset: nat, authLen: nat): Option<(seq<byte>, nat, nat, seq<byte>)> {
    var authData := Slice(sigData, offset, offset + authLen);
    var at := offset + authLen;
    var tail := Decode(TAIL, Rest(sigData, at));
    if tail.None? then None
    else
      var len := tail.value[1].n;
      Some((authData, tail.value[0].n, len, Slice(sigData, at + 6, at + 6 + len)))
  }

  function ParseSgxSigData(sigData: seq<byte>): Option<Signature> {
    var fixed := Decode(SGX_FIXED, sigData);
    if fixed.None? then None
    else
      var f := fixed.value;
      var tail := ParseTail(sigData, 578, f[4].n);
      if tail.None? then None
      else Some(Signature(f[0].b, f[1].b, f[2].b, f[3].b, tail.value.0, tail.value.1, tail.value.2, tail.value.3))
  }

  function ParseTdxSigData(sigData: seq<byte>): Option<Signature> {
    var fixed := Decode(TDX_FIXED, sigData);
    if fixed.None? then None
    else
      var f := fixed.value;
      var tail := ParseTail(sigData, 584, f[6].n);
      if tail.None? then None
      else Some(Signature(f[0].b, f[1].b, f[4].b, f[5].b, tail.value.0, tail.value.1, tail.value.2, tail.value.3))
  }

  /** The signature section: a four-byte length at `start`, then that many bytes (fewer at the end of the quote). */
  function SigData(quote: seq<byte>, start: nat): Option<seq<byte>> {
    var len := ReadUInt(quote, start, 4);
    if len.None? then None else Some(Slice(quote, start + 4, start + 4 + len.value))
  }

  function ParseSgxQuote(quote: seq<byte>): (r: Option<Quote>)
    ensures r.Some? ==> Shaped(HEADER, r.value.header)
  {
    var header := Decode(HEADER, quote);
    if header.None? || header.value[0].n != 3 then None
    else
      var body := Decode(SGX_BODY, Rest(quote, HEADER_LEN));
      var sigData := SigData(quote, HEADER_LEN + SGX_BODY_LEN);
      if body.None? || sigData.None? then None
      else
        var signature := ParseSgxSigData(sigData.value);
        if signature.None? then None else Some(Quote(header.value, body.value, signature.value))
  }

  /** The body of a version 5 quote, cut out by its descriptor. */
  function ParseBody15(quote: seq<byte>, bodyType: nat, bodySize: nat): Option<seq<Value>> {
    var bytes := Slice(quote, HEADER_LEN + 6, HEADER_LEN + 6 + bodySize);
    if bodyType == 2 then Decode(TDX_BODY_10, bytes)
    else if bodyType == 3 then Decode(TDX_BODY_15, bytes)
    else None
  }

  function ParseTdxQuote(quote: seq<byte>): (r: Option<Quote>)
    ensures r.Some? ==> Shaped(HEADER, r.value.header)
  {
    var header := Decode(HEADER, quote);
    if header.None? then None
    else if header.value[0].n == 4 then
      var body := Decode(TDX_BODY_10, Rest(quote, HEADER_LEN));
      var sigData := SigData(quote, HEADER_LEN + TDX_BODY_10_LEN);
      FinishTdx(header.value, body, sigData)
    else if header.value[0].n == 5 then
      var bodyType := ReadUInt(quote, HEADER_LEN, 2);
      var bodySize := ReadUInt(quote, HEADER_LEN + 2, 4);
      if bodyType.None? || bodySize.None? then None
      else
        var body := ParseBody15(quote, bodyType.value, bodySize.value);
        var sigData := SigData(quote, HEADER_LEN + 6 + bodySize.value);
        FinishTdx(header.value, body, sigData)
    else None
  }

  function FinishTdx(header: seq<Value>, body: Option<seq<Value>>, sigData: Option<seq<byte>>): (r: Option<Quote>)
    ensures r.Some? ==> body.Some? && sigData.Some? && r.value.header == header && r.value.body == body.value
  {
    if body.None? || sigData.None? then None
    else
      var signature := ParseTdxSigData(sigData.value);
      if signature.None? then None else Some(Quote(header, body.value, signature.value))
  }

  function SgxSignedRegion(quote: seq<byte>): seq<byte> {
    Slice(quote, 0, HEADER_LEN + SGX_BODY_LEN)
  }

  function Tdx10SignedRegion(quote: seq<byte>): seq<byte> {
    Slice(quote, 0, HEADER_LEN + TDX_BODY_10_LEN)
  }

  function Tdx15SignedRegion(quote: seq<byte>): Option<seq<byte>> {
    var bodySize := ReadUInt(quote, HEADER_LEN + 2, 4);
    if bodySize.None? then None else Some(Slice(quote, 0, HEADER_LEN + 6 + bodySize.value))
  }

  /** The bytes that the attestation key must have signed, as the version in the header selects them. */
  function TdxSignedRegion(quote: seq<byte>): Option<seq<byte>> {
    var header := Decode(HEADER, quote);
    if header.None? then None
    else if header.value[0].n == 4 then Some(Tdx10SignedRegion(quote))
    else if header.value[0].n == 5 then Tdx15SignedRegion(quote)
    else None
  }
}

/** What the quote parsers give back. */
module QuoteTheorems {
  import opened Bytes
  import opened Layout
  import opened Quotes

  /** Fields of a signature block that have the widths the format gives them. */
  predicate Fitting(s: Signature) {
    && |s.ecdsa| == 64 && |s.attestationKey| == 64 && |s.qeReport| == 384 && |s.qeReportSignature| == 64
    && |s.authData| < Pow256(2) && s.certDataType < Pow256(2)
    && s.certDataLen == |s.certData| < Pow256(4)
  }

  function TailBytes(s: Signature): seq<byte>
    requires Fitting(s)
  {
    s.authData + (Encode(TAIL, [N(s.certDataType), N(s.certDataLen)]) + s.certData)
  }

  function SgxSigBytes(s: Signature): seq<byte>
    requires Fitting(s)
  {
    Encode(SGX_FIXED, [B(s.ecdsa), B(s.attestationKey), B(s.qeReport), B(s.qeReportSignature), N(|s.authData|)])
    + TailBytes(s)
  }

  /** A TDX block also carries an outer certificate type and size, which the parser skips. */
  function TdxSigBytes(s: Signature, outerType: nat, outerSize: nat): seq<byte>
    requires Fitting(s) && outerType < Pow256(2) && outerSize < Pow256(4)
  {
    Encode(TDX_FIXED, [B(s.ecdsa), B(s.attestationKey), N(outerType), N(outerSize),
                       B(s.qeReport), B(s.qeReportSignature), N(|s.authData|)])
    + TailBytes(s)
  }

  lemma {:induction false} TailRoundTrip(fixed: seq<byte>, s: Signature, slack: seq<byte>)
    requires Fitting(s)
    ensures ParseTail(fixed + (TailBytes(s) + slack), |fixed|, |s.authData|)
         == Some((s.authData, s.certDataType, s.certDataLen, s.certData))
  {
    FixedSizes();
    hide Encode, Decode, Size;
    var vs := [N(s.certDataType), N(s.certDataLen)];
    var d := fixed + (TailBytes(s) + slack);
    var at := |fixed| + |s.authData|;
    RoundTrip(TAIL, vs, s.certData + slack);
    assert d[|fixed|..at] == s.authData;
    assert d[at..] == Encode(TAIL, vs) + (s.certData + slack);
    assert d[at + 6..at + 6 + s.certDataLen] == s.certData;
  }

  lemma {:induction false} SgxSigRoundTrip(s: Signature, slack: seq<byte>)
    requires Fitting(s)
    ensures ParseSgxSigData(SgxSigBytes(s) + slack) == Some(s)
  {
    FixedSizes();
    hide Encode, Decode, Size, ParseTail, TailBytes;
    var vs := [B(s.ecdsa), B(s.attestationKey), B(s.qeReport), B(s.qeReportSignature), N(|s.authData|)];
    var fixed := Encode(SGX_FIXED, vs);
    RoundTrip(SGX_FIXED, vs, TailBytes(s) + slack);
    TailRoundTrip(fixed, s, slack);
    assert SgxSigBytes(s) + slack == fixed + (TailBytes(s) + slack);
  }

  lemma {:induction false} TdxSigRoundTrip(s: Signature, outerType: nat, outerSize: nat, slack: seq<byte>)
    requires Fitting(s) && outerType < Pow256(2) && outerSize < Pow256(4)
    ensures ParseTdxSigData(TdxSigBytes(s, outerType, outerSize) + slack) == Some(s)
  {
    FixedSizes();
    hide Encode, Decode, Size, ParseTail, TailBytes;
    var vs := [B(s.ecdsa), B(s.attestationKey), N(outerType), N(outerSize),
               B(s.qeReport), B(s.qeReportSignature), N(|s.authData|)];
    var fixed := Encode(TDX_FIXED, vs);
    RoundTrip(TDX_FIXED, vs, TailBytes(s) + slack);
    TailRoundTrip(fixed, s, slack);
    assert TdxSigBytes(s, outerType, outerSize) + slack == fixed + (TailBytes(s) + slack);
  }

  lemma {:induction false} ReadUIntAt(front: seq<byte>, n: nat, width: nat, rest: seq<byte>)
    requires n < Pow256(width)
    ensures ReadUInt(front + (LE(n, width) + rest), |front|, width) == Some(n)
  {
    hide LE, NatLE, Pow256;
    NatLEOfLE(n, width);
    Middle(front, LE(n, width), rest);
  }

  /** A quote: the signed front, the length of the signature section, the section, and anything after it. */
  function Sealed(front: seq<byte>, sig: seq<byte>, trailing: seq<byte>): seq<byte> {
    front + (LE(|sig|, 4) + (sig + trailing))
  }

  /** A signature section behind `front` is found again, whatever trails it. */
  lemma {:induction false} SigDataRoundTrip(front: seq<byte>, sig: seq<byte>, trailing: seq<byte>)
    requires |sig| < Pow256(4)
    ensures SigData(Sealed(front, sig, trailing), |front|) == Some(sig)
  {
    hide LE, NatLE, Pow256;
    var len := LE(|sig|, 4);
    ReadUIntAt(front, |sig|, 4, sig + trailing);
    Middle(front + len, sig, trailing);
    assert Sealed(front, sig, trailing) == (front + len) + (sig + trailing);
  }

  lemma {:induction false} RegionIsFront(front: seq<byte>, sig: seq<byte>, trailing: seq<byte>)
    ensures Slice(Sealed(front, sig, trailing), 0, |front|) == front
  {
  }

  lemma {:induction false} SgxRegionIsFront(front: seq<byte>, sig: seq<byte>, trailing: seq<byte>)
    requires |front| == 432
    ensures SgxSignedRegion(Sealed(front, sig, trailing)) == front
  {
    RegionIsFront(front, sig, trailing);
    hide Slice, Sealed;
  }

  lemma {:induction false} Tdx4RegionIsFront(front: seq<byte>, sig: seq<byte>, trailing: seq<byte>)
    requires |front| == 632 && Decode(HEADER, Sealed(front, sig, trailing)).Some?
    requires Decode(HEADER, Sealed(front, sig, trailing)).value[0] == N(4)
    ensures TdxSignedRegion(Sealed(front, sig, trailing)) == Some(front)
  {
    RegionIsFront(front, sig, trailing);
    hide Slice, Sealed, Decode;
  }

  lemma {:induction false} SealedSplit(a: seq<byte>, b: seq<byte>, sig: seq<byte>,
                                       trailing: seq<byte>) returns (rest: seq<byte>)
    ensures Sealed(a + b, sig, trailing) == a + (b + rest)
    ensures Rest(Sealed(a + b, sig, trailing), |a|) == b + rest
  {
    rest := LE(|sig|, 4) + (sig + trailing);
    assert a + b + rest == a + (b + rest);
    Middle(a, b, rest);
  }

  /** A front made of a header and a body, for any two layouts. */
  lemma {:induction false} SealedParts(hl: seq<Field>, bl: seq<Field>, h: seq<Value>, b: seq<Value>, sig: seq<byte>,
                                       trailing: seq<byte>)
    requires Fits(hl, h) && Fits(bl, b)
    ensures Decode(hl, Sealed(Encode(hl, h) + Encode(bl, b), sig, trailing)) == Some(h)
    ensures Decode(bl, Rest(Sealed(Encode(hl, h) + Encode(bl, b), sig, trailing), Size(hl))) == Some(b)
  {
    var rest := SealedSplit(Encode(hl, h), Encode(bl, b), sig, trailing);
    RoundTrip(hl, h, Encode(bl, b) + rest);
    RoundTrip(bl, b, rest);
  }

  /** Parsing a serialized SGX quote returns what was serialized. */
  lemma {:induction false} SgxRoundTrip(h: seq<Value>, b: seq<Value>, s: Signature, slack: seq<byte>,
                                        trailing: seq<byte>)
    requires Fits(HEADER, h) && h[0] == N(3) && Fits(SGX_BODY, b) && Fitting(s)
    requires |SgxSigBytes(s) + slack| < Pow256(4)
    ensures ParseSgxQuote(Sealed(Encode(HEADER, h) + Encode(SGX_BODY, b), SgxSigBytes(s) + slack, trailing))
         == Some(Quote(h, b, s))
    ensures SgxSignedRegion(Sealed(Encode(HEADER, h) + Encode(SGX_BODY, b), SgxSigBytes(s) + slack, trailing))
         == Encode(HEADER, h) + Encode(SGX_BODY, b)
  {
    hide Encode, Decode, Size, Slice, ParseSgxSigData, SgxSigBytes, Sealed, SgxSignedRegion;
    Sizes();
    SgxRegionIsFront(Encode(HEADER, h) + Encode(SGX_BODY, b), SgxSigBytes(s) + slack, trailing);
    SealedParts(HEADER, SGX_BODY, h, b, SgxSigBytes(s) + slack, trailing);
    SigDataRoundTrip(Encode(HEADER, h) + Encode(SGX_BODY, b), SgxSigBytes(s) + slack, trailing);
    SgxSigRoundTrip(s, slack);
  }

  /** The same for TDX version 4. */
  lemma {:induction false} Tdx4RoundTrip(h: seq<Value>, b: seq<Value>, s: Signature, outerType: nat, outerSize: nat,
                      slack: seq<byte>, trailing: seq<byte>)
    requires Fits(HEADER, h) && h[0] == N(4) && Fits(TDX_BODY_10, b) && Fitting(s)
    requires outerType < Pow256(2) && outerSize < Pow256(4)
    requires |TdxSigBytes(s, outerType, outerSize) + slack| < Pow256(4)
    ensures ParseTdxQuote(Sealed(Encode(HEADER, h) + Encode(TDX_BODY_10, b),
                                 TdxSigBytes(s, outerType, outerSize) + slack, trailing))
         == Some(Quote(h, b, s))
    ensures TdxSignedRegion(Sealed(Encode(HEADER, h) + Encode(TDX_BODY_10, b),
                                   TdxSigBytes(s, outerType, outerSize) + slack, trailing))
         == Some(Encode(HEADER, h) + Encode(TDX_BODY_10, b))
  {
    hide Encode, Decode, Size, Slice, ParseTdxSigData, TdxSigBytes, Sealed, TdxSignedRegion;
    Sizes();
    var sig := TdxSigBytes(s, outerType, outerSize) + slack;
    SealedParts(HEADER, TDX_BODY_10, h, b, sig, trailing);
    Tdx4RegionIsFront(Encode(HEADER, h) + Encode(TDX_BODY_10, b), sig, trailing);
    SigDataRoundTrip(Encode(HEADER, h) + Encode(TDX_BODY_10, b), sig, trailing);
    TdxSigRoundTrip(s, outerType, outerSize, slack);
  }

  /** The layout that a version 5 body type selects. */
  function BodyLayout(bodyType: nat): seq<Field> {
    if bodyType == 2 then TDX_BODY_10 else TDX_BODY_15
  }

  function Descriptor(bodyType: nat, bodySize: nat): (s: seq<byte>)
    ensures |s| == 6
  {
    LE(bodyType, 2) + LE(bodySize, 4)
  }

  /** Header, descriptor and body of a version 5 quote are read back from in front of anything. */
  lemma {:induction false} Tdx5FrontRoundTrip(h: seq<Value>, bodyType: nat, b: seq<Value>, body: seq<byte>,
                           surplus: seq<byte>, rest: seq<byte>)
    requires Fits(HEADER, h) && (bodyType == 2 || bodyType == 3) && Fits(BodyLayout(bodyType), b)
    requires body == Encode(BodyLayout(bodyType), b) + surplus && |body| < Pow256(4)
    ensures var q := Encode(HEADER, h) + (Descriptor(bodyType, |body|) + body) + rest;
            && Decode(HEADER, q) == Some(h)
            && ReadUInt(q, 48, 2) == Some(bodyType)
            && ReadUInt(q, 50, 4) == Some(|body|)
            && ParseBody15(q, bodyType, |body|) == Some(b)
  {
    Sizes();
    hide Encode, Decode, Size, LE, NatLE;
    var hb, t, n := Encode(HEADER, h), LE(bodyType, 2), LE(|body|, 4);
    var q := hb + (Descriptor(bodyType, |body|) + body) + rest;
    assert q == hb + (t + (n + (body + rest)));
    RoundTrip(HEADER, h, t + (n + (body + rest)));
    ReadUIntAt(hb, bodyType, 2, n + (body + rest));
    assert q == (hb + t) + (n + (body + rest));
    ReadUIntAt(hb + t, |body|, 4, body + rest);
    assert q == (hb + t + n) + (body + rest);
    Middle(hb + t + n, body, rest);
    RoundTrip(BodyLayout(bodyType), b, surplus);
  }

  /** The same for TDX version 5, whose body may be longer than its layout: the surplus is signed and not parsed. */
  lemma {:induction false} Tdx5RoundTrip(h: seq<Value>, bodyType: nat, b: seq<Value>, body: seq<byte>,
                                         surplus: seq<byte>,
                      s: Signature, outerType: nat, outerSize: nat, slack: seq<byte>, trailing: seq<byte>)
    requires Fits(HEADER, h) && h[0] == N(5) && (bodyType == 2 || bodyType == 3)
    requires Fits(BodyLayout(bodyType), b)
    requires body == Encode(BodyLayout(bodyType), b) + surplus && |body| < Pow256(4)
    requires Fitting(s) && outerType < Pow256(2) && outerSize < Pow256(4)
    requires |TdxSigBytes(s, outerType, outerSize) + slack| < Pow256(4)
    ensures ParseTdxQuote(Sealed(Encode(HEADER, h) + (Descriptor(bodyType, |body|) + body),
                                 TdxSigBytes(s, outerType, outerSize) + slack, trailing))
         == Some(Quote(h, b, s))
    ensures TdxSignedRegion(Sealed(Encode(HEADER, h) + (Descriptor(bodyType, |body|) + body),
                                   TdxSigBytes(s, outerType, outerSize) + slack, trailing))
         == Some(Encode(HEADER, h) + (Descriptor(bodyType, |body|) + body))
  {
    Sizes();
    var sig := TdxSigBytes(s, outerType, outerSize) + slack;
    Tdx5FrontRoundTrip(h, bodyType, b, body, surplus, LE(|sig|, 4) + (sig + trailing));
    TdxSigRoundTrip(s, outerType, outerSize, slack);
    hide Decode, NatLE, LE, Sealed, ParseTdxSigData, ParseBody15, TdxSigBytes, ParseTdxQuote, TdxSignedRegion;
    Tdx5Finish(Encode(HEADER, h) + (Descriptor(bodyType, |body|) + body), h, bodyType, |body|, b, sig, s, trailing);
  }

  lemma {:induction false} Tdx5Finish(front: seq<byte>, h: seq<Value>, bodyType: nat, bodySize: nat, b: seq<Value>,
                   sig: seq<byte>, s: Signature, trailing: seq<byte>)
    requires Shaped(HEADER, h) && h[0] == N(5) && |front| == 54 + bodySize && |sig| < Pow256(4)
    requires var q := Sealed(front, sig, trailing);
             && Decode(HEADER, q) == Some(h)
             && ReadUInt(q, 48, 2) == Some(bodyType)
             && ReadUInt(q, 50, 4) == Some(bodySize)
             && ParseBody15(q, bodyType, bodySize) == Some(b)
    requires ParseTdxSigData(sig) == Some(s)
    ensures ParseTdxQuote(Sealed(front, sig, trailing)) == Some(Quote(h, b, s))
    ensures TdxSignedRegion(Sealed(front, sig, trailing)) == Some(front)
  {
    SigDataRoundTrip(front, sig, trailing);
    RegionIsFront(front, sig, trailing);
    hide Decode, NatLE, LE, Sealed, Slice, SigData, ParseTdxSigData, ParseBody15;
  }

  lemma {:induction false} HeaderFromRegion(q: seq<byte>, r: seq<byte>, n: nat)
    requires HEADER_LEN <= n <= |q| && n <= |r| && q[..n] == r[..n]
    ensures Decode(HEADER, q) == Decode(HEADER, r)
  {
    HeaderOffsets();
    hide Decode, Size;
    Local(HEADER, q);
    Local(HEADER, r);
    assert q[..HEADER_LEN] == q[..n][..HEADER_LEN] == r[..HEADER_LEN];
  }

  lemma {:induction false} BodyFromRegion(l: seq<Field>, q: seq<byte>, r: seq<byte>, lo: nat, hi: nat)
    requires lo + Size(l) <= hi <= |q| && hi <= |r| && q[..hi] == r[..hi]
    ensures Decode(l, q[lo..]) == Decode(l, r[lo..])
  {
    Local(l, q[lo..]);
    Local(l, r[lo..]);
    assert q[lo..][..Size(l)] == q[..hi][lo..lo + Size(l)] == r[lo..][..Size(l)];
  }

  /** What the SGX attestation key signs determines the header and the body that are parsed. */
  lemma {:induction false} SgxSignedRegionDetermines(q: seq<byte>, r: seq<byte>)
    requires ParseSgxQuote(q).Some? && ParseSgxQuote(r).Some?
    requires SgxSignedRegion(q) == SgxSignedRegion(r)
    ensures ParseSgxQuote(q).value.header == ParseSgxQuote(r).value.header
    ensures ParseSgxQuote(q).value.body == ParseSgxQuote(r).value.body
  {
    Sizes();
    HeaderFromRegion(q, r, 432);
    BodyFromRegion(SGX_BODY, q, r, 48, 432);
  }

  lemma {:induction false} Tdx4Determines(q: seq<byte>, r: seq<byte>)
    requires ParseTdxQuote(q).Some? && ParseTdxQuote(r).Some?
    requires ParseTdxQuote(q).value.header[0] == ParseTdxQuote(r).value.header[0] == N(4)
    requires Tdx10SignedRegion(q) == Tdx10SignedRegion(r)
    ensures ParseTdxQuote(q).value.header == ParseTdxQuote(r).value.header
    ensures ParseTdxQuote(q).value.body == ParseTdxQuote(r).value.body
  {
    Sizes();
    HeaderFromRegion(q, r, 632);
    BodyFromRegion(TDX_BODY_10, q, r, 48, 632);
  }

  lemma {:induction false} Tdx5Determines(q: seq<byte>, r: seq<byte>)
    requires ParseTdxQuote(q).Some? && ParseTdxQuote(r).Some?
    requires ParseTdxQuote(q).value.header[0] == ParseTdxQuote(r).value.header[0] == N(5)
    requires Tdx15SignedRegion(q) == Tdx15SignedRegion(r)
    ensures ParseTdxQuote(q).value.header == ParseTdxQuote(r).value.header
    ensures ParseTdxQuote(q).value.body == ParseTdxQuote(r).value.body
  {
    hide Decode, NatLE, ParseTdxSigData;
    var n := 54 + ReadUInt(q, 50, 4).value;
    var region := Tdx15SignedRegion(q).value;
    assert region == q[..n];
    assert region == r[..54 + ReadUInt(r, 50, 4).value];
    assert |region| == n == 54 + ReadUInt(r, 50, 4).value;
    HeaderFromRegion(q, r, n);
    assert q[48..50] == region[48..50] == r[48..50];
    assert q[54..n] == region[54..n] == r[54..n];
  }

  /** The same for TDX, where the version inside the region selects the region. */
  lemma {:induction false} TdxSignedRegionDetermines(q: seq<byte>, r: seq<byte>)
    requires ParseTdxQuote(q).Some? && ParseTdxQuote(r).Some?
    requires TdxSignedRegion(q) == TdxSignedRegion(r)
    ensures ParseTdxQuote(q).value.header == ParseTdxQuote(r).value.header
    ensures ParseTdxQuote(q).value.body == ParseTdxQuote(r).value.body
  {
    var region := TdxSignedRegion(q).value;
    RegionIsPrefix(q);
    RegionIsPrefix(r);
    HeaderFromRegion(q, r, |region|);
    if ParseTdxQuote(q).value.header[0].n == 4 {
      Tdx4Determines(q, r);
    } else {
      Tdx5Determines(q, r);
    }
  }

  lemma {:induction false} RegionIsPrefix(q: seq<byte>)
    requires ParseTdxQuote(q).Some?
    ensures TdxSignedRegion(q).Some?
    ensures var n := |TdxSignedRegion(q).value|; HEADER_LEN <= n <= |q| && TdxSignedRegion(q).value == q[..n]
  {
  }
}
