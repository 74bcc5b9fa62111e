/**
 Which buffers are quotes, and at which offsets their fields are read: the parsers against the offsets
 that the formats define.
 */
module QuoteFields {
  import opened Bytes
  import opened Layout
  import opened Quotes

  /** A field of bytes at its offsets. */
  lemma {:induction false} BytesField(l: seq<Field>, at: seq<nat>, vs: seq<Value>, body: seq<byte>, k: nat)
    requires FieldsAt(at, vs, body) && Shaped(l, vs) && k < |l| && l[k].Buf?
    ensures k + 1 < |at| && vs[k] == B(Slice(body, at[k], at[k + 1]))
  {
    assert Carries(vs[k], Slice(body, at[k], at[k + 1]));
  }

  lemma {:induction false} NumberAt(l: seq<Field>, at: seq<nat>, vs: seq<Value>, s: seq<byte>, k: nat)
    requires FieldsAt(at, vs, s) && Shaped(l, vs) && k < |l| && l[k].Num?
    ensures k + 1 < |at| && vs[k] == N(NatLE(Slice(s, at[k], at[k + 1])))
  {
    assert Carries(vs[k], Slice(s, at[k], at[k + 1]));
  }

  /** The last integer of a layout ends at `end`. */
  predicate NumbersEnd(l: seq<Field>, at: seq<nat>, end: nat) {
    && |at| == |l| + 1 && (forall k :: 0 <= k < |l| ==> l[k].width > 0)
    && (forall k :: 0 <= k < |l| && l[k].Num? ==> at[k + 1] <= end)
    && exists k :: 0 <= k < |l| && l[k].Num? && at[k + 1] == end
  }

  lemma {:induction false} LayoutFields(l: seq<Field>, at: seq<nat>, s: seq<byte>, end: nat)
    requires Offsets(l, at) && NumbersEnd(l, at, end)
    ensures Decode(l, s).Some? <==> |s| >= end
    ensures Decode(l, s).Some? ==> FieldsAt(at, Decode(l, s).value, s)
  {
    DecodesAtIff(l, at, s);
    hide Decode, Size, Slice, Carries;
    if |s| >= end {
      AllFieldsAt(l, at, s);
    }
  }

  lemma {:induction false} HeaderFields(q: seq<byte>)
    ensures Decode(HEADER, q).Some? <==> |q| >= 12
    ensures Decode(HEADER, q).Some? ==> FieldsAt(HEADER_AT, Decode(HEADER, q).value, q)
  {
    HeaderOffsets();
    DecodesAtIff(HEADER, HEADER_AT, q);
    hide Decode, Size, Slice, Carries;
    if |q| >= 12 {
      AllFieldsAt(HEADER, HEADER_AT, q);
    }
  }

  /** The five numbers in the header. */
  lemma {:induction false} HeaderNumbers(q: seq<byte>)
    requires |q| >= 12
    ensures Decode(HEADER, q).Some?
    ensures var h := Decode(HEADER, q).value;
            && |h| == 7 && h[0] == N(NatLE(q[0..2])) && h[1] == N(NatLE(q[2..4])) && h[2] == N(NatLE(q[4..8]))
            && h[3] == N(NatLE(q[8..10])) && h[4] == N(NatLE(q[10..12]))
  {
    HeaderFields(q);
    hide Decode, NatLE;
    var h := Decode(HEADER, q).value;
    assert Carries(h[0], Slice(q, HEADER_AT[0], HEADER_AT[1])) && Carries(h[1], Slice(q, HEADER_AT[1], HEADER_AT[2]));
    assert Carries(h[2], Slice(q, HEADER_AT[2], HEADER_AT[3])) && Carries(h[3], Slice(q, HEADER_AT[3], HEADER_AT[4]));
    assert Carries(h[4], Slice(q, HEADER_AT[4], HEADER_AT[5]));
    assert HEADER[0].Num? && HEADER[1].Num? && HEADER[2].Num? && HEADER[3].Num? && HEADER[4].Num?;
  }

  // ---- the signature section ----

  /** The section behind the four bytes of its length, as far as the buffer has it. */
  function Section(q: seq<byte>, at: nat): seq<byte>
    requires at + 4 <= |q|
  {
    Slice(q, at + 4, at + 4 + NatLE(q[at..at + 4]))
  }

  /** The section reaches to its certificate data; `qe` is where its QE report begins. */
  predicate Complete(sig: seq<byte>, qe: nat) {
    |sig| >= qe + 450 && |sig| >= qe + 456 + NatLE(sig[qe + 448..qe + 450])
  }

  /** The parts of a signature section. */
  predicate SignatureAt(s: Signature, sig: seq<byte>, qe: nat)
    requires qe >= 128 && Complete(sig, qe)
  {
    var auth := qe + 450;
    var cert := auth + NatLE(sig[qe + 448..auth]);
    && s.ecdsa == sig[0..64] && s.attestationKey == sig[64..128]
    && s.qeReport == sig[qe..qe + 384] && s.qeReportSignature == sig[qe + 384..qe + 448]
    && s.authData == sig[auth..cert]
    && s.certDataType == NatLE(sig[cert..cert + 2]) && s.certDataLen == NatLE(sig[cert + 2..cert + 6])
    && s.certData == Slice(sig, cert + 6, cert + 6 + s.certDataLen)
  }

  lemma {:induction false} TailNumbers()
    ensures Offsets(TAIL, TAIL_AT) && NumbersEnd(TAIL, TAIL_AT, 6)
  {
    TailOffsets();
    assert TAIL[1].Num? && TAIL_AT[2] == 6;
  }

  lemma {:induction false} TailFields(s: seq<byte>)
    ensures Decode(TAIL, s).Some? <==> |s| >= 6
    ensures |s| >= 6 ==> Decode(TAIL, s).value == [N(NatLE(s[0..2])), N(NatLE(s[2..6]))]
  {
    hide Decode, Size, NatLE, Slice, FieldsAt, Offsets, NumbersEnd;
    TailNumbers();
    LayoutFields(TAIL, TAIL_AT, s, 6);
    if |s| >= 6 {
      var vs := Decode(TAIL, s).value;
      NumberAt(TAIL, TAIL_AT, vs, s, 0);
      NumberAt(TAIL, TAIL_AT, vs, s, 1);
    }
  }

  lemma {:induction false} FixedNumbers()
    ensures Offsets(SGX_FIXED, SGX_FIXED_AT) && NumbersEnd(SGX_FIXED, SGX_FIXED_AT, 578)
    ensures Offsets(TDX_FIXED, TDX_FIXED_AT) && NumbersEnd(TDX_FIXED, TDX_FIXED_AT, 584)
  {
    SgxFixedOffsets();
    TdxFixedOffsets();
    assert SGX_FIXED[4].Num? && SGX_FIXED_AT[5] == 578;
    assert TDX_FIXED[6].Num? && TDX_FIXED_AT[7] == 584;
  }

  lemma {:induction false} SgxFixedFields(sig: seq<byte>)
    ensures Decode(SGX_FIXED, sig).Some? <==> |sig| >= 578
    ensures |sig| >= 578 ==>
      Decode(SGX_FIXED, sig).value
      == [B(sig[0..64]), B(sig[64..128]), B(sig[128..512]), B(sig[512..576]), N(NatLE(sig[576..578]))]
  {
    hide Decode, Size, NatLE, Slice, FieldsAt, Offsets, NumbersEnd;
    FixedNumbers();
    LayoutFields(SGX_FIXED, SGX_FIXED_AT, sig, 578);
    if |sig| >= 578 {
      var vs := Decode(SGX_FIXED, sig).value;
      BytesField(SGX_FIXED, SGX_FIXED_AT, vs, sig, 0);
      BytesField(SGX_FIXED, SGX_FIXED_AT, vs, sig, 1);
      BytesField(SGX_FIXED, SGX_FIXED_AT, vs, sig, 2);
      BytesField(SGX_FIXED, SGX_FIXED_AT, vs, sig, 3);
      NumberAt(SGX_FIXED, SGX_FIXED_AT, vs, sig, 4);
    }
  }

  lemma {:induction false} TdxFixedFields(sig: seq<byte>)
    ensures Decode(TDX_FIXED, sig).Some? <==> |sig| >= 584
    ensures |sig| >= 584 ==>
      Decode(TDX_FIXED, sig).value
      == [B(sig[0..64]), B(sig[64..128]), N(NatLE(sig[128..130])), N(NatLE(sig[130..134])),
          B(sig[134..518]), B(sig[518..582]), N(NatLE(sig[582..584]))]
  {
    hide Decode, Size, NatLE, Slice, FieldsAt, Offsets, NumbersEnd;
    FixedNumbers();
    LayoutFields(TDX_FIXED, TDX_FIXED_AT, sig, 584);
    if |sig| >= 584 {
      var vs := Decode(TDX_FIXED, sig).value;
      BytesField(TDX_FIXED, TDX_FIXED_AT, vs, sig, 0);
      BytesField(TDX_FIXED, TDX_FIXED_AT, vs, sig, 1);
      NumberAt(TDX_FIXED, TDX_FIXED_AT, vs, sig, 2);
      NumberAt(TDX_FIXED, TDX_FIXED_AT, vs, sig, 3);
      BytesField(TDX_FIXED, TDX_FIXED_AT, vs, sig, 4);
      BytesField(TDX_FIXED, TDX_FIXED_AT, vs, sig, 5);
      NumberAt(TDX_FIXED, TDX_FIXED_AT, vs, sig, 6);
    }
  }

  /** The tail behind the fixed part. */
  lemma {:induction false} TailParts(sig: seq<byte>, offset: nat, n: nat)
    requires offset <= |sig|
    ensures ParseTail(sig, offset, n).Some? <==> |sig| >= offset + n + 6
    ensures |sig| >= offset + n + 6 ==>
      var at, len := offset + n, NatLE(sig[offset + n + 2..offset + n + 6]);
      ParseTail(sig, offset, n).value
      == (sig[offset..at], NatLE(sig[at..at + 2]), len, Slice(sig, at + 6, at + 6 + len))
  {
    var at := offset + n;
    hide Decode, NatLE, Slice;
    TailFields(Rest(sig, at));
    if |sig| >= at + 6 {
      RestSlice(sig, at, 0, 2);
      RestSlice(sig, at, 2, 6);
    }
  }

  lemma {:induction false} RestSlice(s: seq<byte>, at: nat, lo: nat, hi: nat)
    requires lo <= hi && at + hi <= |s|
    ensures Rest(s, at)[lo..hi] == s[at + lo..at + hi]
  {
  }

  lemma {:induction false} SgxSignature(sig: seq<byte>)
    ensures ParseSgxSigData(sig).Some? <==> Complete(sig, 128)
    ensures Complete(sig, 128) ==> SignatureAt(ParseSgxSigData(sig).value, sig, 128)
  {
    SgxFixedFields(sig);
    hide Decode, NatLE, ParseTail;
    if |sig| >= 578 {
      TailParts(sig, 578, NatLE(sig[576..578]));
    }
  }

  lemma {:induction false} TdxSignature(sig: seq<byte>)
    ensures ParseTdxSigData(sig).Some? <==> Complete(sig, 134)
    ensures Complete(sig, 134) ==> SignatureAt(ParseTdxSigData(sig).value, sig, 134)
  {
    TdxFixedFields(sig);
    hide Decode, NatLE, ParseTail;
    if |sig| >= 584 {
      TailParts(sig, 584, NatLE(sig[582..584]));
    }
  }

  // ---- whole quotes ----

  lemma {:induction false} SgxNumbers()
    ensures NumbersEnd(SGX_BODY, SGX_AT, 260)
  {
    assert SGX_BODY[9].Num? && SGX_AT[10] == 260;
  }

  lemma {:induction false} SgxBodyFields(s: seq<byte>)
    ensures Decode(SGX_BODY, s).Some? <==> |s| >= 260
    ensures Decode(SGX_BODY, s).Some? ==> FieldsAt(SGX_AT, Decode(SGX_BODY, s).value, s)
  {
    SgxOffsets();
    SgxNumbers();
    hide Decode, Size, FieldsAt, Offsets, NumbersEnd;
    LayoutFields(SGX_BODY, SGX_AT, s, 260);
  }

  lemma {:induction false} Tdx10BodyFields(s: seq<byte>)
    ensures Decode(TDX_BODY_10, s).Some? <==> |s| >= 120
    ensures Decode(TDX_BODY_10, s).Some? ==> FieldsAt(TDX_10_AT, Decode(TDX_BODY_10, s).value, s)
  {
    Tdx10Offsets();
    Tdx10Numbers();
    hide Decode, Size, FieldsAt, Offsets, NumbersEnd;
    LayoutFields(TDX_BODY_10, TDX_10_AT, s, 120);
  }

  lemma {:induction false} Tdx10Numbers()
    ensures NumbersEnd(TDX_BODY_10, TDX_10_AT, 120)
  {
    assert TDX_BODY_10[4].Num? && TDX_10_AT[5] == 120;
  }

  lemma {:induction false} Tdx15BodyFields(s: seq<byte>)
    ensures Decode(TDX_BODY_15, s).Some? <==> |s| >= 120
    ensures Decode(TDX_BODY_15, s).Some? ==> FieldsAt(TDX_15_AT, Decode(TDX_BODY_15, s).value, s)
  {
    Tdx15Offsets();
    Tdx15Numbers();
    hide Decode, Size, FieldsAt, Offsets, NumbersEnd;
    LayoutFields(TDX_BODY_15, TDX_15_AT, s, 120);
  }

  lemma {:induction false} Tdx15Numbers()
    ensures NumbersEnd(TDX_BODY_15, TDX_15_AT, 120)
  {
    assert TDX_BODY_15[4].Num? && TDX_15_AT[5] == 120;
  }

  /** A version 3 quote whose signature section is complete. */
  predicate IsSgxQuote(q: seq<byte>) {
    |q| >= 436 && NatLE(q[0..2]) == 3 && Complete(Section(q, 432), 128)
  }

  /** Header, body and signature of a quote hold the bytes at their offsets. */
  ghost predicate SgxAt(p: Quote, q: seq<byte>)
    requires IsSgxQuote(q)
  {
    && FieldsAt(HEADER_AT, p.header, q) && FieldsAt(SGX_AT, p.body, q[48..]) && Shaped(SGX_BODY, p.body)
    && SignatureAt(p.signature, Section(q, 432), 128)
  }

  lemma {:induction false} SectionIsSigData(q: seq<byte>, at: nat)
    ensures SigData(q, at) == if at + 4 <= |q| then Some(Section(q, at)) else None
  {
    hide NatLE;
  }

  /**
   A buffer is parsed as an SGX quote if and only if it is a version 3 quote with a complete signature
   section; header, body and signature then hold the bytes at the offsets of the format.
   */
  lemma {:induction false} SgxFields(q: seq<byte>)
    ensures ParseSgxQuote(q).Some? <==> IsSgxQuote(q)
    ensures IsSgxQuote(q) ==> SgxAt(ParseSgxQuote(q).value, q)
  {
    HeaderFields(q);
    SgxBodyFields(Rest(q, 48));
    SectionIsSigData(q, 432);
    if |q| >= 436 {
      HeaderNumbers(q);
      SgxSignature(Section(q, 432));
    }
    hide Decode, NatLE, Section, FieldsAt, Complete, ParseSgxSigData, SigData;
  }

  /** A version 4 quote whose signature section is complete. */
  predicate IsTdx4Quote(q: seq<byte>) {
    |q| >= 636 && NatLE(q[0..2]) == 4 && Complete(Section(q, 632), 134)
  }

  /** A version 5 quote: the descriptor behind the header gives the type and the size of the body. */
  predicate IsTdx5Quote(q: seq<byte>) {
    && |q| >= 58 && NatLE(q[0..2]) == 5 && (NatLE(q[48..50]) == 2 || NatLE(q[48..50]) == 3)
    && NatLE(q[50..54]) >= 120 && |q| >= 58 + NatLE(q[50..54]) && Complete(Section(q, 54 + NatLE(q[50..54])), 134)
  }

  ghost predicate Tdx4At(p: Quote, q: seq<byte>)
    requires IsTdx4Quote(q)
  {
    && FieldsAt(HEADER_AT, p.header, q) && FieldsAt(TDX_10_AT, p.body, q[48..]) && Shaped(TDX_BODY_10, p.body)
    && SignatureAt(p.signature, Section(q, 632), 134)
  }

  ghost predicate Tdx5At(p: Quote, q: seq<byte>)
    requires IsTdx5Quote(q)
  {
    var n := NatLE(q[50..54]);
    && FieldsAt(HEADER_AT, p.header, q)
    && FieldsAt(if NatLE(q[48..50]) == 2 then TDX_10_AT else TDX_15_AT, p.body, q[54..54 + n])
    && Shaped(if NatLE(q[48..50]) == 2 then TDX_BODY_10 else TDX_BODY_15, p.body)
    && SignatureAt(p.signature, Section(q, 54 + n), 134)
  }

  /** The same for TDX versions 4 and 5. */
  lemma {:induction false} TdxFields(q: seq<byte>)
    ensures ParseTdxQuote(q).Some? <==> IsTdx4Quote(q) || IsTdx5Quote(q)
    ensures IsTdx4Quote(q) ==> Tdx4At(ParseTdxQuote(q).value, q)
    ensures IsTdx5Quote(q) ==> Tdx5At(ParseTdxQuote(q).value, q)
  {
    HeaderFields(q);
    if |q| >= 12 {
      HeaderNumbers(q);
      if NatLE(q[0..2]) == 4 {
        Tdx4Fields(q);
      } else if NatLE(q[0..2]) == 5 {
        Tdx5Fields(q);
      }
    }
    hide Decode, NatLE, Section, FieldsAt, Shaped, Complete, ParseTdxSigData, SigData, ParseBody15;
  }

  lemma {:induction false} Tdx4Fields(q: seq<byte>)
    requires |q| >= 12 && Decode(HEADER, q).Some? && Decode(HEADER, q).value[0] == N(4) && NatLE(q[0..2]) == 4
    requires FieldsAt(HEADER_AT, Decode(HEADER, q).value, q)
    ensures ParseTdxQuote(q).Some? <==> IsTdx4Quote(q)
    ensures IsTdx4Quote(q) ==> Tdx4At(ParseTdxQuote(q).value, q)
  {
    Tdx10BodyFields(Rest(q, 48));
    SectionIsSigData(q, 632);
    if |q| >= 636 {
      TdxSignature(Section(q, 632));
    }
    hide Decode, NatLE, Section, FieldsAt, Shaped, Complete, ParseTdxSigData, SigData;
  }

  lemma {:induction false} Tdx5Fields(q: seq<byte>)
    requires |q| >= 12 && Decode(HEADER, q).Some? && Decode(HEADER, q).value[0] == N(5) && NatLE(q[0..2]) == 5
    requires FieldsAt(HEADER_AT, Decode(HEADER, q).value, q)
    ensures ParseTdxQuote(q).Some? <==> IsTdx5Quote(q)
    ensures IsTdx5Quote(q) ==> Tdx5At(ParseTdxQuote(q).value, q)
  {
    hide Decode, NatLE, Section, FieldsAt, Shaped, Complete, ParseTdxSigData, SigData;
    if |q| >= 54 {
      var n := NatLE(q[50..54]);
      var bytes := Slice(q, 54, 54 + n);
      Tdx10BodyFields(bytes);
      Tdx15BodyFields(bytes);
      SectionIsSigData(q, 54 + n);
      if |q| >= 58 + n {
        TdxSignature(Section(q, 54 + n));
      }
    }
  }

  // ---- the fields that the verifier uses ----

  /** An SGX quote: cpu_svn, attributes, mr_enclave, mr_signer and report_data. */
  lemma {:induction false} SgxNamedFields(q: seq<byte>)
    requires ParseSgxQuote(q).Some?
    ensures var body := ParseSgxQuote(q).value.body;
            && |q| >= 436 && |body| == 12 && body[0] == B(q[48..64]) && body[3] == B(q[96..112])
            && body[4] == B(q[112..144]) && body[6] == B(q[176..208]) && body[11] == B(q[368..432])
  {
    hide ParseSgxQuote, FieldsAt, NatLE, Complete, Section, SignatureAt, Slice;
    SgxFields(q);
    var vs := ParseSgxQuote(q).value.body;
    BytesField(SGX_BODY, SGX_AT, vs, q[48..], 0);
    SliceBehind(q, 48, 0, 16);
    BytesField(SGX_BODY, SGX_AT, vs, q[48..], 3);
    SliceBehind(q, 48, 48, 64);
    BytesField(SGX_BODY, SGX_AT, vs, q[48..], 4);
    SliceBehind(q, 48, 64, 96);
    BytesField(SGX_BODY, SGX_AT, vs, q[48..], 6);
    SliceBehind(q, 48, 128, 160);
    BytesField(SGX_BODY, SGX_AT, vs, q[48..], 11);
    SliceBehind(q, 48, 320, 384);
  }

  lemma {:induction false} SliceBehind(q: seq<byte>, start: nat, lo: nat, hi: nat)
    requires lo <= hi && start + hi <= |q|
    ensures Slice(q[start..], lo, hi) == q[start + lo..start + hi]
  {
  }

  /** The body of a TDX quote: in version 5 it is cut out by the descriptor between header and body. */
  function TdxBody(q: seq<byte>): seq<byte> {
    if NatLE(Slice(q, 0, 2)) == 5 then Slice(q, 54, 54 + NatLE(Slice(q, 50, 54))) else Rest(q, 48)
  }

  /** Fields by number, each between two offsets. */
  predicate TdxNamed(vs: seq<Value>, s: seq<byte>) {
    && |vs| >= 16 && vs[0] == B(Slice(s, 0, 16)) && vs[5] == B(Slice(s, 120, 128)) && vs[6] == B(Slice(s, 128, 136))
    && vs[7] == B(Slice(s, 136, 184)) && vs[11] == B(Slice(s, 328, 376)) && vs[12] == B(Slice(s, 376, 424))
    && vs[13] == B(Slice(s, 424, 472)) && vs[14] == B(Slice(s, 472, 520)) && vs[15] == B(Slice(s, 520, 584))
  }

  /** A layout that has these fields of bytes between these offsets. */
  predicate NamesFields(l: seq<Field>, at: seq<nat>) {
    && |l| >= 16 && |at| == |l| + 1
    && l[0].Buf? && l[5].Buf? && l[6].Buf? && l[7].Buf? && l[11].Buf? && l[12].Buf? && l[13].Buf? && l[14].Buf?
    && l[15].Buf? && at[0] == 0 && at[1] == 16 && at[5] == 120 && at[6] == 128 && at[7] == 136 && at[8] == 184
    && at[11] == 328 && at[12] == 376 && at[13] == 424 && at[14] == 472 && at[15] == 520 && at[16] == 584
  }

  lemma {:induction false} FieldsNamed(l: seq<Field>, at: seq<nat>, vs: seq<Value>, s: seq<byte>)
    requires NamesFields(l, at) && FieldsAt(at, vs, s) && Shaped(l, vs)
    ensures TdxNamed(vs, s)
  {
    hide FieldsAt, Slice;
    BytesField(l, at, vs, s, 0);
    BytesField(l, at, vs, s, 5);
    BytesField(l, at, vs, s, 6);
    BytesField(l, at, vs, s, 7);
    BytesField(l, at, vs, s, 11);
    BytesField(l, at, vs, s, 12);
    BytesField(l, at, vs, s, 13);
    BytesField(l, at, vs, s, 14);
    BytesField(l, at, vs, s, 15);
  }

  lemma {:induction false} TdxNames()
    ensures NamesFields(TDX_BODY_10, TDX_10_AT) && NamesFields(TDX_BODY_15, TDX_15_AT)
  {
  }

  /**
   A TDX quote of either version: tee_tcb_svn, td_attributes, xfam, mr_td, the four rtmr and report_data are
   the fields 0, 5, 6, 7, 11 to 14 and 15.
   */
  lemma {:induction false} TdxNamedFields(q: seq<byte>)
    requires ParseTdxQuote(q).Some?
    ensures TdxNamed(ParseTdxQuote(q).value.body, TdxBody(q))
  {
    TdxNames();
    hide ParseTdxQuote, FieldsAt, Shaped, NatLE, Complete, Section, SignatureAt, TdxNamed, NamesFields;
    TdxFields(q);
    var vs := ParseTdxQuote(q).value.body;
    if IsTdx5Quote(q) && NatLE(q[48..50]) == 3 {
      FieldsNamed(TDX_BODY_15, TDX_15_AT, vs, TdxBody(q));
    } else {
      FieldsNamed(TDX_BODY_10, TDX_10_AT, vs, TdxBody(q));
    }
  }

  /** The report data of a QE report are its last 64 bytes. */
  lemma {:induction false} QeReportData(report: seq<byte>)
    requires |report| == 384
    ensures Decode(SGX_BODY, report).Some? && Decode(SGX_BODY, report).value[11] == B(report[320..384])
  {
    SgxBodyFields(report);
    hide Decode, FieldsAt;
    BytesField(SGX_BODY, SGX_AT, Decode(SGX_BODY, report).value, report, 11);
  }
}
