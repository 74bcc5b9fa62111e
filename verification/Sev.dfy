/** SEV-SNP attestation reports (qvl/src/structsSev.ts, qvl/src/parseSev.ts). */
module Sev {
  import opened Bytes
  import opened Layout
  import Signatures

  const BODY: seq<Field> := [
    Num(4), Num(4), Buf(8), Buf(16), Buf(16), Num(4), Num(4), Buf(8), Buf(8), Num(4), Num(4),
    Buf(64), Buf(48), Buf(32), Buf(48), Buf(48), Buf(32), Buf(32), Buf(8), Buf(24), Buf(64), Buf(8),
    Num(1), Num(1), Num(1), Num(1), Num(1), Num(1), Num(1), Num(1), Buf(8), Buf(168)]

  const SIGNATURE: seq<Field> := [Buf(72), Buf(72), Buf(368)]

  const BODY_SIZE := 672
  const REPORT_SIZE := 1184

  const REPORTED_TCB := 18
  const CHIP_ID := 20

  datatype Report = Report(body: seq<Value>, r: seq<byte>, s: seq<byte>, raw: seq<byte>)

  function ParseSevSnpReport(report: seq<byte>): (p: Option<Report>)
    ensures p.Some? ==> Shaped(BODY, p.value.body)
  {
    if |report| < REPORT_SIZE || NatLE(report[..4]) < 2 then None
    else
      var body, signature := Decode(BODY, report[..BODY_SIZE]), Decode(SIGNATURE, report[BODY_SIZE..]);
      if body.None? || signature.None? then None
      else Some(Report(body.value, signature.value[0].b, signature.value[1].b, report[..REPORT_SIZE]))
  }

  /**
   The offsets of the fields of a report: among them the version at 0, report_data at 80, the measurement
   at 144, reported_tcb at 384 and chip_id at 416.
   */
  const BODY_AT: seq<nat> := [
    0, 4, 8, 16, 32, 48, 52, 56, 64, 72, 76, 80, 144, 192, 224, 272, 320, 352, 384, 392, 416, 480,
    488, 489, 490, 491, 492, 493, 494, 495, 496, 504, 672]

  lemma {:induction false} FrontOffsets()
    ensures |BODY| == 32 && |BODY_AT| == 33 && BODY_AT[0] == 0
    ensures forall k :: 0 <= k < 16 ==> BODY_AT[k + 1] == BODY_AT[k] + BODY[k].width
  {
  }

  lemma {:induction false} BackOffsets()
    ensures |BODY| == 32 && |BODY_AT| == 33
    ensures forall k :: 16 <= k < 32 ==> BODY_AT[k + 1] == BODY_AT[k] + BODY[k].width
  {
  }

  lemma {:induction false} BodyOffsets()
    ensures Offsets(BODY, BODY_AT)
  {
    hide BODY, BODY_AT;
    FrontOffsets();
    BackOffsets();
  }

  /**
   A report is parsed if and only if it has 1184 bytes and a version of at least two. Every field holds
   the bytes between its offsets, and `r` and `s` those at 672 and at 744.
   */
  lemma {:induction false} ReportFields(report: seq<byte>)
    ensures ParseSevSnpReport(report).Some? <==> |report| >= 1184 && NatLE(report[..4]) >= 2
    ensures ParseSevSnpReport(report).Some? ==>
      var p := ParseSevSnpReport(report).value;
      && FieldsAt(BODY_AT, p.body, report)
      && p.r == report[672..744] && p.s == report[744..816] && p.raw == report[..1184]
  {
    hide Decode, Size, NatLE, FieldsAt, Shaped;
    if |report| >= 1184 {
      BodyOffsets();
      OffsetsAreSizes(BODY, BODY_AT, 32);
      assert BODY[..32] == BODY;
      Local(BODY, report);
      AllFieldsAt(BODY, BODY_AT, report);
      SignatureFields(report);
    }
  }

  const SIGNATURE_AT: seq<nat> := [0, 72, 144, 512]

  lemma {:induction false} SignatureOffsets()
    ensures Offsets(SIGNATURE, SIGNATURE_AT) && Size(SIGNATURE) == 512
    ensures SIGNATURE[0] == Buf(72) && SIGNATURE[1] == Buf(72)
  {
    OffsetsAreSizes(SIGNATURE, SIGNATURE_AT, 3);
    assert SIGNATURE[..3] == SIGNATURE;
  }

  lemma {:induction false} SignatureFields(report: seq<byte>)
    requires |report| >= 1184
    ensures Decode(SIGNATURE, report[672..]).Some?
    ensures Decode(SIGNATURE, report[672..]).value[0] == B(report[672..744])
    ensures Decode(SIGNATURE, report[672..]).value[1] == B(report[744..816])
  {
    var s := report[672..];
    SignatureOffsets();
    hide Decode, Size, Slice;
    Local(SIGNATURE, s);
    AllFieldsAt(SIGNATURE, SIGNATURE_AT, s);
    var vs := Decode(SIGNATURE, s).value;
    assert Carries(vs[0], Slice(s, SIGNATURE_AT[0], SIGNATURE_AT[1]));
    assert Carries(vs[1], Slice(s, SIGNATURE_AT[1], SIGNATURE_AT[2]));
    assert s[0..72] == report[672..744] && s[72..144] == report[744..816];
  }

  /** The two fields that identify a chip and its firmware. */
  lemma {:induction false} ChipFields(report: seq<byte>)
    requires ParseSevSnpReport(report).Some?
    ensures ParseSevSnpReport(report).value.body[REPORTED_TCB] == B(report[384..392])
    ensures ParseSevSnpReport(report).value.body[CHIP_ID] == B(report[416..480])
  {
    ReportFields(report);
    hide ParseSevSnpReport, Slice;
    var vs := ParseSevSnpReport(report).value.body;
    assert Carries(vs[18], Slice(report, BODY_AT[18], BODY_AT[19]));
    assert Carries(vs[20], Slice(report, BODY_AT[20], BODY_AT[21]));
    assert BODY[18].Buf? && BODY[20].Buf?;
  }

  /** `getSevSnpRawSignature`: both numbers, big-endian, 48 bytes each. */
  method GetSevSnpRawSignature(report: Report) returns (raw: seq<byte>)
    ensures |raw| == 96
    ensures NatBE(raw[..48]) == NatLE(report.r) % Pow256(48)
    ensures NatBE(raw[48..]) == NatLE(report.s) % Pow256(48)
  {
    hide NatLE, NatBE, Pow256;
    var r := Signatures.ConvertSignatureComponent(report.r);
    var s := Signatures.ConvertSignatureComponent(report.s);
    raw := r + s;
    assert raw[..48] == r && raw[48..] == s;
  }
}
