/**
 The complete check of an Intel quote (`verifyTdx` and `verifySgx`). The two differ in the parser,
 the signed region, the TEE type and the certificate data types; `Kind` selects these.
 */
module Trust {
  import opened Bytes
  import opened Layout
  import opened Quotes
  import opened PckChain
  import opened QuoteFields
  import PckTheorems

  datatype Kind = Tdx | Sgx

  /** What a TCB evaluator is shown. */
  datatype TcbInput = TcbInput(fmspc: string, quote: Quote, cpuSvn: seq<byte>, pceSvn: int)

  /**
   The platform: PEM extraction, certificate parsing (`None`: throws), signature checks and digests,
   any deterministic functions. `ecdsaSpki` is false where the key import throws, since that is
   caught; `ecdsaRaw` is `None` there.
   */
  datatype Platform = Platform(
    extract: seq<byte> -> seq<string>,
    load: string -> Option<Cert>,
    verify: Verifier,
    sha256: seq<byte> -> seq<byte>,
    ecdsaSpki: (seq<byte>, seq<byte>, seq<byte>) -> bool,
    ecdsaRaw: (seq<byte>, seq<byte>, seq<byte>) -> Option<bool>)

  datatype Config = Config(
    pinned: seq<Cert>, date: Option<int>, extra: Option<seq<string>>, crls: seq<seq<byte>>,
    tcb: Option<TcbInput -> bool>, measurements: Option<Quote -> bool>)

  /** `return true`, `return false`, or a thrown error. */
  datatype Outcome = Accepted | Rejected | Threw

  function Parse(kind: Kind, quote: seq<byte>): (r: Option<Quote>)
    ensures r.Some? ==> Shaped(HEADER, r.value.header)
  {
    if kind.Tdx? then ParseTdxQuote(quote) else ParseSgxQuote(quote)
  }

  function SignedRegion(kind: Kind, quote: seq<byte>): Option<seq<byte>> {
    if kind.Tdx? then TdxSignedRegion(quote) else Some(SgxSignedRegion(quote))
  }

  function LoadAll(env: Platform, pems: seq<string>): (r: Option<seq<Cert>>)
    ensures r.Some? <==> forall i :: 0 <= i < |pems| ==> env.load(pems[i]).Some?
    ensures r.Some? ==> |r.value| == |pems| && forall i :: 0 <= i < |pems| ==> Some(r.value[i]) == env.load(pems[i])
  {
    if pems == [] then Some([])
    else
      var first, rest := env.load(pems[0]), LoadAll(env, pems[1..]);
      if first.None? || rest.None? then None else Some([first.value] + rest.value)
  }

  predicate BagStops(env: Platform, pems: seq<string>) {
    LoadAll(env, pems).Some? ==> WalkStops(LoadAll(env, pems).value)
  }

  function ChainOf(env: Platform, pems: seq<string>, time: Option<int>, crls: seq<seq<byte>>): Option<ChainResult>
    requires BagStops(env, pems) && CrlsStop(crls)
  {
    var certs := LoadAll(env, pems);
    if certs.None? then None else Some(ChainVerdict(certs.value, env.verify, time, crls))
  }

  function Time(cfg: Config, now: int): Option<int> {
    Some(if cfg.date.Some? then cfg.date.value else now)
  }

  /** The certificates that are used: those in the quote, and the extra ones only if it has none. */
  function Bag(env: Platform, s: Signature, cfg: Config): seq<string> {
    var certs := env.extract(s.certData);
    if certs != [] then certs else if cfg.extra.Some? then cfg.extra.value else []
  }

  /** Both path computations end. */
  predicate Ends(env: Platform, s: Signature, cfg: Config) {
    BagStops(env, env.extract(s.certData)) && BagStops(env, Bag(env, s, cfg)) && CrlsStop(cfg.crls)
  }

  /** The dated path, with the fallback (`_verifyTdx`, `_verifySgx`). */
  function DatedChain(env: Platform, s: Signature, cfg: Config, now: int): Option<ChainResult>
    requires Ends(env, s, cfg)
  {
    var certs := env.extract(s.certData);
    var first := ChainOf(env, certs, Time(cfg, now), cfg.crls);
    if first.None? then None
    else if first.value.root.None? && certs == [] then
      if cfg.extra.None? then None else ChainOf(env, Bag(env, s, cfg), Time(cfg, now), cfg.crls)
    else first
  }

  /** The QE report is signed by the leaf of a path that is computed anew, with no date and no lists. */
  function QeReportSigned(env: Platform, s: Signature, cfg: Config): Option<bool>
    requires Ends(env, s, cfg)
  {
    var certs := Bag(env, s, cfg);
    if |s.qeReport| != 384 || certs == [] then Some(false)
    else
      var r := ChainOf(env, certs, None, []);
      if r.None? then None
      else if r.value.chain == [] then Some(false)
      else Some(env.ecdsaSpki(r.value.chain[0].key, s.qeReportSignature, s.qeReport))
  }

  /** The QE report commits to the attestation key, as it stands or with its uncompressed-point prefix. */
  predicate KeyBound(env: Platform, s: Signature) {
    var data := Slice(Slice(s.qeReport, 320, 384), 0, 32);
    || env.sha256(s.attestationKey + s.authData) == data
    || env.sha256([4] + s.attestationKey + s.authData) == data
  }

  function QuoteSigned(kind: Kind, env: Platform, quote: seq<byte>, s: Signature): Option<bool> {
    var region := SignedRegion(kind, quote);
    if region.None? || |s.attestationKey| != 64 then None
    else env.ecdsaRaw(s.attestationKey, s.ecdsa, region.value)
  }

  predicate PinnedRoot(env: Platform, root: Cert, cfg: Config) {
    exists k :: 0 <= k < |cfg.pinned| && env.sha256(cfg.pinned[k].raw) == env.sha256(root.raw)
  }

  predicate TypesOk(kind: Kind, q: Quote)
    requires Shaped(HEADER, q.header)
  {
    && q.header[2].n == (if kind.Tdx? then 129 else 0)
    && q.header[1].n == 2
    && (q.signature.certDataType == 5 || (kind.Sgx? && q.signature.certDataType == 1))
  }

  /** The CPU SVN is the first field of either body. */
  function CpuSvn(q: Quote): seq<byte> {
    if q.body != [] && q.body[0].B? then q.body[0].b else []
  }

  function TcbShown(kind: Kind, q: Quote, fmspc: string, pcesvn: int): TcbInput
    requires Shaped(HEADER, q.header)
  {
    TcbInput(fmspc, q, CpuSvn(q), if kind.Sgx? && q.signature.certDataType == 1 then q.header[4].n else pcesvn)
  }

  function Verify(kind: Kind, env: Platform, quote: seq<byte>, cfg: Config, now: int): Outcome
    requires Parse(kind, quote).Some? ==> Ends(env, Parse(kind, quote).value.signature, cfg)
  {
    var parsed := Parse(kind, quote);
    if parsed.None? then Threw
    else
      var s := parsed.value.signature;
      var r := DatedChain(env, s, cfg, now);
      if r.None? || r.value.status != Valid || r.value.root.None? then Threw
      else if !PinnedRoot(env, r.value.root.value, cfg) then Threw
      else if !TypesOk(kind, parsed.value) then Threw
      else if QeReportSigned(env, s, cfg) != Some(true) then Threw
      else if !KeyBound(env, s) then Threw
      else if QuoteSigned(kind, env, quote, s) != Some(true) then Threw
      else if r.value.fmspc.None? || r.value.pcesvn.None? then Threw
      else if cfg.tcb.Some?
              && !cfg.tcb.value(TcbShown(kind, parsed.value, r.value.fmspc.value, r.value.pcesvn.value)) then Rejected
      else if cfg.measurements.Some? && !cfg.measurements.value(parsed.value) then Threw
      else Accepted
  }

  // ---- the chain of trust ----

  /** One path from a pinned root to the key that signed the QE report, acceptable at the given or the current time. */
  ghost predicate PathTrusted(env: Platform, path: seq<Cert>, s: Signature, cfg: Config, now: int)
    requires path != [] && CrlsStop(cfg.crls)
  {
    && (exists k :: 0 <= k < |cfg.pinned| && env.sha256(cfg.pinned[k].raw) == env.sha256(path[|path| - 1].raw))
    && Timely(path, match cfg.date case Some(date) => date case None => now)
    && Sound(path, env.verify)
    && !Listed(path, cfg.crls)
    && |s.qeReport| == 384 && env.ecdsaSpki(path[0].key, s.qeReportSignature, s.qeReport)
  }

  /** Where the signed region ends: behind header and body, and in version 5 the body descriptor between them. */
  function RegionEnd(kind: Kind, quote: seq<byte>): nat {
    if kind.Sgx? then 432
    else if NatLE(Slice(quote, 0, 2)) == 4 then 632
    else 54 + NatLE(Slice(quote, 50, 54))
  }

  /**
   Bytes 320 to 352 of the QE report are the digest of the attestation key and the auth data, and that key
   signed the region that the parser reads.
   */
  ghost predicate RegionTrusted(kind: Kind, env: Platform, quote: seq<byte>, s: Signature)
    requires |s.qeReport| == 384
  {
    && (|| s.qeReport[320..352] == env.sha256(s.attestationKey + s.authData)
        || s.qeReport[320..352] == env.sha256([4] + s.attestationKey + s.authData))
    && |s.attestationKey| == 64
    && env.ecdsaRaw(s.attestationKey, s.ecdsa, Slice(quote, 0, RegionEnd(kind, quote))) == Some(true)
  }

  /** What a TCB evaluator has to be shown, by the offsets in the quote. */
  ghost function ShownBytes(kind: Kind, quote: seq<byte>, q: Quote, leaf: Cert): TcbInput
    requires leaf.fmspc.Some? && leaf.pcesvn.Some?
  {
    var body := if kind.Tdx? then TdxBody(quote) else Rest(quote, 48);
    TcbInput(leaf.fmspc.value, q, Slice(body, 0, 16),
             if kind.Sgx? && q.signature.certDataType == 1 then NatLE(Slice(quote, 10, 12)) else leaf.pcesvn.value)
  }

  /** The header is about an ECDSA quote of this TEE, and the certificate data are of a kind that is supported. */
  ghost predicate Supported(kind: Kind, quote: seq<byte>, q: Quote) {
    && NatLE(Slice(quote, 4, 8)) == (match kind case Tdx => 129 case Sgx => 0)
    && NatLE(Slice(quote, 2, 4)) == 2
    && (kind.Tdx? ==> q.signature.certDataType == 5)
    && (kind.Sgx? ==> q.signature.certDataType == 1 || q.signature.certDataType == 5)
  }

  /** All that does not depend on the configured evaluators. */
  ghost predicate ChainOfTrust(kind: Kind, env: Platform, quote: seq<byte>, cfg: Config, now: int)
    requires Parse(kind, quote).Some? ==> Ends(env, Parse(kind, quote).value.signature, cfg)
  {
    && Parse(kind, quote).Some?
    && var q := Parse(kind, quote).value;
       var path := PathUsed(env, q.signature, cfg);
       && path.Some? && PathTrusted(env, path.value, q.signature, cfg, now)
       && RegionTrusted(kind, env, quote, q.signature) && Supported(kind, quote, q)
       && path.value[0].fmspc.Some? && path.value[0].pcesvn.Some?
  }

  /** The TCB evaluator, if there is one, accepts what it has to be shown. */
  ghost predicate TcbAccepts(kind: Kind, env: Platform, quote: seq<byte>, cfg: Config, now: int)
    requires Parse(kind, quote).Some? ==> Ends(env, Parse(kind, quote).value.signature, cfg)
    requires ChainOfTrust(kind, env, quote, cfg, now)
  {
    var q := Parse(kind, quote).value;
    cfg.tcb.Some? ==> cfg.tcb.value(ShownBytes(kind, quote, q, PathUsed(env, q.signature, cfg).value[0]))
  }

  /** The path that the quote, or else the configuration, carries. */
  ghost function PathUsed(env: Platform, s: Signature, cfg: Config): Option<seq<Cert>>
    requires Ends(env, s, cfg)
  {
    var pems := env.extract(s.certData);
    var certs := LoadAll(env, if pems != [] then pems else match cfg.extra case Some(extra) => extra case None => []);
    if certs.None? || certs.value == [] then None else Some(Path(certs.value))
  }

  /** The dated computation, with or without the fallback, is about the path of the bag that is used. */
  lemma {:induction false} DatedIsUsed(env: Platform, s: Signature, cfg: Config, now: int)
    requires Ends(env, s, cfg)
    ensures var r := DatedChain(env, s, cfg, now);
            (r.Some? && r.value.status == Valid)
            <==> (&& PathUsed(env, s, cfg).Some?
                  && Verdict(PathUsed(env, s, cfg).value, env.verify, Time(cfg, now), RevokedSet(cfg.crls)) == Valid)
    ensures var r := DatedChain(env, s, cfg, now);
            r.Some? && r.value.status == Valid
            ==> r.value == Report(PathUsed(env, s, cfg).value, Valid)
  {
    hide Verdict, RevokedSet, Path, PckChain.WalkStops;
    assert LoadAll(env, []) == Some([]);
  }

  /** On a path that is valid with the date and the lists, the undated computation returns that same path. */
  lemma {:induction false} UndatedIsUsed(env: Platform, s: Signature, cfg: Config, now: int)
    requires Ends(env, s, cfg) && PathUsed(env, s, cfg).Some?
    requires Verdict(PathUsed(env, s, cfg).value, env.verify, Time(cfg, now), RevokedSet(cfg.crls)) == Valid
    ensures ChainOf(env, Bag(env, s, cfg), None, []).Some?
    ensures ChainOf(env, Bag(env, s, cfg), None, []).value.chain == PathUsed(env, s, cfg).value
  {
    hide Path, PckChain.WalkStops, Verdict, RevokedSet, LoadAll;
    var certs := LoadAll(env, Bag(env, s, cfg)).value;
    PckTheorems.ValidWithoutDate(certs, env.verify, Time(cfg, now), cfg.crls);
  }

  lemma {:induction false} VerdictTrusted(path: seq<Cert>, verify: Verifier, time: int, crls: seq<seq<byte>>)
    requires path != [] && CrlsStop(crls) && forall j :: 0 <= j < |path| - 1 ==> !SelfIssued(path[j])
    ensures Verdict(path, verify, Some(time), RevokedSet(crls)) == Valid
       <==> Timely(path, time) && Sound(path, verify) && !Listed(path, crls)
  {
    hide Verdict, RevokedSet, Timely, Sound, Listed;
    ReportMeans(path, verify, Some(time), crls);
  }

  lemma {:induction false} UsedIsBuilt(env: Platform, s: Signature, cfg: Config)
    requires Ends(env, s, cfg) && PathUsed(env, s, cfg).Some?
    ensures var p := PathUsed(env, s, cfg).value; p != [] && forall j :: 0 <= j < |p| - 1 ==> !SelfIssued(p[j])
  {
    hide Path, LoadAll, SelfIssued;
    PathFacts(LoadAll(env, Bag(env, s, cfg)).value);
  }

  /** The dated chain, the pinned root and the check of the QE report are about one trusted path. */
  lemma {:induction false} ChainTrusted(env: Platform, s: Signature, cfg: Config, now: int)
    requires Ends(env, s, cfg)
    ensures var r := DatedChain(env, s, cfg, now);
            (&& r.Some? && r.value.status == Valid && r.value.root.Some?
             && PinnedRoot(env, r.value.root.value, cfg) && QeReportSigned(env, s, cfg) == Some(true))
            <==> PathUsed(env, s, cfg).Some? && PathTrusted(env, PathUsed(env, s, cfg).value, s, cfg, now)
    ensures var r := DatedChain(env, s, cfg, now);
            r.Some? && r.value.status == Valid ==>
              PathUsed(env, s, cfg).Some? && r.value == Report(PathUsed(env, s, cfg).value, Valid)
  {
    DatedIsUsed(env, s, cfg, now);
    if PathUsed(env, s, cfg).Some? {
      UsedIsBuilt(env, s, cfg);
      VerdictTrusted(PathUsed(env, s, cfg).value, env.verify, Time(cfg, now).value, cfg.crls);
      if Verdict(PathUsed(env, s, cfg).value, env.verify, Time(cfg, now), RevokedSet(cfg.crls)) == Valid {
        UndatedIsUsed(env, s, cfg, now);
        assert Bag(env, s, cfg) != [];
      }
    }
    hide DatedChain, RevokedSet, Verdict, Timely, Sound, Listed, Path, LoadAll, SelfIssued;
  }

  /** Bytes of an SGX quote that decide. */
  lemma {:induction false} SgxBytes(quote: seq<byte>)
    requires ParseSgxQuote(quote).Some?
    ensures var q := ParseSgxQuote(quote).value;
            && q.header[1].n == NatLE(Slice(quote, 2, 4)) && q.header[2].n == NatLE(Slice(quote, 4, 8))
            && q.header[4].n == NatLE(Slice(quote, 10, 12)) && CpuSvn(q) == Slice(Rest(quote, 48), 0, 16)
            && |q.signature.qeReport| == 384
            && SgxSignedRegion(quote) == Slice(quote, 0, RegionEnd(Sgx, quote))
  {
    SgxFields(quote);
    SgxNamedFields(quote);
    HeaderNumbers(quote);
    hide FieldsAt, NatLE, Decode, Complete, Section, ParseSgxSigData;
  }

  lemma {:induction false} TdxRegion(quote: seq<byte>)
    requires IsTdx4Quote(quote) || IsTdx5Quote(quote)
    ensures TdxSignedRegion(quote) == Some(Slice(quote, 0, RegionEnd(Tdx, quote)))
  {
    HeaderNumbers(quote);
    hide NatLE, Decode, Complete, Section;
  }

  lemma {:induction false} QeSize(quote: seq<byte>)
    requires ParseTdxQuote(quote).Some?
    ensures |ParseTdxQuote(quote).value.signature.qeReport| == 384
  {
    TdxFields(quote);
    hide NatLE, FieldsAt, Section, ParseTdxQuote;
  }

  lemma {:induction false} TdxHeader(quote: seq<byte>)
    requires ParseTdxQuote(quote).Some?
    ensures var h := ParseTdxQuote(quote).value.header;
            |h| == 7 && h[1] == N(NatLE(Slice(quote, 2, 4))) && h[2] == N(NatLE(Slice(quote, 4, 8)))
  {
    hide NatLE, FieldsAt, Complete, Section, ParseTdxQuote, SignatureAt, Slice;
    TdxFields(quote);
    var h := ParseTdxQuote(quote).value.header;
    NumberAt(HEADER, HEADER_AT, h, quote, 1);
    NumberAt(HEADER, HEADER_AT, h, quote, 2);
  }

  lemma {:induction false} TdxSvn(quote: seq<byte>)
    requires ParseTdxQuote(quote).Some?
    ensures CpuSvn(ParseTdxQuote(quote).value) == Slice(TdxBody(quote), 0, 16)
  {
    hide ParseTdxQuote, TdxBody, Slice;
    TdxNamedFields(quote);
  }

  lemma {:induction false} TdxBytes(quote: seq<byte>)
    requires ParseTdxQuote(quote).Some?
    ensures var q := ParseTdxQuote(quote).value;
            && q.header[1].n == NatLE(Slice(quote, 2, 4)) && q.header[2].n == NatLE(Slice(quote, 4, 8))
            && CpuSvn(q) == Slice(TdxBody(quote), 0, 16) && |q.signature.qeReport| == 384
            && TdxSignedRegion(quote) == Some(Slice(quote, 0, RegionEnd(Tdx, quote)))
  {
    hide NatLE, FieldsAt, IsTdx4Quote, IsTdx5Quote, ParseTdxQuote, TdxBody, TdxSignedRegion, RegionEnd, SignatureAt,
         Slice, CpuSvn;
    TdxFields(quote);
    QeSize(quote);
    TdxRegion(quote);
    TdxHeader(quote);
    TdxSvn(quote);
  }

  lemma {:induction false} QuoteBytes(kind: Kind, quote: seq<byte>)
    requires Parse(kind, quote).Some?
    ensures var q := Parse(kind, quote).value;
            && |q.signature.qeReport| == 384 && (TypesOk(kind, q) <==> Supported(kind, quote, q))
            && SignedRegion(kind, quote) == Some(Slice(quote, 0, RegionEnd(kind, quote)))
            && forall leaf: Cert :: leaf.fmspc.Some? && leaf.pcesvn.Some? ==>
                 TcbShown(kind, q, leaf.fmspc.value, leaf.pcesvn.value) == ShownBytes(kind, quote, q, leaf)
  {
    hide ParseSgxQuote, ParseTdxQuote, NatLE, Slice, CpuSvn, TdxBody, TdxSignedRegion, SgxSignedRegion, RegionEnd;
    if kind.Sgx? {
      SgxBytes(quote);
    } else {
      TdxBytes(quote);
    }
  }

  /** All the checks of the verifier in the order in which it makes them, up to the evaluators. */
  ghost predicate AllChecks(kind: Kind, env: Platform, quote: seq<byte>, cfg: Config, now: int)
    requires Parse(kind, quote).Some? && Ends(env, Parse(kind, quote).value.signature, cfg)
  {
    var q := Parse(kind, quote).value;
    var r := DatedChain(env, q.signature, cfg, now);
    && r.Some? && r.value.status == Valid && r.value.root.Some?
    && PinnedRoot(env, r.value.root.value, cfg) && QeReportSigned(env, q.signature, cfg) == Some(true)
    && TypesOk(kind, q) && KeyBound(env, q.signature)
    && QuoteSigned(kind, env, quote, q.signature) == Some(true)
    && r.value.fmspc.Some? && r.value.pcesvn.Some?
  }

  lemma {:induction false} VerifyIs(kind: Kind, env: Platform, quote: seq<byte>, cfg: Config, now: int)
    requires Parse(kind, quote).Some? && Ends(env, Parse(kind, quote).value.signature, cfg)
    ensures AllChecks(kind, env, quote, cfg, now) ==>
      var q := Parse(kind, quote).value;
      var r := DatedChain(env, q.signature, cfg, now).value;
      Verify(kind, env, quote, cfg, now)
      == if cfg.tcb.Some? && !cfg.tcb.value(TcbShown(kind, q, r.fmspc.value, r.pcesvn.value)) then Rejected
         else if cfg.measurements.Some? && !cfg.measurements.value(q) then Threw
         else Accepted
    ensures !AllChecks(kind, env, quote, cfg, now) ==> Verify(kind, env, quote, cfg, now) == Threw
  {
    hide Parse, DatedChain, PinnedRoot, KeyBound, TypesOk, QeReportSigned, QuoteSigned, TcbShown, Ends;
  }

  lemma {:induction false} RegionIff(kind: Kind, env: Platform, quote: seq<byte>, s: Signature)
    requires |s.qeReport| == 384 && SignedRegion(kind, quote) == Some(Slice(quote, 0, RegionEnd(kind, quote)))
    ensures KeyBound(env, s) && QuoteSigned(kind, env, quote, s) == Some(true) <==> RegionTrusted(kind, env, quote, s)
  {
    hide SignedRegion, RegionEnd;
    assert Slice(Slice(s.qeReport, 320, 384), 0, 32) == s.qeReport[320..352];
  }

  lemma {:induction false} ChecksAreTrust(kind: Kind, env: Platform, quote: seq<byte>, cfg: Config, now: int)
    requires Parse(kind, quote).Some? && Ends(env, Parse(kind, quote).value.signature, cfg)
    ensures AllChecks(kind, env, quote, cfg, now) <==> ChainOfTrust(kind, env, quote, cfg, now)
    ensures AllChecks(kind, env, quote, cfg, now) ==>
      var q := Parse(kind, quote).value;
      DatedChain(env, q.signature, cfg, now).value == Report(PathUsed(env, q.signature, cfg).value, Valid)
  {
    hide Parse, DatedChain, PinnedRoot, TypesOk, Supported, QeReportSigned, PathTrusted, PathUsed, SignedRegion, Ends,
         TcbShown, ShownBytes, RegionEnd, KeyBound, QuoteSigned, RegionTrusted, Slice, CrlsStop;
    QuoteBytes(kind, quote);
    ChainTrusted(env, Parse(kind, quote).value.signature, cfg, now);
    RegionIff(kind, env, quote, Parse(kind, quote).value.signature);
  }

  /**
   `verifyTdx` and `verifySgx` return true exactly when ONE certificate path ends in a pinned root,
   passes the time, signature, role, path-length and revocation checks, and has as its leaf the key
   that signed the QE report; the report commits to the attestation key; that key signed the region
   that holds the parsed header and body; and the evaluators accept what they have to be shown. They
   return false exactly when only the TCB evaluator refuses, and throw otherwise. The path that
   checked the QE report is the one that was dated and checked for revocation, although it is
   computed a second time without a date and without lists, also when it comes from the fallback.
   */
  lemma {:induction false} AcceptedIff(kind: Kind, env: Platform, quote: seq<byte>, cfg: Config, now: int)
    requires Parse(kind, quote).Some? ==> Ends(env, Parse(kind, quote).value.signature, cfg)
    ensures Verify(kind, env, quote, cfg, now) == Accepted
       <==> (&& ChainOfTrust(kind, env, quote, cfg, now) && TcbAccepts(kind, env, quote, cfg, now)
             && (cfg.measurements.Some? ==> cfg.measurements.value(Parse(kind, quote).value)))
    ensures Verify(kind, env, quote, cfg, now) == Rejected
       <==> ChainOfTrust(kind, env, quote, cfg, now) && !TcbAccepts(kind, env, quote, cfg, now)
  {
    if Parse(kind, quote).Some? {
      hide Parse, Ends, Verify, TcbShown, AllChecks, PathTrusted, RegionTrusted, Supported, PathUsed, ShownBytes,
           DatedChain;
      VerifyIs(kind, env, quote, cfg, now);
      ChecksAreTrust(kind, env, quote, cfg, now);
      QuoteBytes(kind, quote);
    }
  }
}
