/** The tunnel on top of the quote verifier: what an installed key is worth. */
module Attested {
  import opened Bytes
  import opened Messages
  import opened Quotes
  import opened QuoteFields
  import opened ClientSide
  import opened Tunnel
  import QuoteTheorems
  import Trust
  import TunnelTheorems

  /** The field `report_data`, which is field 11 of an SGX body and field 15 of a TDX body. */
  function ReportData(kind: Trust.Kind, q: Quote): seq<byte> {
    var i := if kind.Sgx? then 11 else 15;
    if i < |q.body| && q.body[i].B? then q.body[i].b else []
  }

  /** The bytes of the report data, by their offsets. */
  function ReportBytes(kind: Trust.Kind, quote: seq<byte>): seq<byte> {
    if kind.Sgx? then Slice(quote, 368, 432) else Slice(TdxBody(quote), 520, 584)
  }

  /** What the parser takes for report data are these bytes. */
  lemma {:induction false} ReportDataAt(kind: Trust.Kind, quote: seq<byte>)
    requires Trust.Parse(kind, quote).Some?
    ensures ReportData(kind, Trust.Parse(kind, quote).value) == ReportBytes(kind, quote)
  {
    hide ParseTdxQuote, ParseSgxQuote, Slice, TdxBody;
    if kind.Sgx? {
      SgxNamedFields(quote);
    } else {
      TdxNamedFields(quote);
    }
  }

  /** How quotes are verified: by `verifyTdx` or `verifySgx`, as the client is configured. */
  datatype Verifier = Verifier(kind: Trust.Kind, env: Trust.Platform, cfg: Trust.Config)

  /** The verifier accepts the quote at some time; its certificate walks end. */
  predicate Accepts(v: Verifier, quote: seq<byte>, now: int) {
    && (Trust.Parse(v.kind, quote).Some? ==> Trust.Ends(v.env, Trust.Parse(v.kind, quote).value.signature, v.cfg))
    && Trust.Verify(v.kind, v.env, quote, v.cfg, now) == Trust.Accepted
  }

  /**
   The evidence on a quote comes from the verifier and the parser, and the key binding is checked by
   the client itself.
   */
  ghost predicate Grounded(g: Setting, v: Verifier) {
    && (g.cfg.tee == if v.kind.Sgx? then SgxTee else TdxTee) && !g.cfg.customBinding
    && (forall quote :: g.judge(quote).quoteVerified ==> exists now :: Accepts(v, quote, now))
    && forall quote :: Trust.Parse(v.kind, quote).Some? ==>
         g.judge(quote).reportData == ReportData(v.kind, Trust.Parse(v.kind, quote).value)
  }

  /** At that time, one path from a pinned root vouches for the key that signed the region that is parsed. */
  ghost predicate Vouched(v: Verifier, quote: seq<byte>, now: int) {
    && Trust.Parse(v.kind, quote).Some? && Trust.Ends(v.env, Trust.Parse(v.kind, quote).value.signature, v.cfg)
    && Trust.ChainOfTrust(v.kind, v.env, quote, v.cfg, now)
  }

  /** The report data of the quote commits to the public key. */
  ghost predicate Commits(g: Setting, v: Verifier, quote: seq<byte>, publicKey: seq<byte>) {
    var data, nonce := ReportBytes(v.kind, quote), g.judge(quote).verifierData;
    match v.kind
    case Sgx => Slice(data, 0, 32) == g.d.sha256(publicKey)
    case Tdx =>
      && nonce.VerifierNonce? && nonce.val.Some? && nonce.iat.Some?
      && data == g.d.sha512(nonce.val.value + nonce.iat.value + publicKey)
  }

  lemma {:induction false} AcceptedIsVouched(v: Verifier, quote: seq<byte>, now: int)
    requires Accepts(v, quote, now)
    ensures Vouched(v, quote, now)
  {
    Trust.AcceptedIff(v.kind, v.env, quote, v.cfg, now);
    hide Trust.Verify, Trust.PathTrusted, Trust.RegionTrusted, Trust.PathUsed, Trust.Ends, Trust.Parse,
         Trust.Supported, Trust.TcbAccepts;
  }

  lemma {:induction false} PassedIsCommitted(g: Setting, v: Verifier, publicKey: seq<byte>, quote: seq<byte>)
    requires Grounded(g, v) && Passed(g, publicKey, quote)
    ensures (exists now :: Vouched(v, quote, now)) && Commits(g, v, quote, publicKey)
  {
    hide Vouched, Accepts, Trust.Parse, ReportData, ReportBytes, Slice;
    var now :| Accepts(v, quote, now);
    AcceptedIsVouched(v, quote, now);
    VouchedParses(v, quote, now);
    ReportDataAt(v.kind, quote);
  }

  lemma {:induction false} VouchedParses(v: Verifier, quote: seq<byte>, now: int)
    requires Vouched(v, quote, now)
    ensures Trust.Parse(v.kind, quote).Some?
  {
    hide Trust.ChainOfTrust, Trust.Ends, Trust.Parse;
  }

  /** Equal signed regions have equal report data, and equal bytes there. */
  lemma {:induction false} RegionFixesReportData(kind: Trust.Kind, q: seq<byte>, r: seq<byte>)
    requires Trust.Parse(kind, q).Some? && Trust.Parse(kind, r).Some?
    requires Trust.SignedRegion(kind, q).Some? && Trust.SignedRegion(kind, q) == Trust.SignedRegion(kind, r)
    ensures ReportData(kind, Trust.Parse(kind, q).value) == ReportData(kind, Trust.Parse(kind, r).value)
    ensures ReportBytes(kind, q) == ReportBytes(kind, r)
  {
    ReportDataAt(kind, q);
    ReportDataAt(kind, r);
    hide ParseTdxQuote, ParseSgxQuote, TdxSignedRegion, SgxSignedRegion, ReportBytes;
    if kind.Sgx? {
      QuoteTheorems.SgxSignedRegionDetermines(q, r);
    } else {
      QuoteTheorems.TdxSignedRegionDetermines(q, r);
    }
  }

  /**
   Over every run: if the server holds a key for the control socket, then it is the client's, and
   the quote that was announced has one certificate path from a pinned root to the key that signed
   its QE report, an attestation key that this report commits to and that signed the region, and
   report data, fixed by this region, that commits to the public key of the server.
   */
  lemma {:induction false} InstalledKeyIsAttested(g: Setting, v: Verifier, start: Sys, run: seq<Action>)
    requires LawfulEnv(g.e) && TunnelTheorems.Start(start) && TunnelTheorems.Possible(g, start, run) && Grounded(g, v)
    ensures var y := TunnelTheorems.Reached(g, start, run);
            y.sock in y.s.keys ==>
              && y.k.session == Some(y.s.keys[y.sock])
              && Sent(y) != [] && Sent(y)[0].wire.ServerKx?
              && var quote, publicKey := Sent(y)[0].wire.quote, Sent(y)[0].wire.x25519PublicKey;
                 && publicKey == g.e.suite.publicKey(y.s.privateKey)
                 && (exists now :: Vouched(v, quote, now)) && Commits(g, v, quote, publicKey)
  {
    TunnelTheorems.KeyAgreement(g, start, run);
    hide Grounded, Passed, Vouched, Commits, TunnelTheorems.Reached, TunnelTheorems.Possible;
    var y := TunnelTheorems.Reached(g, start, run);
    if y.sock in y.s.keys {
      PassedIsCommitted(g, v, Sent(y)[0].wire.x25519PublicKey, Sent(y)[0].wire.quote);
    }
  }
}
