/** Certificate path construction and the cut-down path check (`verifyPCKChain` in qvl/src/verifyTdx.ts). */
module PckChain {
  import opened Bytes
  import opened Hex
  import opened Iteration
  import Crl

  datatype BasicConstraints = BasicConstraints(ca: bool, pathLength: Option<int>)

  /** Names are the strings that the code compares; times are in milliseconds. */
  datatype Cert = Cert(
    raw: seq<byte>, subject: string, issuer: string, notBefore: int, notAfter: int,
    basic: Option<BasicConstraints>, serial: seq<byte>, key: seq<byte>,
    fmspc: Option<string>, pcesvn: Option<int>)

  /** `child.verify(issuer)`: any deterministic outcome of the signature check. */
  type Verifier = (Cert, Cert) -> bool

  datatype Status = Valid | Invalid | Expired | Revoked

  datatype ChainResult = ChainResult(
    status: Status, root: Option<Cert>, chain: seq<Cert>, fmspc: Option<string>, pcesvn: Option<int>)

  // ---- path construction; certificates are told apart by their position ----

  predicate IsParentOfAny(certs: seq<Cert>, i: nat)
    requires i < |certs|
  {
    exists j :: 0 <= j < |certs| && certs[j].issuer == certs[i].subject
  }

  predicate IsLeaf(certs: seq<Cert>, i: nat)
    requires i < |certs|
  {
    || (!IsParentOfAny(certs, i) && forall j :: 0 <= j < i ==> IsParentOfAny(certs, j))
    || (i == 0 && forall j :: 0 <= j < |certs| ==> IsParentOfAny(certs, j))
  }

  function LeafFrom(certs: seq<Cert>, i: nat): (r: nat)
    requires i <= |certs| && certs != []
    requires forall j :: 0 <= j < i ==> IsParentOfAny(certs, j)
    ensures r < |certs| && IsLeaf(certs, r)
    decreases |certs| - i
  {
    if i == |certs| then 0
    else if !IsParentOfAny(certs, i) then i
    else LeafFrom(certs, i + 1)
  }

  function Leaf(certs: seq<Cert>): (r: nat)
    requires certs != []
    ensures r < |certs| && IsLeaf(certs, r)
  {
    LeafFrom(certs, 0)
  }

  /** The first certificate from `i` on with the given subject. */
  function FindSubject(certs: seq<Cert>, name: string, i: nat): (r: Option<nat>)
    requires i <= |certs|
    ensures r.None? ==> forall j :: i <= j < |certs| ==> certs[j].subject != name
    ensures r.Some? ==> i <= r.value < |certs| && certs[r.value].subject == name
    ensures r.Some? ==> forall j :: i <= j < r.value ==> certs[j].subject != name
    decreases |certs| - i
  {
    if i == |certs| then None
    else if certs[i].subject == name then Some(i)
    else FindSubject(certs, name, i + 1)
  }

  /** The walk goes to the first match for the issuer, and stops at a certificate that matches itself first. */
  function ParentRule(certs: seq<Cert>): Rule {
    i => if 0 <= i < |certs| && FindSubject(certs, certs[i].issuer, 0).Some?
            && FindSubject(certs, certs[i].issuer, 0).value != i
         then Some(FindSubject(certs, certs[i].issuer, 0).value) else None
  }

  /** The walk up from the leaf comes to an end; nothing in the code makes it end. */
  predicate WalkStops(certs: seq<Cert>) {
    certs != [] ==> StopsWithin(ParentRule(certs), Leaf(certs), |certs|)
  }

  lemma {:induction false} RuleConfined(certs: seq<Cert>)
    ensures Confined(ParentRule(certs), |certs|)
  {
  }

  function Positions(certs: seq<Cert>): seq<int>
    requires certs != [] && WalkStops(certs)
  {
    Trail(ParentRule(certs), Leaf(certs), |certs|)
  }

  /** Every position of a trail that starts inside is inside. */
  lemma {:induction false} TrailInside(certs: seq<Cert>, i: int, n: nat)
    requires 0 <= i < |certs| && StopsWithin(ParentRule(certs), i, n)
    ensures forall k :: 0 <= k < |Trail(ParentRule(certs), i, n)| ==> 0 <= Trail(ParentRule(certs), i, n)[k] < |certs|
    decreases n
  {
    var next := ParentRule(certs)(i);
    if next.Some? {
      TrailInside(certs, next.value, n - 1);
    }
  }

  function CertsAt(certs: seq<Cert>, p: seq<int>): (r: seq<Cert>)
    requires forall k :: 0 <= k < |p| ==> 0 <= p[k] < |certs|
    ensures |r| == |p| && forall k :: 0 <= k < |p| ==> r[k] == certs[p[k]]
  {
    seq(|p|, k requires 0 <= k < |p| => certs[p[k]])
  }

  /** The certificates on the path, leaf first. */
  function Path(certs: seq<Cert>): (p: seq<Cert>)
    requires certs != [] && WalkStops(certs)
    ensures |p| == |Positions(certs)| > 0
  {
    TrailInside(certs, Leaf(certs), |certs|);
    CertsAt(certs, Positions(certs))
  }

  // ---- path acceptance ----

  predicate InWindow(c: Cert, time: Option<int>) {
    time.None? || c.notBefore <= time.value <= c.notAfter
  }

  predicate AllInWindow(p: seq<Cert>, time: Option<int>) {
    forall i :: 0 <= i < |p| ==> InWindow(p[i], time)
  }

  predicate SelfIssued(c: Cert) {
    c.subject == c.issuer
  }

  predicate Signed(p: seq<Cert>, verify: Verifier)
    requires p != []
  {
    && (SelfIssued(p[|p| - 1]) ==> verify(p[|p| - 1], p[|p| - 1]))
    && forall i :: 0 <= i < |p| - 1 ==> verify(p[i], p[i + 1])
  }

  predicate IsCA(c: Cert) {
    c.basic.Some? && c.basic.value.ca
  }

  /** An end-entity leaf below certificate authorities. */
  predicate RolesOk(p: seq<Cert>)
    requires p != []
  {
    !IsCA(p[0]) && forall i :: 1 <= i < |p| ==> IsCA(p[i])
  }

  /** The intermediate certificates below `p[i]` that are not self-issued: the leaf is not one of them. */
  function NonSelfIssuedBelow(p: seq<Cert>, i: nat): nat
    requires i <= |p|
  {
    if i <= 1 then 0
    else NonSelfIssuedBelow(p, i - 1) + (if SelfIssued(p[i - 1]) then 0 else 1)
  }

  /** The path length constraint of section 4.2.1.9 of RFC 5280, at every issuer. */
  predicate PathLengthsOk(p: seq<Cert>) {
    forall i :: 1 <= i < |p| ==> PathLengthOk(p, i)
  }

  predicate PathLengthOk(p: seq<Cert>, i: nat)
    requires i < |p|
  {
    p[i].basic.Some? && p[i].basic.value.pathLength.Some?
    ==> NonSelfIssuedBelow(p, i) <= p[i].basic.value.pathLength.value
  }

  /** Some certificate on the path has a serial in normal form among the given ones. */
  predicate AnyListed(p: seq<Cert>, revoked: set<string>) {
    exists i :: 0 <= i < |p| && NormalizeSerialHex(HexUpper(p[i].serial)) in revoked
  }

  predicate CrlsStop(crls: seq<seq<byte>>) {
    forall i :: 0 <= i < |crls| ==> Crl.WalkStops(crls[i])
  }

  function RevokedSet(crls: seq<seq<byte>>): set<string>
    requires CrlsStop(crls)
  {
    if crls == [] then {}
    else RevokedSet(crls[..|crls| - 1]) + Elements(Crl.RevokedSerials(crls[|crls| - 1]))
  }

  function Elements(s: seq<string>): set<string> {
    set x | x in s
  }

  /** The verdict on a path, with the order in which the checks decide. */
  function Verdict(p: seq<Cert>, verify: Verifier, time: Option<int>, revoked: set<string>): Status
    requires p != []
  {
    if !AllInWindow(p, time) then Expired
    else if !(Signed(p, verify) && RolesOk(p) && PathLengthsOk(p)) then Invalid
    else if AnyListed(p, revoked) then Revoked
    else Valid
  }

  /** What is returned with a verdict: an invalid or revoked path gives no root and no chain. */
  function Report(p: seq<Cert>, status: Status): ChainResult
    requires p != []
  {
    match status
    case Invalid => NoChain(Invalid)
    case Revoked => ChainResult(Revoked, None, [], p[0].fmspc, p[0].pcesvn)
    case _ => ChainResult(status, Some(p[|p| - 1]), p, p[0].fmspc, p[0].pcesvn)
  }

  function NoChain(status: Status): ChainResult {
    ChainResult(status, None, [], None, None)
  }

  function ChainVerdict(certs: seq<Cert>, verify: Verifier, time: Option<int>, crls: seq<seq<byte>>): ChainResult
    requires WalkStops(certs) && CrlsStop(crls)
  {
    if certs == [] then NoChain(Invalid)
    else Report(Path(certs), Verdict(Path(certs), verify, time, RevokedSet(crls)))
  }

  // ---- what the verdicts mean ----

  /** Every certificate is inside its window at the given time. */
  ghost predicate Timely(p: seq<Cert>, time: int) {
    forall i :: 0 <= i < |p| ==> p[i].notBefore <= time && time <= p[i].notAfter
  }

  /**
   Each certificate is signed by the next one, and a self-issued last one by itself; an end-entity leaf is
   below certificate authorities; a path length at position `i` is at least `i - 1`.
   */
  ghost predicate Sound(p: seq<Cert>, verify: Verifier)
    requires p != []
  {
    && (forall i :: 0 <= i < |p| - 1 ==> verify(p[i], p[i + 1]))
    && (p[|p| - 1].subject == p[|p| - 1].issuer ==> verify(p[|p| - 1], p[|p| - 1]))
    && (p[0].basic.Some? ==> !p[0].basic.value.ca)
    && IssuersSound(p)
  }

  ghost predicate IssuersSound(p: seq<Cert>) {
    forall i :: 1 <= i < |p| ==>
      && p[i].basic.Some? && p[i].basic.value.ca
      && (p[i].basic.value.pathLength.Some? ==> i - 1 <= p[i].basic.value.pathLength.value)
  }

  /** Some list has the serial of some certificate, in normal form. */
  ghost predicate Listed(p: seq<Cert>, crls: seq<seq<byte>>)
    requires CrlsStop(crls)
  {
    exists i, k :: 0 <= i < |p| && 0 <= k < |crls|
                && StripZeros(HexUpper(p[i].serial)) in Crl.RevokedSerials(crls[k])
  }

  /** The verdicts in plain terms: one of four, and what comes with it. */
  ghost predicate Judged(p: seq<Cert>, verify: Verifier, time: Option<int>, crls: seq<seq<byte>>, r: ChainResult)
    requires p != [] && CrlsStop(crls)
  {
    var timely := time.Some? ==> Timely(p, time.value);
    && (r.status == Expired <==> !timely)
    && (r.status == Invalid <==> timely && !Sound(p, verify))
    && (r.status == Revoked <==> timely && Sound(p, verify) && Listed(p, crls))
    && (r.status == Valid <==> timely && Sound(p, verify) && !Listed(p, crls))
    && (r.status == Valid || r.status == Expired ==> r.chain == p && r.root == Some(p[|p| - 1]))
    && (r.status == Invalid || r.status == Revoked ==> r.chain == [] && r.root == None)
    && (r.status != Invalid ==> r.fmspc == p[0].fmspc && r.pcesvn == p[0].pcesvn)
    && (r.status == Invalid ==> r.fmspc == None && r.pcesvn == None)
  }

  lemma {:induction false} RevokedSetMember(crls: seq<seq<byte>>, x: string)
    requires CrlsStop(crls)
    ensures x in RevokedSet(crls) <==> exists k :: 0 <= k < |crls| && x in Crl.RevokedSerials(crls[k])
  {
    hide Crl.WalkStops, Crl.RevokedSerials;
    if crls != [] {
      var front, last := crls[..|crls| - 1], crls[|crls| - 1];
      RevokedSetMember(front, x);
      if x in RevokedSet(crls) && x !in Crl.RevokedSerials(last) {
        var k :| 0 <= k < |front| && x in Crl.RevokedSerials(front[k]);
        assert crls[k] == front[k];
      }
      if exists k :: 0 <= k < |crls| && x in Crl.RevokedSerials(crls[k]) {
        var k :| 0 <= k < |crls| && x in Crl.RevokedSerials(crls[k]);
        assert k < |front| ==> front[k] == crls[k];
      }
    }
  }

  lemma {:induction false} ListedIsAny(p: seq<Cert>, crls: seq<seq<byte>>)
    requires CrlsStop(crls)
    ensures AnyListed(p, RevokedSet(crls)) <==> Listed(p, crls)
  {
    hide Crl.WalkStops, Crl.RevokedSerials, RevokedSet, NormalizeSerialHex, StripZeros, HexUpper;
    forall i | 0 <= i < |p|
      ensures NormalizeSerialHex(HexUpper(p[i].serial)) == StripZeros(HexUpper(p[i].serial))
      ensures StripZeros(HexUpper(p[i].serial)) in RevokedSet(crls)
         <==> exists k :: 0 <= k < |crls| && StripZeros(HexUpper(p[i].serial)) in Crl.RevokedSerials(crls[k])
    {
      SerialsAgreeIff(p[i].serial, p[i].serial);
      RevokedSetMember(crls, StripZeros(HexUpper(p[i].serial)));
    }
  }

  /** With no self-issued certificate below the last one, `i - 1` intermediates lie below position `i`. */
  lemma {:induction false} AllBelowCount(p: seq<Cert>, i: nat)
    requires 1 <= i < |p| && forall j :: 0 <= j < |p| - 1 ==> !SelfIssued(p[j])
    ensures NonSelfIssuedBelow(p, i) == i - 1
  {
    if i > 1 {
      AllBelowCount(p, i - 1);
    }
  }

  lemma {:induction false} IssuersIff(p: seq<Cert>)
    requires p != [] && !IsCA(p[0]) && forall j :: 0 <= j < |p| - 1 ==> !SelfIssued(p[j])
    ensures RolesOk(p) && PathLengthsOk(p) <==> IssuersSound(p)
  {
    hide NonSelfIssuedBelow, SelfIssued;
    forall i | 1 <= i < |p|
      ensures PathLengthOk(p, i) <==>
        (p[i].basic.Some? && p[i].basic.value.pathLength.Some? ==> i - 1 <= p[i].basic.value.pathLength.value)
    {
      AllBelowCount(p, i);
    }
    if RolesOk(p) && PathLengthsOk(p) {
      forall i | 1 <= i < |p|
        ensures p[i].basic.Some? && p[i].basic.value.ca
        ensures p[i].basic.value.pathLength.Some? ==> i - 1 <= p[i].basic.value.pathLength.value
      {
        assert PathLengthOk(p, i);
      }
    }
  }

  lemma {:induction false} SoundIff(p: seq<Cert>, verify: Verifier)
    requires p != [] && forall j :: 0 <= j < |p| - 1 ==> !SelfIssued(p[j])
    ensures Signed(p, verify) && RolesOk(p) && PathLengthsOk(p) <==> Sound(p, verify)
  {
    if !IsCA(p[0]) {
      IssuersIff(p);
    }
    hide PathLengthsOk, IssuersSound;
  }

  lemma {:induction false} ReportMeans(p: seq<Cert>, verify: Verifier, time: Option<int>, crls: seq<seq<byte>>)
    requires p != [] && CrlsStop(crls) && forall j :: 0 <= j < |p| - 1 ==> !SelfIssued(p[j])
    ensures Judged(p, verify, time, crls, Report(p, Verdict(p, verify, time, RevokedSet(crls))))
  {
    hide AllInWindow, Timely, Signed, RolesOk, PathLengthsOk, AnyListed, Sound, Listed, RevokedSet, CrlsStop;
    TimelyIff(p, time);
    SoundIff(p, verify);
    ListedIsAny(p, crls);
  }

  lemma {:induction false} TimelyIff(p: seq<Cert>, time: Option<int>)
    ensures AllInWindow(p, time) <==> (time.Some? ==> Timely(p, time.value))
  {
  }

  lemma {:induction false} VerdictMeans(certs: seq<Cert>, verify: Verifier, time: Option<int>, crls: seq<seq<byte>>)
    requires certs != [] && WalkStops(certs) && CrlsStop(crls)
    ensures Judged(Path(certs), verify, time, crls, ChainVerdict(certs, verify, time, crls))
  {
    PathFacts(certs);
    hide Path, Positions, Judged, Report, Verdict, RevokedSet, WalkStops, CrlsStop, SelfIssued;
    ReportMeans(Path(certs), verify, time, crls);
  }

  // ---- the loops ----

  /** The names of all issuers. */
  ghost function Issuers(certs: seq<Cert>): set<string> {
    set j | 0 <= j < |certs| :: certs[j].issuer
  }

  lemma {:induction false} IssuerNames(certs: seq<Cert>)
    ensures forall i {:trigger certs[i]} :: 0 <= i < |certs| ==>
      (IsParentOfAny(certs, i) <==> certs[i].subject in Issuers(certs))
  {
  }

  method FindLeaf(certs: seq<Cert>) returns (leaf: nat)
    requires certs != []
    ensures leaf == Leaf(certs)
    ensures leaf < |certs| && forall i :: 0 <= i < leaf ==> certs[i].subject in Issuers(certs)
    ensures || certs[leaf].subject !in Issuers(certs)
            || (leaf == 0 && forall i :: 0 <= i < |certs| ==> certs[i].subject in Issuers(certs))
  {
    IssuerNames(certs);
    var i := 0;
    while i < |certs|
      invariant 0 <= i <= |certs|
      invariant forall j :: 0 <= j < i ==> IsParentOfAny(certs, j)
      invariant Leaf(certs) == LeafFrom(certs, i)
    {
      var isParentOfAny := exists j :: 0 <= j < |certs| && certs[j].issuer == certs[i].subject;
      if !isParentOfAny {
        return i;
      }
      i := i + 1;
    }
    leaf := 0;
  }

  method FindParent(certs: seq<Cert>, name: string) returns (parent: Option<nat>)
    ensures parent == FindSubject(certs, name, 0)
    ensures parent.None? ==> forall j :: 0 <= j < |certs| ==> certs[j].subject != name
    ensures parent.Some? ==> parent.value < |certs| && certs[parent.value].subject == name
    ensures parent.Some? ==> forall j :: 0 <= j < parent.value ==> certs[j].subject != name
  {
    var i := 0;
    while i < |certs|
      invariant 0 <= i <= |certs|
      invariant FindSubject(certs, name, 0) == FindSubject(certs, name, i)
    {
      if certs[i].subject == name {
        return Some(i);
      }
      i := i + 1;
    }
    parent := None;
  }

  /** The `while (true)` walk that pushes parents. */
  method BuildChain(certs: seq<Cert>, leaf: nat) returns (chain: seq<int>)
    requires leaf < |certs| && StopsWithin(ParentRule(certs), leaf, |certs|)
    ensures chain == Trail(ParentRule(certs), leaf, |certs|)
    ensures forall k :: 0 <= k < |chain| ==> 0 <= chain[k] < |certs|
  {
    hide StopsWithin, Trail, FindSubject;
    var rule := ParentRule(certs);
    chain := [leaf];
    ghost var left := |certs|;
    while true
      invariant left >= 0 && chain != []
      invariant forall k :: 0 <= k < |chain| ==> 0 <= chain[k] < |certs|
      invariant StopsWithin(rule, chain[|chain| - 1], left)
      invariant Trail(rule, leaf, |certs|) == chain[..|chain| - 1] + Trail(rule, chain[|chain| - 1], left)
      decreases left
    {
      var current := chain[|chain| - 1];
      var parent := FindParent(certs, certs[current].issuer);
      assert rule(current) == if parent == Some(current) then None else parent;
      TrailStep(rule, current, left);
      if parent.None? || parent.value == current {
        break;
      }
      assert chain == chain[..|chain| - 1] + [current];
      chain := chain + [parent.value];
      left := left - 1;
    }
    assert chain[..|chain| - 1] + [chain[|chain| - 1]] == chain;
  }

  method AddAll(revoked: set<string>, serials: seq<string>) returns (r: set<string>)
    ensures r == revoked + Elements(serials)
  {
    r := revoked;
    for k := 0 to |serials|
      invariant r == revoked + Elements(serials[..k])
    {
      assert serials[..k + 1] == serials[..k] + [serials[k]];
      r := r + {serials[k]};
    }
    assert serials[..|serials|] == serials;
  }

  /** Collecting the serials of all lists into one set. */
  method CollectRevoked(crls: seq<seq<byte>>) returns (revoked: set<string>)
    requires CrlsStop(crls)
    ensures revoked == RevokedSet(crls)
  {
    revoked := {};
    for i := 0 to |crls|
      invariant revoked == RevokedSet(crls[..i])
    {
      var serials := Crl.ParseCrlRevokedSerials(crls[i]);
      assert crls[..i + 1][..i] == crls[..i];
      revoked := AddAll(revoked, serials);
    }
    assert crls[..|crls|] == crls;
  }

  /** The counting loop: certificate authorities among the first `i` of the path. */
  method CountSubsequentCAs(isCAInChain: seq<bool>, i: nat) returns (subsequentCAs: nat)
    requires i <= |isCAInChain|
    ensures subsequentCAs == CountTrue(isCAInChain, i)
  {
    subsequentCAs := 0;
    for j := 0 to i
      invariant subsequentCAs == CountTrue(isCAInChain, j)
    {
      if isCAInChain[j] {
        subsequentCAs := subsequentCAs + 1;
      }
    }
  }

  function CountTrue(s: seq<bool>, i: nat): nat
    requires i <= |s|
  {
    if i == 0 then 0 else CountTrue(s, i - 1) + (if s[i - 1] then 1 else 0)
  }

  /** Below an issuer whose path is in order so far, the loop counts what RFC 5280 counts. */
  lemma {:induction false} CountAgrees(p: seq<Cert>, isCA: seq<bool>, i: nat)
    requires 1 <= i < |p| == |isCA| && forall j :: 0 <= j < |p| ==> isCA[j] == IsCA(p[j])
    requires !IsCA(p[0]) && forall j :: 1 <= j < i ==> IsCA(p[j])
    requires forall j :: 0 <= j < |p| - 1 ==> !SelfIssued(p[j])
    ensures CountTrue(isCA, i) == NonSelfIssuedBelow(p, i)
  {
    if i > 1 {
      CountAgrees(p, isCA, i - 1);
    } else {
      assert CountTrue(isCA, 0) == 0;
    }
  }

  /** The basic-constraints loop over the issuers. */
  method CheckIssuers(p: seq<Cert>) returns (ok: bool)
    requires p != [] && !IsCA(p[0])
    requires forall j :: 0 <= j < |p| - 1 ==> !SelfIssued(p[j])
    ensures ok <==> RolesOk(p) && PathLengthsOk(p)
    ensures ok <==> IssuersSound(p)
  {
    IssuersIff(p);
    hide IssuersSound;
    var isCAInChain := seq(|p|, k requires 0 <= k < |p| => IsCA(p[k]));
    for i := 1 to |p|
      invariant forall j :: 1 <= j < i ==> IsCA(p[j])
      invariant forall j :: 1 <= j < i ==> PathLengthOk(p, j)
    {
      var basic := p[i].basic;
      if basic.None? || !basic.value.ca {
        return false;
      }
      if basic.value.pathLength.Some? {
        var subsequentCAs := CountSubsequentCAs(isCAInChain, i);
        CountAgrees(p, isCAInChain, i);
        if subsequentCAs > basic.value.pathLength.value {
          assert !PathLengthOk(p, i);
          return false;
        }
      }
    }
    ok := true;
  }

  method CheckWindows(p: seq<Cert>, time: Option<int>) returns (ok: bool)
    ensures ok == AllInWindow(p, time)
    ensures ok <==> (time.Some? ==> Timely(p, time.value))
  {
    for i := 0 to |p|
      invariant forall j :: 0 <= j < i ==> InWindow(p[j], time)
    {
      if time.Some? && !(p[i].notBefore <= time.value <= p[i].notAfter) {
        return false;
      }
    }
    ok := true;
  }

  method CheckSignatures(p: seq<Cert>, verify: Verifier) returns (ok: bool)
    requires p != []
    ensures ok == Signed(p, verify)
    ensures ok <==>
      && (forall i :: 0 <= i < |p| - 1 ==> verify(p[i], p[i + 1]))
      && (p[|p| - 1].subject == p[|p| - 1].issuer ==> verify(p[|p| - 1], p[|p| - 1]))
  {
    var terminal := p[|p| - 1];
    if terminal.subject == terminal.issuer && !verify(terminal, terminal) {
      return false;
    }
    for i := 0 to |p| - 1
      invariant forall j :: 0 <= j < i ==> verify(p[j], p[j + 1])
    {
      if !verify(p[i], p[i + 1]) {
        return false;
      }
    }
    ok := true;
  }

  method CheckRevocation(p: seq<Cert>, revoked: set<string>) returns (found: bool)
    ensures found == AnyListed(p, revoked)
  {
    hide NormalizeSerialHex, HexUpper;
    if revoked == {} {
      return false;
    }
    for i := 0 to |p|
      invariant forall j :: 0 <= j < i ==> NormalizeSerialHex(HexUpper(p[j].serial)) !in revoked
    {
      var serial := NormalizeSerialHex(HexUpper(p[i].serial));
      if serial in revoked {
        return true;
      }
    }
    found := false;
  }

  /**
   `verifyPCKChain` on parsed certificates: `expired`, `invalid`, `revoked` or `valid` in terms of the dates,
   signatures, roles, path lengths and serials on the path, and what is returned with each.
   */
  method VerifyPckChain(certs: seq<Cert>, verify: Verifier, time: Option<int>, crls: seq<seq<byte>>)
    returns (r: ChainResult)
    requires WalkStops(certs) && CrlsStop(crls)
    ensures r == ChainVerdict(certs, verify, time, crls)
    ensures certs == [] ==> r == ChainResult(Invalid, None, [], None, None)
    ensures certs != [] ==> Judged(Path(certs), verify, time, crls, r)
  {
    if certs == [] {
      return NoChain(Invalid);
    }
    VerdictMeans(certs, verify, time, crls);
    PathFacts(certs);
    hide Judged, Report, Verdict;
    var leaf := FindLeaf(certs);
    var positions := BuildChain(certs, leaf);
    var chain := seq(|positions|, k requires 0 <= k < |positions| => certs[positions[k]]);
    assert chain == Path(certs);
    hide Path, Positions, WalkStops, CrlsStop, SelfIssued;
    r := CheckPath(chain, verify, time, crls);
  }

  /** The checks on the path that was built, in their order. */
  method CheckPath(chain: seq<Cert>, verify: Verifier, time: Option<int>, crls: seq<seq<byte>>)
    returns (r: ChainResult)
    requires chain != [] && CrlsStop(crls) && forall i :: 0 <= i < |chain| - 1 ==> !SelfIssued(chain[i])
    requires forall i :: 0 <= i < |chain| - 1 ==> chain[i].issuer == chain[i + 1].subject
    ensures r == Report(chain, Verdict(chain, verify, time, RevokedSet(crls)))
  {
    hide Timely, IssuersSound, Signed, RolesOk, PathLengthsOk, AnyListed, AllInWindow, RevokedSet, CrlsStop, SelfIssued;
    for i := 0 to |chain| - 1
    {
      if chain[i].issuer != chain[i + 1].subject {
        assert false;
      }
    }
    var inWindow := CheckWindows(chain, time);
    if !inWindow {
      return ChainResult(Expired, Some(chain[|chain| - 1]), chain, chain[0].fmspc, chain[0].pcesvn);
    }
    var signed := CheckSignatures(chain, verify);
    if !signed {
      return NoChain(Invalid);
    }
    if IsCA(chain[0]) {
      CaLeafIsNoRole(chain);
      return NoChain(Invalid);
    }
    var issuersOk := CheckIssuers(chain);
    if !issuersOk {
      return NoChain(Invalid);
    }
    var revoked := CollectRevoked(crls);
    var found := CheckRevocation(chain, revoked);
    if found {
      return ChainResult(Revoked, None, [], chain[0].fmspc, chain[0].pcesvn);
    }
    return ChainResult(Valid, Some(chain[|chain| - 1]), chain, chain[0].fmspc, chain[0].pcesvn);
  }

  lemma {:induction false} CaLeafIsNoRole(p: seq<Cert>)
    requires p != [] && IsCA(p[0])
    ensures !RolesOk(p)
  {
  }

  /**
   The shape of every path that is built: it starts at the leaf, each certificate's issuer is the next
   one's subject, no certificate is used twice, it is no longer than the input, and only its last
   certificate can be self-issued.
   */
  lemma {:induction false} PathFacts(certs: seq<Cert>)
    requires certs != [] && WalkStops(certs)
    ensures Path(certs)[0] == certs[Leaf(certs)]
    ensures forall i :: 0 <= i < |Path(certs)| - 1 ==> Path(certs)[i].issuer == Path(certs)[i + 1].subject
    ensures forall i, j :: 0 <= i < j < |Positions(certs)| ==> Positions(certs)[i] != Positions(certs)[j]
    ensures |Path(certs)| <= |certs|
    ensures forall i :: 0 <= i < |Path(certs)| - 1 ==> !SelfIssued(Path(certs)[i])
  {
    var rule, leaf, n := ParentRule(certs), Leaf(certs), |certs|;
    var t := Positions(certs);
    TrailInside(certs, leaf, n);
    forall i, j | 0 <= i < j < |t|
      ensures t[i] != t[j]
    {
      TrailDistinct(rule, leaf, n, i, j);
    }
    Pigeonhole(t, n);
    var k := InOfWithin(rule, leaf, n);
    forall i | 0 <= i < |t| - 1
      ensures certs[t[i]].issuer == certs[t[i + 1]].subject && !SelfIssued(certs[t[i]])
    {
      TrailLength(rule, leaf, n, k);
      TrailAt(rule, leaf, n, k, i);
      NotSelfIssued(certs, i);
    }
  }

  /** Position `x` holds the first certificate with the given subject. */
  predicate FirstWith(certs: seq<Cert>, x: int, name: string) {
    0 <= x < |certs| && certs[x].subject == name && forall j :: 0 <= j < x ==> certs[j].subject != name
  }

  /**
   Each step of a path goes to the first certificate with the issuer's name, and the path ends where there
   is none, or where that is the certificate itself.
   */
  lemma {:induction false} PathGoesOn(certs: seq<Cert>)
    requires certs != [] && WalkStops(certs)
    ensures var p, t := Path(certs), Positions(certs);
            && |t| == |p| && (forall i :: 0 <= i < |p| - 1 ==> FirstWith(certs, t[i + 1], p[i].issuer))
            && ((forall j :: 0 <= j < |certs| ==> certs[j].subject != p[|p| - 1].issuer)
                || FirstWith(certs, t[|p| - 1], p[|p| - 1].issuer))
  {
    var rule, leaf, n := ParentRule(certs), Leaf(certs), |certs|;
    var t := Positions(certs);
    TrailInside(certs, leaf, n);
    var k := InOfWithin(rule, leaf, n);
    TrailLength(rule, leaf, n, k);
    forall i | 0 <= i < |t| - 1
      ensures FirstWith(certs, t[i + 1], certs[t[i]].issuer)
    {
      TrailAt(rule, leaf, n, k, i);
    }
    TrailAt(rule, leaf, n, k, k);
  }

  /** A position reached by a step is the first with its subject; so is a self-issued leaf, which is `certs[0]`. */
  lemma {:induction false} NotSelfIssued(certs: seq<Cert>, i: nat)
    requires certs != [] && WalkStops(certs) && i < |Positions(certs)| - 1
    ensures 0 <= Positions(certs)[i] < |certs| && !SelfIssued(certs[Positions(certs)[i]])
  {
    var rule, leaf, n := ParentRule(certs), Leaf(certs), |certs|;
    var t := Positions(certs);
    TrailInside(certs, leaf, n);
    var k := InOfWithin(rule, leaf, n);
    TrailLength(rule, leaf, n, k);
    TrailAt(rule, leaf, n, k, i);
    if i > 0 {
      TrailAt(rule, leaf, n, k, i - 1);
    } else if SelfIssued(certs[leaf]) {
      SelfIssuedLeafStays(certs);
    }
  }

  lemma {:induction false} SelfIssuedLeafStays(certs: seq<Cert>)
    requires certs != [] && SelfIssued(certs[Leaf(certs)])
    ensures ParentRule(certs)(Leaf(certs)) == None
  {
    assert IsParentOfAny(certs, Leaf(certs));
  }
}
