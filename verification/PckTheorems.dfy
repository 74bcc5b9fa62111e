/** When the certificate walk ends, what it finds, and what its verdicts mean. */
module PckTheorems {
  import opened Bytes
  import opened Hex
  import opened Iteration
  import opened PckChain
  import CrlTheorems

  // ---- termination ----

  /**
   The walk has no bound of its own. It ends exactly when counting to the number of certificates
   finds it ended, exactly when it never reaches a certificate twice, and always when the
   first-match issuer relation has no cycle (a certificate that is its own first match ends the
   walk, so cycles have length two or more).
   */
  lemma {:induction false} WalkStopsIff(certs: seq<Cert>)
    requires certs != []
    ensures WalkStops(certs) <==> Stops(ParentRule(certs), Leaf(certs))
    ensures WalkStops(certs) <==> !Revisits(ParentRule(certs), Leaf(certs))
    ensures Acyclic(ParentRule(certs)) ==> WalkStops(certs)
  {
    RuleConfined(certs);
    StopsIff(ParentRule(certs), Leaf(certs), |certs|);
    if Acyclic(ParentRule(certs)) {
      AcyclicStops(ParentRule(certs), Leaf(certs), |certs|);
    }
  }

  /** Two certificates that name each other as issuer: the walk goes back and forth for ever. */
  lemma {:induction false} CrossIssuedNeverStops(a: Cert, b: Cert)
    requires a.subject == b.issuer && b.subject == a.issuer && a.subject != b.subject
    ensures !WalkStops([a, b])
  {
    var certs := [a, b];
    assert IsParentOfAny(certs, 0) by { assert certs[1].issuer == certs[0].subject; }
    assert IsParentOfAny(certs, 1) by { assert certs[0].issuer == certs[1].subject; }
    assert Leaf(certs) == 0;
    var rule := ParentRule(certs);
    assert rule(0) == Some(1) && rule(1) == Some(0);
    assert At(rule, 0, 2) == At(rule, 1, 1) == At(rule, 0, 0);
    WalkStopsIff(certs);
  }

  // ---- order independence ----

  predicate DistinctSubjects(p: seq<Cert>) {
    forall i, j :: 0 <= i < j < |p| ==> p[i].subject != p[j].subject
  }

  /** A path from a leaf up to a certificate that is self-issued or whose issuer is not on the path. */
  predicate WellFormedPath(p: seq<Cert>) {
    && p != [] && DistinctSubjects(p)
    && (forall i :: 0 <= i < |p| - 1 ==> p[i].issuer == p[i + 1].subject)
    && (SelfIssued(p[|p| - 1]) || forall i :: 0 <= i < |p| ==> p[i].subject != p[|p| - 1].issuer)
  }

  lemma {:induction false} TwiceCounts(s: seq<Cert>, a: nat, b: nat)
    requires a < b < |s| && s[a] == s[b]
    ensures multiset(s)[s[a]] >= 2
  {
    assert s == s[..b] + s[b..];
    assert s[..b][a] == s[a] && s[b..][0] == s[a];
    assert s[a] in s[..b] && s[a] in s[b..];
  }

  lemma {:induction false} DistinctCounts(p: seq<Cert>, c: Cert)
    requires DistinctSubjects(p)
    ensures multiset(p)[c] <= 1
  {
    if p != [] {
      DistinctCounts(p[1..], c);
      assert p == [p[0]] + p[1..];
      assert forall i :: 0 <= i < |p[1..]| ==> p[1..][i] == p[i + 1];
    }
  }

  /** A rearrangement has the same certificates, and still no two with one subject. */
  lemma {:induction false} Rearranged(certs: seq<Cert>, p: seq<Cert>)
    requires multiset(certs) == multiset(p) && DistinctSubjects(p)
    ensures |certs| == |p| && DistinctSubjects(certs)
    ensures forall i :: 0 <= i < |p| ==> p[i] in certs
    ensures forall j :: 0 <= j < |certs| ==> certs[j] in p
  {
    assert |certs| == |multiset(certs)| && |p| == |multiset(p)|;
    forall i | 0 <= i < |p|
      ensures p[i] in certs
    {
      assert p[i] in multiset(p);
    }
    forall j | 0 <= j < |certs|
      ensures certs[j] in p
    {
      assert certs[j] in multiset(certs);
    }
    forall a, b | 0 <= a < b < |certs|
      ensures certs[a].subject != certs[b].subject
    {
      if certs[a].subject == certs[b].subject {
        assert certs[a] == certs[b];
        TwiceCounts(certs, a, b);
        DistinctCounts(p, certs[a]);
      }
    }
  }

  predicate SameCerts(certs: seq<Cert>, p: seq<Cert>) {
    && |certs| == |p| && DistinctSubjects(certs)
    && (forall i :: 0 <= i < |p| ==> p[i] in certs)
    && (forall j :: 0 <= j < |certs| ==> certs[j] in p)
  }

  /** The leaf that is chosen is the first certificate of the path. */
  lemma {:induction false} LeafIsFirst(certs: seq<Cert>, p: seq<Cert>)
    requires WellFormedPath(p) && SameCerts(certs, p)
    ensures certs[Leaf(certs)] == p[0]
  {
    forall j | 0 <= j < |certs| && certs[j] != p[0]
      ensures IsParentOfAny(certs, j)
    {
      var i :| 0 <= i < |p| && p[i] == certs[j];
      var k :| 0 <= k < |certs| && certs[k] == p[i - 1];
      assert certs[k].issuer == certs[j].subject;
    }
    var z :| 0 <= z < |certs| && certs[z] == p[0];
    if |p| > 1 {
      forall j | 0 <= j < |certs|
        ensures certs[j].issuer != p[0].subject
      {
        var i :| 0 <= i < |p| && p[i] == certs[j];
        assert i < |p| - 1 ==> p[i].issuer == p[i + 1].subject;
      }
      assert !IsParentOfAny(certs, z);
    }
  }

  /** A subject is found at the one certificate that has it. */
  lemma {:induction false} FoundAt(certs: seq<Cert>, j: nat)
    requires DistinctSubjects(certs) && j < |certs|
    ensures FindSubject(certs, certs[j].subject, 0) == Some(j)
  {
  }

  /** From the place of `p[i]` the walk goes through `p[i..]`. */
  lemma {:induction false} WalkFollows(certs: seq<Cert>, p: seq<Cert>, i: nat, x: int, n: nat)
    requires WellFormedPath(p) && SameCerts(certs, p)
    requires i < |p| && 0 <= x < |certs| && certs[x] == p[i] && |p| - 1 - i <= n
    ensures StopsWithin(ParentRule(certs), x, n)
    ensures forall k :: 0 <= k < |Trail(ParentRule(certs), x, n)| ==> 0 <= Trail(ParentRule(certs), x, n)[k] < |certs|
    ensures CertsAt(certs, Trail(ParentRule(certs), x, n)) == p[i..]
    decreases |p| - i
  {
    hide FindSubject, StopsWithin, Trail, WellFormedPath;
    var rule := ParentRule(certs);
    if i < |p| - 1 {
      var y := StepUp(certs, p, i, x);
      WalkFollows(certs, p, i + 1, y, n - 1);
      StepIn(rule, x, y, n);
      assert p[i..] == [p[i]] + p[i + 1..];
    } else {
      LastStays(certs, p, x);
      StopIn(rule, x, n);
      assert p[i..] == [p[i]];
    }
  }

  lemma {:induction false} StepUp(certs: seq<Cert>, p: seq<Cert>, i: nat, x: int) returns (y: int)
    requires WellFormedPath(p) && SameCerts(certs, p)
    requires i < |p| - 1 && 0 <= x < |certs| && certs[x] == p[i]
    ensures 0 <= y < |certs| && certs[y] == p[i + 1] && ParentRule(certs)(x) == Some(y)
  {
    y :| 0 <= y < |certs| && certs[y] == p[i + 1];
    FoundAt(certs, y);
    assert certs[x].subject != certs[y].subject;
  }

  lemma {:induction false} StepIn(next: Rule, x: int, y: int, n: nat)
    requires next(x) == Some(y) && n > 0 && StopsWithin(next, y, n - 1)
    ensures StopsWithin(next, x, n) && Trail(next, x, n) == [x] + Trail(next, y, n - 1)
  {
  }

  lemma {:induction false} StopIn(next: Rule, x: int, n: nat)
    requires next(x) == None
    ensures StopsWithin(next, x, n) && Trail(next, x, n) == [x]
  {
  }

  lemma {:induction false} LastStays(certs: seq<Cert>, p: seq<Cert>, x: int)
    requires WellFormedPath(p) && SameCerts(certs, p) && 0 <= x < |certs| && certs[x] == p[|p| - 1]
    ensures ParentRule(certs)(x) == None
  {
    FoundAt(certs, x);
    if !SelfIssued(certs[x]) {
      forall j | 0 <= j < |certs|
        ensures certs[j].subject != certs[x].issuer
      {
        var i :| 0 <= i < |p| && p[i] == certs[j];
      }
    }
  }

  /**
   In whatever order a well-formed path is handed over, the same leaf is picked, exactly that path
   is rebuilt, and the result is the same.
   */
  lemma {:induction false} OrderIndependence(certs: seq<Cert>, p: seq<Cert>, verify: Verifier,
                                             time: Option<int>, crls: seq<seq<byte>>)
    requires WellFormedPath(p) && multiset(certs) == multiset(p) && CrlsStop(crls)
    ensures certs != [] && WalkStops(certs) && WalkStops(p)
    ensures certs[Leaf(certs)] == p[0] && Path(certs) == p
    ensures ChainVerdict(certs, verify, time, crls) == ChainVerdict(p, verify, time, crls)
  {
    Rebuilt(certs, p);
    Rebuilt(p, p);
  }

  lemma {:induction false} Rebuilt(certs: seq<Cert>, p: seq<Cert>)
    requires WellFormedPath(p) && multiset(certs) == multiset(p)
    ensures certs != [] && WalkStops(certs)
    ensures certs[Leaf(certs)] == p[0] && Path(certs) == p
  {
    Rearranged(certs, p);
    LeafIsFirst(certs, p);
    WalkFollows(certs, p, 0, Leaf(certs), |certs|);
    assert p[0..] == p;
  }

  // ---- acceptance ----

  /** On a built path every intermediate counts: the constraint at position `i` bounds `i - 1`. */
  lemma {:induction false} PathLengthBoundsPosition(certs: seq<Cert>, i: nat)
    requires certs != [] && WalkStops(certs) && 1 <= i < |Path(certs)|
    ensures NonSelfIssuedBelow(Path(certs), i) == i - 1
  {
    PathFacts(certs);
    AllBelowCount(Path(certs), i);
  }

  /** A path that is valid at some time and against some lists is valid, and the same, without either. */
  lemma {:induction false} ValidWithoutDate(certs: seq<Cert>, verify: Verifier, time: Option<int>, crls: seq<seq<byte>>)
    requires WalkStops(certs) && CrlsStop(crls)
    requires ChainVerdict(certs, verify, time, crls).status == Valid
    ensures ChainVerdict(certs, verify, None, []) == ChainVerdict(certs, verify, time, crls)
    ensures ChainVerdict(certs, verify, None, []).chain == Path(certs)
  {
    assert RevokedSet([]) == {};
  }

  // ---- revocation ----

  lemma {:induction false} ListedMember(es: seq<CrlTheorems.RevokedEntry>, x: string)
    ensures x in CrlTheorems.ListedSerials(es)
       <==> exists m :: 0 <= m < |es| && x == Crl.SerialText(es[m].serial.body)
  {
    if es != [] {
      ListedMember(es[1..], x);
      if x in CrlTheorems.ListedSerials(es[1..]) {
        var m :| 0 <= m < |es[1..]| && x == Crl.SerialText(es[1..][m].serial.body);
        assert es[m + 1] == es[1..][m];
      }
      if exists m :: 0 <= m < |es| && x == Crl.SerialText(es[m].serial.body) {
        var m :| 0 <= m < |es| && x == Crl.SerialText(es[m].serial.body);
        assert m > 0 ==> es[1..][m - 1] == es[m];
      }
    }
  }

  predicate GoodLists(lists: seq<CrlTheorems.CertificateList>) {
    forall k :: 0 <= k < |lists| ==> CrlTheorems.GoodList(lists[k])
  }

  function RawLists(lists: seq<CrlTheorems.CertificateList>): (r: seq<seq<byte>>)
    requires GoodLists(lists)
    ensures |r| == |lists| && forall k :: 0 <= k < |r| ==> r[k] == CrlTheorems.RawCrl(lists[k])
  {
    seq(|lists|, k requires 0 <= k < |lists| => CrlTheorems.RawCrl(lists[k]))
  }

  /** Some list has an entry with the serial of `c` as an unsigned integer. */
  ghost predicate SerialListed(c: Cert, lists: seq<CrlTheorems.CertificateList>) {
    exists k, m :: 0 <= k < |lists| && 0 <= m < |CrlTheorems.EntriesOf(lists[k])|
                && NatBE(CrlTheorems.EntriesOf(lists[k])[m].serial.body) == NatBE(c.serial)
  }

  /** DER integers have at least one octet. */
  ghost predicate ProperSerials(p: seq<Cert>, lists: seq<CrlTheorems.CertificateList>) {
    && (forall i :: 0 <= i < |p| ==> p[i].serial != [])
    && (forall k, m :: 0 <= k < |lists| && 0 <= m < |CrlTheorems.EntriesOf(lists[k])|
          ==> CrlTheorems.EntriesOf(lists[k])[m].serial.body != [])
  }

  lemma {:induction false} SerialInSet(c: Cert, lists: seq<CrlTheorems.CertificateList>)
    requires GoodLists(lists) && ProperSerials([c], lists)
    ensures CrlsStop(RawLists(lists))
    ensures NormalizeSerialHex(HexUpper(c.serial)) in RevokedSet(RawLists(lists)) <==> SerialListed(c, lists)
  {
    hide Crl.WalkStops, Crl.RevokedSerials, CrlTheorems.GoodList, CrlTheorems.RawCrl, NormalizeSerialHex, RevokedSet,
         CrlTheorems.EntriesOf;
    var crls, x := RawLists(lists), NormalizeSerialHex(HexUpper(c.serial));
    assert [c][0] == c;
    forall k | 0 <= k < |lists|
      ensures Crl.WalkStops(crls[k])
      ensures x in Crl.RevokedSerials(crls[k])
         <==> exists m :: 0 <= m < |CrlTheorems.EntriesOf(lists[k])|
                       && NatBE(CrlTheorems.EntriesOf(lists[k])[m].serial.body) == NatBE(c.serial)
    {
      SerialInList(c, lists, k);
    }
    RevokedSetMember(crls, x);
  }

  lemma {:induction false} SerialInList(c: Cert, lists: seq<CrlTheorems.CertificateList>, k: nat)
    requires GoodLists(lists) && ProperSerials([c], lists) && k < |lists|
    ensures Crl.WalkStops(RawLists(lists)[k])
    ensures NormalizeSerialHex(HexUpper(c.serial)) in Crl.RevokedSerials(RawLists(lists)[k])
       <==> exists m :: 0 <= m < |CrlTheorems.EntriesOf(lists[k])|
                     && NatBE(CrlTheorems.EntriesOf(lists[k])[m].serial.body) == NatBE(c.serial)
  {
    hide Crl.WalkStops, Crl.RevokedSerials, CrlTheorems.GoodList, CrlTheorems.RawCrl, NormalizeSerialHex,
         CrlTheorems.EntriesOf, StripZeros, HexUpper;
    var es := CrlTheorems.EntriesOf(lists[k]);
    assert [c][0].serial != [];
    CrlTheorems.CrlRoundTrip(lists[k]);
    ListedMember(es, NormalizeSerialHex(HexUpper(c.serial)));
    forall m | 0 <= m < |es|
      ensures NormalizeSerialHex(HexUpper(c.serial)) == Crl.SerialText(es[m].serial.body)
         <==> NatBE(es[m].serial.body) == NatBE(c.serial)
    {
      SerialsAgreeIff(c.serial, es[m].serial.body);
    }
  }

  /**
   Against well-formed lists, a path that is otherwise valid is `revoked` exactly when the serial
   of some certificate on it equals a listed serial as an unsigned integer.
   */
  lemma {:induction false} RevokedIff(certs: seq<Cert>, verify: Verifier, time: Option<int>,
                                      lists: seq<CrlTheorems.CertificateList>)
    requires certs != [] && WalkStops(certs) && GoodLists(lists) && ProperSerials(Path(certs), lists)
    requires ChainVerdict(certs, verify, time, []).status == Valid
    ensures CrlsStop(RawLists(lists))
    ensures ChainVerdict(certs, verify, time, RawLists(lists)).status
         == if exists i :: 0 <= i < |Path(certs)| && SerialListed(Path(certs)[i], lists) then Revoked else Valid
  {
    hide Verdict, Path, RawLists, CrlsStop, GoodLists, RevokedSet, PckChain.WalkStops, AnyListed, SerialListed,
         ProperSerials;
    var p := Path(certs);
    SerialsInSet(p, lists);
    EmptyRevokedSet();
    VerdictWithout(p, verify, time, RevokedSet(RawLists(lists)));
    ListedIff(p, lists);
  }

  lemma {:induction false} EmptyRevokedSet()
    ensures CrlsStop([]) && RevokedSet([]) == {}
  {
  }

  lemma {:induction false} VerdictWithout(p: seq<Cert>, verify: Verifier, time: Option<int>, revoked: set<string>)
    requires p != [] && Verdict(p, verify, time, {}) == Valid
    ensures Verdict(p, verify, time, revoked) == if AnyListed(p, revoked) then Revoked else Valid
  {
  }

  lemma {:induction false} ListedIff(p: seq<Cert>, lists: seq<CrlTheorems.CertificateList>)
    requires p != [] && GoodLists(lists) && ProperSerials(p, lists)
    ensures CrlsStop(RawLists(lists))
    ensures AnyListed(p, RevokedSet(RawLists(lists))) <==> exists i :: 0 <= i < |p| && SerialListed(p[i], lists)
  {
    SerialsInSet(p, lists);
    hide NormalizeSerialHex, RevokedSet, SerialListed, RawLists, CrlsStop, GoodLists, ProperSerials;
  }

  lemma {:induction false} SerialsInSet(p: seq<Cert>, lists: seq<CrlTheorems.CertificateList>)
    requires p != [] && GoodLists(lists) && ProperSerials(p, lists)
    ensures CrlsStop(RawLists(lists))
    ensures forall i :: 0 <= i < |p| ==>
      (NormalizeSerialHex(HexUpper(p[i].serial)) in RevokedSet(RawLists(lists)) <==> SerialListed(p[i], lists))
  {
    hide NormalizeSerialHex, RevokedSet, SerialListed, RawLists, CrlsStop, GoodLists;
    SerialInSet(p[0], lists);
    forall i | 0 <= i < |p|
      ensures NormalizeSerialHex(HexUpper(p[i].serial)) in RevokedSet(RawLists(lists)) <==> SerialListed(p[i], lists)
    {
      SerialInSet(p[i], lists);
    }
  }
}
