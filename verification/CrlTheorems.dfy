/** What the revocation-list walk computes, and when it ends. */
module CrlTheorems {
  import opened Bytes
  import opened Iteration
  import opened Crl
  import opened Hex

  // ---- arbitrary bytes ----

  /** The octets of the length field of the element at `offset`. */
  function LengthOctets(buf: seq<byte>, offset: nat): seq<byte>
    requires TlvAt(buf, offset).Some?
  {
    var lenByte := buf[offset + 1];
    if lenByte < 128 then [lenByte] else buf[offset + 2..offset + 2 + (lenByte - 128)]
  }

  /** The 32-bit shifts compute the length that was written exactly when it is below 2^31. */
  lemma {:induction false} LengthExactIff(octets: seq<byte>)
    ensures Int32(NatBE(octets)) == NatBE(octets) <==> NatBE(octets) < 0x8000_0000
    ensures |octets| <= 3 ==> NatBE(octets) < 0x8000_0000
  {
    if |octets| <= 3 {
      NatBEBound(octets);
    }
  }

  /**
   A read never goes past the end. It advances by the length that was written when that is below
   2^31, in particular for at most three octets, and it does not go back exactly when the low
   32 bits of the length are below 2^31.
   */
  lemma {:induction false} TlvBounds(buf: seq<byte>, offset: nat)
    requires TlvAt(buf, offset).Some?
    ensures var t := TlvAt(buf, offset).value; var n := NatBE(LengthOctets(buf, offset));
            && offset + 2 <= t.value <= |buf| && t.next <= |buf|
            && (t.value <= t.next <==> n % 0x1_0000_0000 < 0x8000_0000)
            && (n < 0x8000_0000 ==> t.next == t.value + n)
            && (|LengthOctets(buf, offset)| <= 3 ==> t.next == t.value + n)
  {
    var octets := LengthOctets(buf, offset);
    LengthExactIff(octets);
    if buf[offset + 1] < 128 {
      assert octets[..0] == [] && NatBE(octets) == octets[0];
    } else {
      Int32Sign(NatBE(octets));
    }
  }

  lemma {:induction false} Int32Sign(n: nat)
    ensures Int32(n) >= 0 <==> n % 0x1_0000_0000 < 0x8000_0000
  {
    var k, r := n / 0x1_0000_0000, n % 0x1_0000_0000;
    assert n + 0x8000_0000 == r + 0x8000_0000 + k * 0x1_0000_0000;
    ModShift(r + 0x8000_0000, k);
  }

  /** Only positions inside the list make the loop go on. */
  lemma {:induction false} EntryConfined(der: seq<byte>, end: int)
    ensures Confined(EntryRule(der, end), |der|)
  {
  }

  /** The low 32 bits of the length of every entry that the loop reads are below 2^31; so they are for three octets. */
  ghost predicate ForwardEntries(der: seq<byte>, end: int, q: int) {
    forall k: nat :: Position(der, end, q, k).Some? && TlvAt(der, Position(der, end, q, k).value).Some?
      ==> Position(der, end, q, k).value >= 0
          && NatBE(LengthOctets(der, Position(der, end, q, k).value)) % 0x1_0000_0000 < 0x8000_0000
  }

  function Position(der: seq<byte>, end: int, q: int, k: nat): Option<int> {
    At(EntryRule(der, end), q, k)
  }

  lemma {:induction false} ForwardEntriesStop(der: seq<byte>, end: int, q: int, n: nat)
    requires 0 <= q && |der| - q <= n && ForwardEntries(der, end, q)
    ensures StopsWithin(EntryRule(der, end), q, n)
    decreases n
  {
    var rule := EntryRule(der, end);
    if rule(q).Some? {
      assert Position(der, end, q, 0) == Some(q);
      TlvBounds(der, q);
      var q' := rule(q).value;
      forall k: nat
        ensures Position(der, end, q', k) == Position(der, end, q, k + 1)
      {
      }
      ForwardEntriesStop(der, end, q', n - 1);
    }
  }

  /**
   The entry loop has no bound of its own. It ends exactly when `WalkStops` finds it ended after
   as many rounds as there are bytes, and exactly when it never reads the same entry twice;
   it is enough that no length goes back, that is, that its low 32 bits are below 2^31.
   */
  lemma {:induction false} WalkStopsIff(der: seq<byte>, list: Tlv)
    requires RevokedList(der) == Some(list)
    ensures WalkStops(der) <==> Stops(EntryRule(der, list.next), list.value)
    ensures WalkStops(der) <==> !Revisits(EntryRule(der, list.next), list.value)
    ensures list.value >= 0 && ForwardEntries(der, list.next, list.value) ==> WalkStops(der)
  {
    EntryConfined(der, list.next);
    StopsIff(EntryRule(der, list.next), list.value, |der|);
    if list.value >= 0 && ForwardEntries(der, list.next, list.value) {
      ForwardEntriesStop(der, list.next, list.value, |der|);
    }
  }

  /** A list of one entry whose length field reads as -6: the loop comes back to that entry. */
  const LOOPING: seq<byte> := [0x30, 0x12, 0x30, 0x10, 0x30, 0, 0x30, 0, 0x17, 0, 0x30, 8,
                               0x30, 0x84, 0xFF, 0xFF, 0xFF, 0xFA, 0x02, 0]

  lemma {:induction false} LoopingLength()
    ensures TlvAt(LOOPING, 12) == Some(Tlv(SEQUENCE, 18, 12))
  {
    var s := LOOPING[14..18];
    NatBEFour(s);
  }

  lemma {:induction false} NatBEFour(s: seq<byte>)
    requires |s| == 4
    ensures NatBE(s) == 0x100_0000 * s[0] as int + 0x1_0000 * s[1] as int + 0x100 * s[2] as int + s[3]
  {
    var t, u, v := s[..3], s[..2], s[..1];
    assert t[..2] == u && u[..1] == v && v[..0] == [];
    assert NatBE(v) == s[0];
    assert NatBE(u) == 256 * NatBE(v) + s[1];
    assert NatBE(t) == 256 * NatBE(u) + s[2];
  }

  /** An element with a length of one octet. */
  lemma {:induction false} ShortElement(buf: seq<byte>, p: nat)
    requires p + 1 < |buf| && buf[p + 1] < 128 && p + 2 + buf[p + 1] as int <= |buf|
    ensures TlvAt(buf, p) == Some(Tlv(buf[p], p + 2, p + 2 + buf[p + 1] as int))
  {
    hide NatBE;
  }

  lemma {:induction false} LoopingReads()
    ensures RevokedList(LOOPING) == Some(Tlv(SEQUENCE, 12, 20))
  {
    hide TlvAt;
    ShortElement(LOOPING, 0);
    ShortElement(LOOPING, 2);
    ShortElement(LOOPING, 4);
    ShortElement(LOOPING, 6);
    ShortElement(LOOPING, 8);
    ShortElement(LOOPING, 10);
    assert AfterThisUpdate(LOOPING, 4) == Some(10);
  }

  /** So three octets cannot be relaxed to four: here the loop never ends. */
  lemma {:induction false} LoopingNeverStops()
    ensures !WalkStops(LOOPING)
  {
    LoopingLength();
    LoopingReads();
    assert TlvAt(LOOPING, 18) == Some(Tlv(INTEGER, 20, 20));
    Spins(EntryRule(LOOPING, 20), 12, |LOOPING|);
  }

  lemma {:induction false} Spins(next: Rule, x: int, n: nat)
    requires next(x) == Some(x)
    ensures !StopsWithin(next, x, n)
    decreases n
  {
    if n > 0 {
      Spins(next, x, n - 1);
    }
  }

  /** The serial of the entry at `q`: the content of its first element, if that is an INTEGER. */
  function SerialsAt(der: seq<byte>, q: int): seq<string> {
    var entry := TlvAt(der, q);
    if entry.None? then []
    else
      var first := TlvAt(der, entry.value.value);
      if first.None? || first.value.tag != 0x02 then []
      else [StripZeros(HexUpper(Subarray(der, first.value.value, first.value.next)))]
  }

  function SerialsOn(der: seq<byte>, trail: seq<int>): seq<string> {
    if trail == [] then [] else SerialsAt(der, trail[0]) + SerialsOn(der, trail[1..])
  }

  /** A read throws at `q`: of the element there, or of the first element in a SEQUENCE there. */
  predicate Throws(der: seq<byte>, q: int) {
    TlvAt(der, q).None? || (TlvAt(der, q).value.tag == 0x30 && TlvAt(der, TlvAt(der, q).value.value).None?)
  }

  lemma {:induction false} SerialsOfTrail(der: seq<byte>, end: int, q: int, n: nat)
    requires StopsWithin(EntryRule(der, end), q, n)
    ensures var t := Trail(EntryRule(der, end), q, n);
            var last := t[|t| - 1];
            && (forall i :: 0 <= i < |t| - 1 ==>
                  && t[i] < end && !Throws(der, t[i]) && TlvAt(der, t[i]).value.tag == 0x30
                  && TlvAt(der, t[i]).value.next == t[i + 1])
            && (last >= end || Throws(der, last) || TlvAt(der, last).value.tag != 0x30)
            && Serials(der, end, q, n)
               == if last < end && Throws(der, last) then None else Some(SerialsOn(der, t[..|t| - 1]))
    decreases n
  {
    hide TlvAt, SerialText;
    var rule := EntryRule(der, end);
    var t := Trail(rule, q, n);
    if rule(q).Some? {
      var rest := Trail(rule, rule(q).value, n - 1);
      SerialsOfTrail(der, end, rule(q).value, n - 1);
      SerialsHere(der, q);
      assert t == [q] + rest;
      assert t[..|t| - 1] == [q] + rest[..|rest| - 1];
      assert ([q] + rest[..|rest| - 1])[1..] == rest[..|rest| - 1];
    }
  }

  lemma {:induction false} SerialsHere(der: seq<byte>, q: int)
    requires Entry(der, q).Moved?
    ensures SerialsAt(der, q)
         == if Entry(der, q).serial.Some? then [SerialText(Entry(der, q).serial.value)] else []
  {
    hide TlvAt;
  }

  /**
   On arbitrary bytes: what is returned are the serials of the entries that the loop visits, each an INTEGER
   at the head of a SEQUENCE, and nothing at all if a read throws where the loop stops.
   */
  lemma {:induction false} SerialsOfWalk(der: seq<byte>, list: Tlv)
    requires RevokedList(der) == Some(list) && WalkStops(der)
    ensures var t := Trail(EntryRule(der, list.next), list.value, |der|);
            var last := t[|t| - 1];
            && (forall i :: 0 <= i < |t| - 1 ==>
                  && t[i] < list.next && !Throws(der, t[i]) && TlvAt(der, t[i]).value.tag == 0x30
                  && TlvAt(der, t[i]).value.next == t[i + 1])
            && (last >= list.next || Throws(der, last) || TlvAt(der, last).value.tag != 0x30)
            && RevokedSerials(der)
               == if last < list.next && Throws(der, last) then [] else SerialsOn(der, t[..|t| - 1])
  {
    SerialsOfTrail(der, list.next, list.value, |der|);
  }

  /** From `start` on: an INTEGER or nothing, two SEQUENCEs, and a time. */
  ghost predicate FieldsTagged(der: seq<byte>, start: int) {
    exists p: int, sigAlg, issuer, thisUpdate ::
      && TlvAt(der, p) == Some(sigAlg) && TlvAt(der, sigAlg.next) == Some(issuer)
      && TlvAt(der, issuer.next) == Some(thisUpdate)
      && sigAlg.tag == 0x30 && issuer.tag == 0x30 && (thisUpdate.tag == 0x17 || thisUpdate.tag == 0x18)
      && (p == start || (HasTag(TlvAt(der, start), 0x02) && p == TlvAt(der, start).value.next))
  }

  lemma {:induction false} FieldsNeedTags(der: seq<byte>, start: int)
    requires AfterThisUpdate(der, start).Some?
    ensures FieldsTagged(der, start)
  {
    hide TlvAt;
    var version := TlvAt(der, start).value;
    var p := if version.tag == INTEGER then version.next else start;
    var sigAlg := TlvAt(der, p).value;
    var issuer := TlvAt(der, sigAlg.next).value;
    var thisUpdate := TlvAt(der, issuer.next).value;
    assert TlvAt(der, p) == Some(sigAlg) && TlvAt(der, sigAlg.next) == Some(issuer);
    assert TlvAt(der, issuer.next) == Some(thisUpdate);
  }

  lemma {:induction false} TailNeedsTag(der: seq<byte>, p: int, end: int)
    requires RevokedListFrom(der, p, end).Some?
    ensures RevokedListFrom(der, p, end).value.tag == 0x30
  {
    hide TlvAt;
  }

  /** Serials are only returned from behind a SEQUENCE in a SEQUENCE, two SEQUENCEs and a time, in a SEQUENCE. */
  lemma {:induction false} ListNeedsTags(der: seq<byte>)
    ensures RevokedList(der).None? && WalkStops(der) ==> RevokedSerials(der) == []
    ensures RevokedList(der).Some? ==>
      && RevokedList(der).value.tag == 0x30
      && HasTag(TlvAt(der, 0), 0x30) && HasTag(TlvAt(der, TlvAt(der, 0).value.value), 0x30)
      && FieldsTagged(der, TlvAt(der, TlvAt(der, 0).value.value).value.value)
  {
    hide TlvAt, StopsWithin, AfterThisUpdate, RevokedListFrom, FieldsTagged;
    if RevokedList(der).Some? {
      var tbs := TlvAt(der, TlvAt(der, 0).value.value).value;
      FieldsNeedTags(der, tbs.value);
      TailNeedsTag(der, AfterThisUpdate(der, tbs.value).value, tbs.next);
    }
  }

  // ---- well-formed lists (section 5.1 of RFC 5280) ----

  /** An element with the length octets it was written with; they need not be the shortest. */
  datatype Der = Der(tag: byte, len: seq<byte>, body: seq<byte>)

  /** The length octets stand for `n`, and the 32-bit arithmetic can represent it. */
  predicate LengthOf(len: seq<byte>, n: nat) {
    || (len == [n] && n < 128)
    || (|len| >= 2 && len[0] == 127 + |len| && NatBE(len[1..]) == n < 0x8000_0000)
  }

  predicate Good(d: Der) {
    LengthOf(d.len, |d.body|)
  }

  function Raw(d: Der): (s: seq<byte>)
    ensures |s| == 1 + |d.len| + |d.body|
  {
    [d.tag] + (d.len + d.body)
  }

  function RawOption(d: Option<Der>): seq<byte> {
    if d.None? then [] else Raw(d.value)
  }

  /** `der` carries `x` at offset `p`. */
  predicate Holds(der: seq<byte>, p: nat, x: seq<byte>) {
    p + |x| <= |der| && der[p..p + |x|] == x
  }

  lemma {:induction false} HoldsParts(der: seq<byte>, p: nat, x: seq<byte>, y: seq<byte>)
    requires Holds(der, p, x + y)
    ensures Holds(der, p, x) && Holds(der, p + |x|, y)
  {
    var w := der[p..p + |x + y|];
    assert w[..|x|] == x && w[|x|..] == y;
    assert der[p..p + |x|] == w[..|x|];
    assert der[p + |x|..p + |x| + |y|] == w[|x|..];
  }

  /** An element is read back wherever it stands. */
  lemma {:induction false} TlvRead(der: seq<byte>, p: nat, d: Der)
    requires Good(d) && Holds(der, p, Raw(d))
    ensures TlvAt(der, p) == Some(Tlv(d.tag, p + 1 + |d.len|, p + |Raw(d)|))
    ensures Holds(der, p + 1 + |d.len|, d.body)
  {
    HoldsParts(der, p, [d.tag], d.len + d.body);
    HoldsParts(der, p + 1, d.len, d.body);
    LenRead(der, p, d);
  }

  lemma {:induction false} LenRead(der: seq<byte>, p: nat, d: Der)
    requires Good(d) && Holds(der, p, [d.tag]) && Holds(der, p + 1, d.len) && p + |Raw(d)| <= |der|
    ensures TlvAt(der, p) == Some(Tlv(d.tag, p + 1 + |d.len|, p + |Raw(d)|))
  {
    var len := d.len;
    assert der[p..p + 1][0] == d.tag;
    assert der[p + 1..p + 1 + |len|][0] == len[0];
    if len[0] >= 128 {
      assert der[p + 1..p + 1 + |len|][1..] == len[1..];
      assert der[p + 2..p + 2 + (len[0] - 128)] == len[1..];
      LengthExactIff(len[1..]);
    }
  }

  lemma {:induction false} SkipElement(der: seq<byte>, p: nat, d: Der, rest: seq<byte>)
    requires Good(d) && Holds(der, p, Raw(d) + rest)
    ensures TlvAt(der, p) == Some(Tlv(d.tag, p + 1 + |d.len|, p + |Raw(d)|))
    ensures Holds(der, p + 1 + |d.len|, d.body)
    ensures Holds(der, p + |Raw(d)|, rest)
  {
    HoldsParts(der, p, Raw(d), rest);
    TlvRead(der, p, d);
  }

  /** An entry is a SEQUENCE of the serial and of what the walk skips (date, extensions). */
  datatype RevokedEntry = RevokedEntry(len: seq<byte>, serial: Der, rest: seq<byte>)

  function EntryDer(e: RevokedEntry): Der {
    Der(0x30, e.len, Raw(e.serial) + e.rest)
  }

  predicate GoodEntry(e: RevokedEntry) {
    Good(EntryDer(e)) && Good(e.serial) && e.serial.tag == 0x02
  }

  predicate GoodEntries(es: seq<RevokedEntry>) {
    forall i :: 0 <= i < |es| ==> GoodEntry(es[i])
  }

  function RawEntries(es: seq<RevokedEntry>): seq<byte> {
    if es == [] then [] else Raw(EntryDer(es[0])) + RawEntries(es[1..])
  }

  function ListedSerials(es: seq<RevokedEntry>): seq<string> {
    if es == [] then [] else [StripZeros(HexUpper(es[0].serial.body))] + ListedSerials(es[1..])
  }

  lemma {:induction false} EntryRead(der: seq<byte>, q: nat, e: RevokedEntry, rest: seq<byte>)
    requires GoodEntry(e) && Holds(der, q, Raw(EntryDer(e)) + rest)
    ensures Entry(der, q) == Moved(Some(e.serial.body), q + |Raw(EntryDer(e))|)
    ensures Holds(der, q + |Raw(EntryDer(e))|, rest)
  {
    hide TlvAt, Holds, Raw;
    SkipElement(der, q, EntryDer(e), rest);
    SkipElement(der, q + 1 + |e.len|, e.serial, e.rest);
  }

  lemma {:induction false} EntriesRead(der: seq<byte>, q: nat, es: seq<RevokedEntry>, end: nat, n: nat)
    requires GoodEntries(es) && |es| <= n && end == q + |RawEntries(es)|
    requires Holds(der, q, RawEntries(es))
    ensures StopsWithin(EntryRule(der, end), q, n)
    ensures Serials(der, end, q, n) == Some(ListedSerials(es))
    decreases es
  {
    hide Entry, Holds, Raw, GoodEntry, Serials, StopsWithin, EntryRule, StripZeros, HexUpper;
    if es == [] {
      NoMoreEntries(der, q, n);
    } else {
      var e, rest := es[0], es[1..];
      var q' := q + |Raw(EntryDer(e))|;
      RawNonempty(EntryDer(e));
      EntryRead(der, q, e, RawEntries(rest));
      EntriesRead(der, q', rest, end, n - 1);
      OneMoreEntry(der, q, q', e.serial.body, end, n - 1);
    }
  }

  lemma {:induction false} RawNonempty(d: Der)
    ensures |Raw(d)| > 0
  {
  }

  lemma {:induction false} NoMoreEntries(der: seq<byte>, end: int, n: nat)
    ensures StopsWithin(EntryRule(der, end), end, n) && Serials(der, end, end, n) == Some([])
  {
    hide Entry;
  }

  lemma {:induction false} OneMoreEntry(der: seq<byte>, q: int, q': int, body: seq<byte>, end: int, n: nat)
    requires q < end && Entry(der, q) == Moved(Some(body), q') && StopsWithin(EntryRule(der, end), q', n)
    ensures StopsWithin(EntryRule(der, end), q, n + 1)
    ensures Serials(der, end, q, n + 1) == Prefixed([SerialText(body)], Serials(der, end, q', n))
  {
    hide Entry, SerialText;
  }

  lemma {:induction false} EntriesFit(es: seq<RevokedEntry>)
    ensures |es| <= |RawEntries(es)|
  {
    if es != [] {
      EntriesFit(es[1..]);
    }
  }

  datatype Revoked = Revoked(len: seq<byte>, entries: seq<RevokedEntry>)

  function RevokedDer(r: Revoked): Der {
    Der(0x30, r.len, RawEntries(r.entries))
  }

  /** The to-be-signed fields; what is optional there is optional here. */
  datatype TbsCertList = TbsCertList(
    version: Option<Der>, sigAlg: Der, issuer: Der, thisUpdate: Der, nextUpdate: Option<Der>,
    revoked: Option<Revoked>, extensions: Option<Der>)

  const EXTENSIONS := 0xA0

  predicate GoodTbs(t: TbsCertList) {
    && (t.version.Some? ==> Good(t.version.value) && t.version.value.tag == 0x02)
    && Good(t.sigAlg) && t.sigAlg.tag == 0x30
    && Good(t.issuer) && t.issuer.tag == 0x30
    && Good(t.thisUpdate) && (t.thisUpdate.tag == 0x17 || t.thisUpdate.tag == 0x18)
    && (t.nextUpdate.Some? ==>
          Good(t.nextUpdate.value) && (t.nextUpdate.value.tag == 0x17 || t.nextUpdate.value.tag == 0x18))
    && (t.revoked.Some? ==> Good(RevokedDer(t.revoked.value)) && GoodEntries(t.revoked.value.entries))
    && (t.extensions.Some? ==> Good(t.extensions.value) && t.extensions.value.tag == EXTENSIONS)
  }

  function RevokedOption(t: TbsCertList): Option<Der> {
    if t.revoked.None? then None else Some(RevokedDer(t.revoked.value))
  }

  function RawFields(t: TbsCertList): seq<byte> {
    RawOption(t.version) + (Raw(t.sigAlg) + (Raw(t.issuer) + (Raw(t.thisUpdate) + RawTail(t))))
  }

  function RawTail(t: TbsCertList): seq<byte> {
    RawOption(t.nextUpdate) + (RawOption(RevokedOption(t)) + RawOption(t.extensions))
  }

  /** The whole list: `after` is the signature algorithm and value, `trailing` what may follow. */
  datatype CertificateList = CertificateList(
    outerLen: seq<byte>, tbsLen: seq<byte>, tbs: TbsCertList, after: seq<byte>, trailing: seq<byte>)

  function TbsDer(c: CertificateList): Der {
    Der(0x30, c.tbsLen, RawFields(c.tbs))
  }

  function OuterDer(c: CertificateList): Der {
    Der(0x30, c.outerLen, Raw(TbsDer(c)) + c.after)
  }

  predicate GoodList(c: CertificateList) {
    GoodTbs(c.tbs) && Good(TbsDer(c)) && Good(OuterDer(c))
  }

  function RawCrl(c: CertificateList): seq<byte> {
    Raw(OuterDer(c)) + c.trailing
  }

  function EntriesOf(c: CertificateList): seq<RevokedEntry> {
    if c.tbs.revoked.None? then [] else c.tbs.revoked.value.entries
  }

  lemma {:induction false} FieldsRead(der: seq<byte>, p: nat, t: TbsCertList) returns (p': nat)
    requires GoodTbs(t) && Holds(der, p, RawFields(t))
    ensures AfterThisUpdate(der, p) == Some(p')
    ensures p' + |RawTail(t)| == p + |RawFields(t)| && Holds(der, p', RawTail(t))
  {
    hide TlvAt, Holds, Raw;
    var afterSig := Raw(t.issuer) + (Raw(t.thisUpdate) + RawTail(t));
    var p1 := p + |RawOption(t.version)|;
    if t.version.Some? {
      SkipElement(der, p, t.version.value, Raw(t.sigAlg) + afterSig);
    } else {
      assert RawFields(t) == Raw(t.sigAlg) + afterSig;
    }
    SkipElement(der, p1, t.sigAlg, afterSig);
    var p2 := p1 + |Raw(t.sigAlg)|;
    p' := ThisUpdateRead(der, p2, t);
  }

  lemma {:induction false} ThisUpdateRead(der: seq<byte>, p: nat, t: TbsCertList) returns (p': nat)
    requires GoodTbs(t) && Holds(der, p, Raw(t.issuer) + (Raw(t.thisUpdate) + RawTail(t)))
    ensures HasTag(TlvAt(der, p), SEQUENCE)
    ensures var u := TlvAt(der, TlvAt(der, p).value.next); u.Some? && IsTime(u.value.tag) && u.value.next == p'
    ensures p' == p + |Raw(t.issuer)| + |Raw(t.thisUpdate)| && Holds(der, p', RawTail(t))
  {
    hide TlvAt, Holds, Raw;
    SkipElement(der, p, t.issuer, Raw(t.thisUpdate) + RawTail(t));
    SkipElement(der, p + |Raw(t.issuer)|, t.thisUpdate, RawTail(t));
    p' := p + |Raw(t.issuer)| + |Raw(t.thisUpdate)|;
  }

  lemma {:induction false} TailRead(der: seq<byte>, p: nat, t: TbsCertList)
    requires GoodTbs(t) && Holds(der, p, RawTail(t))
    ensures RevokedListFrom(der, p, p + |RawTail(t)|).None? <==> t.revoked.None?
    ensures t.revoked.Some? ==> EntriesAt(der, RevokedListFrom(der, p, p + |RawTail(t)|).value, t.revoked.value.entries)
  {
    hide TlvAt, Holds, Raw;
    var n := RawOption(t.nextUpdate);
    var rest := RawOption(RevokedOption(t)) + RawOption(t.extensions);
    var end := p + |RawTail(t)|;
    HoldsParts(der, p, n, rest);
    ListRead(der, p + |n|, t);
    if t.nextUpdate.Some? {
      TlvRead(der, p, t.nextUpdate.value);
    }
  }

  predicate EntriesAt(der: seq<byte>, list: Tlv, es: seq<RevokedEntry>) {
    && list.value >= 0
    && list.next == list.value + |RawEntries(es)|
    && Holds(der, list.value, RawEntries(es))
  }

  /** The list itself, or what stands in its place. */
  lemma {:induction false} ListRead(der: seq<byte>, p: nat, t: TbsCertList)
    requires GoodTbs(t) && Holds(der, p, RawOption(RevokedOption(t)) + RawOption(t.extensions))
    ensures t.revoked.Some? ==>
      HasTag(TlvAt(der, p), SEQUENCE) && EntriesAt(der, TlvAt(der, p).value, t.revoked.value.entries)
    ensures t.revoked.None? && t.extensions.Some? ==> HasTag(TlvAt(der, p), EXTENSIONS)
  {
    HoldsParts(der, p, RawOption(RevokedOption(t)), RawOption(t.extensions));
    if t.revoked.Some? {
      TlvRead(der, p, RevokedDer(t.revoked.value));
    } else if t.extensions.Some? {
      TlvRead(der, p, t.extensions.value);
    }
  }

  lemma {:induction false} ListFound(c: CertificateList)
    requires GoodList(c)
    ensures RevokedList(RawCrl(c)).None? <==> c.tbs.revoked.None?
    ensures c.tbs.revoked.Some? ==> EntriesAt(RawCrl(c), RevokedList(RawCrl(c)).value, EntriesOf(c))
  {
    hide TlvAt, Holds, RevokedListFrom, AfterThisUpdate, Raw, Good, GoodTbs, EntriesAt;
    var der := RawCrl(c);
    StartsWithAll(der);
    SkipElement(der, 0, OuterDer(c), c.trailing);
    SkipElement(der, 1 + |c.outerLen|, TbsDer(c), c.after);
    var p := FieldsRead(der, 2 + |c.outerLen| + |c.tbsLen|, c.tbs);
    TailRead(der, p, c.tbs);
  }

  lemma {:induction false} StartsWithAll(der: seq<byte>)
    ensures Holds(der, 0, der)
  {
  }

  /**
   For every well-formed list, with or without the optional fields and with any decodable
   length octets, the walk ends and returns exactly the listed serials in order.
   */
  lemma {:induction false} CrlRoundTrip(c: CertificateList)
    requires GoodList(c)
    ensures WalkStops(RawCrl(c))
    ensures RevokedSerials(RawCrl(c)) == ListedSerials(EntriesOf(c))
  {
    var der := RawCrl(c);
    ListFound(c);
    hide RawCrl, RevokedList, Holds;
    if c.tbs.revoked.Some? {
      var list := RevokedList(der).value;
      EntriesFit(EntriesOf(c));
      EntriesInside(der, list, EntriesOf(c));
      EntriesRead(der, list.value, EntriesOf(c), list.next, |der|);
    }
  }

  lemma {:induction false} EntriesInside(der: seq<byte>, list: Tlv, es: seq<RevokedEntry>)
    requires EntriesAt(der, list, es)
    ensures |RawEntries(es)| <= |der|
  {
  }
}
