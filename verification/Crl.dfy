/**
 The hand-written DER walk over a certificate revocation list (qvl/src/utils.ts). Offsets are
 `int`: a length is accumulated in 32-bit signed arithmetic and can come out negative.
 */
module Crl {
  import opened Bytes
  import opened Hex
  import opened Iteration

  const SEQUENCE := 0x30
  const INTEGER := 0x02
  const UTC_TIME := 0x17
  const GENERALIZED_TIME := 0x18

  /** What reading outside an array at a negative index gives. */
  const UNDEFINED := -1

  datatype Tlv = Tlv(tag: int, value: int, next: int)

  /** The value of a 32-bit signed register that was assigned `x`. */
  function Int32(x: int): int {
    (x + 0x8000_0000) % 0x1_0000_0000 - 0x8000_0000
  }

  function ByteAt(buf: seq<byte>, i: int): (b: int)
    requires i < |buf|
    ensures -1 <= b < 256
    ensures 0 <= i <==> b != UNDEFINED
  {
    if i < 0 then UNDEFINED else buf[i]
  }

  /**
   The tag, value offset and end offset of the element at `offset`; `None` is the thrown error.
   The number of length octets is `lenByte - 128`. An undefined length byte goes with an
   undefined tag, and no caller looks at the end offset then.
   */
  function TlvAt(buf: seq<byte>, offset: int): Option<Tlv> {
    if offset + 1 >= |buf| then None
    else
      var tag, lenByte, start := ByteAt(buf, offset), ByteAt(buf, offset + 1), offset + 2;
      if lenByte < 128 then Spanning(buf, tag, start, if lenByte == UNDEFINED then 0 else lenByte)
      else
        var n := lenByte - 128;
        if n == 0 || start + n > |buf| then None
        else Spanning(buf, tag, start + n, Int32(NatBE(buf[start..start + n])))
  }

  function Spanning(buf: seq<byte>, tag: int, value: int, length: int): Option<Tlv> {
    if value + length > |buf| then None else Some(Tlv(tag, value, value + length))
  }

  lemma {:induction false} Int32Step(x: int, b: byte)
    ensures Int32(Int32(x) * 256) + b == Int32(x * 256 + b)
  {
    var k := (x + 0x8000_0000) / 0x1_0000_0000;
    assert Int32(x) == x - k * 0x1_0000_0000;
    assert Int32(x) * 256 + 0x8000_0000 == x * 256 + 0x8000_0000 - 256 * k * 0x1_0000_0000;
    ModShift(x * 256 + 0x8000_0000, -256 * k);
    ModLowByte(x + 0x80_0000, b);
  }

  lemma {:induction false} ModShift(a: int, k: int)
    ensures (a + k * 0x1_0000_0000) % 0x1_0000_0000 == a % 0x1_0000_0000
  {
  }

  lemma {:induction false} ModLowByte(y: int, b: byte)
    ensures (256 * y + b) % 0x1_0000_0000 == (256 * y) % 0x1_0000_0000 + b
  {
    var q := y / 0x100_0000;
    var r := y % 0x100_0000;
    assert 256 * y == 256 * r + q * 0x1_0000_0000;
    ModShift(256 * r, q);
    ModShift(256 * r + b, q);
  }

  /** The shift-and-or loop over the length octets. */
  method ReadLength(buf: seq<byte>, start: nat, numBytes: nat) returns (length: int)
    requires start + numBytes <= |buf|
    ensures length == Int32(NatBE(buf[start..start + numBytes]))
  {
    length := 0;
    for i := 0 to numBytes
      invariant length == Int32(NatBE(buf[start..start + i]))
    {
      var cursor := start + i;
      assert buf[start..cursor + 1][..i] == buf[start..cursor];
      Int32Step(NatBE(buf[start..cursor]), buf[cursor]);
      length := Int32(length * 256) + buf[cursor];
    }
  }

  /** `readTLV`. */
  method ReadTlv(buf: seq<byte>, offset: int) returns (r: Option<Tlv>)
    ensures r == TlvAt(buf, offset)
  {
    hide NatBE, Int32;
    if offset >= |buf| {
      return None;
    }
    var tag := ByteAt(buf, offset);
    var cursor := offset + 1;
    if cursor >= |buf| {
      return None;
    }
    var lenByte := ByteAt(buf, cursor);
    cursor := cursor + 1;
    var length := 0;
    if lenByte >= 0x80 {
      var numBytes := lenByte - 0x80;
      if numBytes == 0 || cursor + numBytes > |buf| {
        return None;
      }
      length := ReadLength(buf, cursor, numBytes);
      cursor := cursor + numBytes;
    } else {
      length := if lenByte == UNDEFINED then 0 else lenByte;
    }
    if cursor + length > |buf| {
      return None;
    }
    return Some(Tlv(tag, cursor, cursor + length));
  }

  /** `der.subarray(lo, hi)`, where a negative end counts from the back. */
  function Subarray(der: seq<byte>, lo: nat, hi: int): seq<byte> {
    Slice(der, lo, if hi >= 0 then hi else if |der| + hi >= 0 then |der| + hi else 0)
  }

  /** One round of the loop over the revoked entries. */
  datatype Round = Threw | Left | Moved(serial: Option<seq<byte>>, q: int)

  function Entry(der: seq<byte>, q: int): Round {
    var entry := TlvAt(der, q);
    if entry.None? then Threw
    else if entry.value.tag != SEQUENCE then Left
    else
      var serial := TlvAt(der, entry.value.value);
      if serial.None? then Threw
      else if serial.value.tag == INTEGER then
        Moved(Some(Subarray(der, serial.value.value, serial.value.next)), entry.value.next)
      else Moved(None, entry.value.next)
  }

  function EntryRule(der: seq<byte>, end: int): Rule {
    q => if q < end && Entry(der, q).Moved? then Some(Entry(der, q).q) else None
  }

  function SerialText(s: seq<byte>): string {
    StripZeros(HexUpper(s))
  }

  /** The serials collected from `q` on, or `None` if a read throws before the loop ends. */
  function Serials(der: seq<byte>, end: int, q: int, n: nat): Option<seq<string>>
    requires StopsWithin(EntryRule(der, end), q, n)
    decreases n
  {
    if q >= end then Some([])
    else
      match Entry(der, q)
      case Threw => None
      case Left => Some([])
      case Moved(serial, q') =>
        Prefixed(if serial.Some? then [SerialText(serial.value)] else [], Serials(der, end, q', n - 1))
  }

  function Prefixed(a: seq<string>, rest: Option<seq<string>>): (r: Option<seq<string>>)
    ensures a == [] ==> r == rest
    ensures rest == Some([]) ==> r == Some(a)
  {
    assert a + [] == a && (rest.Some? ==> [] + rest.value == rest.value);
    if rest.None? then None else Some(a + rest.value)
  }

  lemma {:induction false} PrefixedTwice(a: seq<string>, b: seq<string>, rest: Option<seq<string>>)
    ensures Prefixed(a, Prefixed(b, rest)) == Prefixed(a + b, rest)
  {
    if rest.Some? {
      assert a + (b + rest.value) == a + b + rest.value;
    }
  }

  predicate IsTime(tag: int) {
    tag == UTC_TIME || tag == GENERALIZED_TIME
  }

  predicate HasTag(t: Option<Tlv>, tag: int) {
    t.Some? && t.value.tag == tag
  }

  /** The end of the fields up to thisUpdate, or `None` where the parser gives up. */
  function AfterThisUpdate(der: seq<byte>, start: int): Option<int> {
    var version := TlvAt(der, start);
    if version.None? then None
    else
      var sigAlg := TlvAt(der, if version.value.tag == INTEGER then version.value.next else start);
      if !HasTag(sigAlg, SEQUENCE) then None
      else
        var issuer := TlvAt(der, sigAlg.value.next);
        if !HasTag(issuer, SEQUENCE) then None
        else
          var thisUpdate := TlvAt(der, issuer.value.next);
          if thisUpdate.None? || !IsTime(thisUpdate.value.tag) then None else Some(thisUpdate.value.next)
  }

  /** The element that holds the revoked entries, if the parser gets to one. */
  function RevokedList(der: seq<byte>): Option<Tlv> {
    var outer := TlvAt(der, 0);
    if !HasTag(outer, SEQUENCE) then None
    else
      var tbs := TlvAt(der, outer.value.value);
      if !HasTag(tbs, SEQUENCE) then None
      else
        var p := AfterThisUpdate(der, tbs.value.value);
        if p.None? then None else RevokedListFrom(der, p.value, tbs.value.next)
  }

  function RevokedListFrom(der: seq<byte>, p: int, end: int): Option<Tlv> {
    if p >= end then None
    else
      var maybeNext := TlvAt(der, p);
      if maybeNext.None? then None
      else
        var p' := if IsTime(maybeNext.value.tag) then maybeNext.value.next else p;
        if p' >= end then None
        else
          var list := TlvAt(der, p');
          if HasTag(list, SEQUENCE) then list else None
  }

  /** The entry loop ends; nothing in the code makes it end. */
  predicate WalkStops(der: seq<byte>) {
    var list := RevokedList(der);
    list.Some? ==> StopsWithin(EntryRule(der, list.value.next), list.value.value, |der|)
  }

  function RevokedSerials(der: seq<byte>): seq<string>
    requires WalkStops(der)
  {
    var list := RevokedList(der);
    if list.None? then []
    else
      var serials := Serials(der, list.value.next, list.value.value, |der|);
      if serials.None? then [] else serials.value
  }

  /** `parseCrlRevokedSerials`: any thrown error makes the result empty. */
  method ParseCrlRevokedSerials(der: seq<byte>) returns (revokedSerials: seq<string>)
    requires WalkStops(der)
    ensures revokedSerials == RevokedSerials(der)
  {
    revokedSerials := [];
    var outer := ReadTlv(der, 0);
    if outer.None? || outer.value.tag != SEQUENCE {
      return [];
    }
    var tbs := ReadTlv(der, outer.value.value);
    if tbs.None? || tbs.value.tag != SEQUENCE {
      return [];
    }
    var p := tbs.value.value;
    var maybeVersion := ReadTlv(der, p);
    if maybeVersion.None? {
      return [];
    }
    if maybeVersion.value.tag == INTEGER {
      p := maybeVersion.value.next;
    }
    var sigAlg := ReadTlv(der, p);
    if sigAlg.None? || sigAlg.value.tag != SEQUENCE {
      return [];
    }
    p := sigAlg.value.next;
    var issuer := ReadTlv(der, p);
    if issuer.None? || issuer.value.tag != SEQUENCE {
      return [];
    }
    p := issuer.value.next;
    var thisUpdate := ReadTlv(der, p);
    if thisUpdate.None? || (thisUpdate.value.tag != UTC_TIME && thisUpdate.value.tag != GENERALIZED_TIME) {
      return [];
    }
    p := thisUpdate.value.next;
    assert AfterThisUpdate(der, tbs.value.value) == Some(p);
    ghost var p0 := p;
    if p < tbs.value.next {
      var maybeNext := ReadTlv(der, p);
      if maybeNext.None? {
        return [];
      }
      if maybeNext.value.tag == UTC_TIME || maybeNext.value.tag == GENERALIZED_TIME {
        p := maybeNext.value.next;
      }
    }
    if p < tbs.value.next {
      var maybeRevoked := ReadTlv(der, p);
      if maybeRevoked.None? {
        return [];
      }
      assert RevokedList(der) == RevokedListFrom(der, p0, tbs.value.next);
      if maybeRevoked.value.tag == SEQUENCE {
        assert RevokedList(der) == maybeRevoked;
        var thrown;
        revokedSerials, thrown := CollectSerials(der, maybeRevoked.value.value, maybeRevoked.value.next);
        if thrown {
          return [];
        }
      }
    }
  }

  /** The `while` loop over the entries. */
  method CollectSerials(der: seq<byte>, start: int, end: int) returns (serials: seq<string>, thrown: bool)
    requires StopsWithin(EntryRule(der, end), start, |der|)
    ensures Serials(der, end, start, |der|) == if thrown then None else Some(serials)
  {
    serials, thrown := [], false;
    var q := start;
    ghost var left := |der|;
    while q < end
      invariant left >= 0 && StopsWithin(EntryRule(der, end), q, left)
      invariant Serials(der, end, start, |der|) == Prefixed(serials, Serials(der, end, q, left))
      decreases left
    {
      var entry := ReadTlv(der, q);
      if entry.None? {
        thrown := true;
        return;
      }
      if entry.value.tag != SEQUENCE {
        break;
      }
      var serialTlv := ReadTlv(der, entry.value.value);
      if serialTlv.None? {
        thrown := true;
        return;
      }
      ghost var rest := Serials(der, end, entry.value.next, left - 1);
      if serialTlv.value.tag == INTEGER {
        var text := SerialText(Subarray(der, serialTlv.value.value, serialTlv.value.next));
        PrefixedTwice(serials, [text], rest);
        serials := serials + [text];
      }
      q := entry.value.next;
      left := left - 1;
    }
  }
}
