/** Consent and anonymisation, pkg/domain/ingest/consent.go. */
module Consent {
  import opened Events

  predicate ConsentGiven(eventType: string, consent: bool) {
    (eventType == "click" || eventType == "view_item") ==> consent
  }

  /** Clicks and item views need consent, nothing else does. */
  lemma ConsentByType(eventType: string, consent: bool)
    ensures ConsentGiven(eventType, consent) <==> consent || eventType !in {"click", "view_item"}
  {
  }

  const UNREADABLE := V4([0, 0, 0, 0])

  /** The four bytes behind the ::ffff:0:0/96 prefix, if `ip` has it. */
  predicate Mapped(ip: seq<bv8>)
    requires |ip| == 16
  {
    (forall i :: 0 <= i < 10 ==> ip[i] == 0) && ip[10] == 0xff && ip[11] == 0xff
  }

  /** The address net.IP.To4 and To16 see in 16 parsed bytes. */
  function Read(ip: seq<bv8>): Address
    requires |ip| == 16
  {
    if Mapped(ip) then V4(ip[12..]) else V6(ip)
  }

  predicate WellFormed(a: Address) {
    match a
    case V4(octets) => |octets| == 4
    case V6(bytes) => |bytes| == 16 && !Mapped(bytes)
    case Unreadable(_) => true
  }

  /** The network an address belongs to: /24 for IPv4, /64 for IPv6. */
  function Network(a: Address): seq<bv8>
    requires WellFormed(a)
  {
    match a
    case V4(octets) => octets[..3]
    case V6(bytes) => bytes[..8]
    case Unreadable(_) => [0, 0, 0]
  }

  function Masked(a: Address): (r: Address)
    requires WellFormed(a)
  {
    match a
    case V4(octets) => V4(octets[3 := 0])
    case V6(bytes) => V6(bytes[..8] + [0, 0, 0, 0, 0, 0, 0, 0])
    case Unreadable(_) => UNREADABLE
  }

  /** AnonymizeIP: `parsed` holds the 16 bytes that net.ParseIP returns, or is null when the
      text is no address. The bytes are overwritten in place. */
  method AnonymizeIP(parsed: array?<bv8>) returns (r: Address)
    requires parsed != null ==> parsed.Length == 16
    modifies parsed
    ensures parsed == null ==> r == UNREADABLE
    ensures parsed != null ==> r == Masked(Read(old(parsed[..]))) && Read(parsed[..]) == r
  {
    if parsed == null {
      return UNREADABLE;
    }
    ghost var ip := parsed[..];
    var mapped := parsed[10] == 0xff && parsed[11] == 0xff;
    var i := 0;
    while i < 10
      invariant 0 <= i <= 10
      invariant mapped <==> (forall k :: 0 <= k < i ==> ip[k] == 0) && ip[10] == 0xff && ip[11] == 0xff
    {
      mapped := mapped && parsed[i] == 0;
      i := i + 1;
    }
    if mapped {
      parsed[15] := 0;
      assert parsed[12..] == ip[12..][3 := 0];
      return V4(parsed[12..]);
    }
    i := 8;
    while i < 16
      invariant 8 <= i <= 16
      invariant parsed[..8] == ip[..8]
      invariant forall k :: 8 <= k < i ==> parsed[k] == 0
    {
      parsed[i] := 0;
      i := i + 1;
    }
    assert parsed[..] == ip[..8] + [0, 0, 0, 0, 0, 0, 0, 0];
    return V6(parsed[..]);
  }

  /** Sixteen bytes are an IPv4 address exactly when they have the mapping prefix, and are then
      the four bytes after it. */
  lemma MappedBytesAreIPv4(ip: seq<bv8>, octets: seq<bv8>)
    requires |ip| == 16 && |octets| == 4
    ensures Read(ip) == V4(octets) <==> ip == [0, 0, 0, 0, 0, 0, 0, 0, 0, 0, 0xff, 0xff] + octets
    ensures Read(ip).V6? ==> Read(ip) == V6(ip)
  {
    var prefix: seq<bv8> := [0, 0, 0, 0, 0, 0, 0, 0, 0, 0, 0xff, 0xff];
    if Mapped(ip) {
      assert ip[..12] == prefix;
      assert ip == ip[..12] + ip[12..];
    }
    if ip == prefix + octets {
      assert ip[12..] == octets;
    }
  }

  /** Byte by byte: three of four bytes stay, or eight of sixteen, and the others are zero. */
  lemma MaskByBytes(a: Address)
    requires WellFormed(a)
    ensures match a
            case V4(o) => Masked(a) == V4([o[0], o[1], o[2], 0])
            case V6(bytes) =>
              && Masked(a).V6? && |Masked(a).bytes| == 16
              && forall i :: 0 <= i < 16 ==> Masked(a).bytes[i] == if i < 8 then bytes[i] else 0
            case Unreadable(_) => Masked(a) == V4([0, 0, 0, 0])
  {
    if a.V4? {
      assert a.octets[3 := 0] == [a.octets[0], a.octets[1], a.octets[2], 0];
    }
  }

  /** Masking forgets the host and nothing else: two addresses are masked alike exactly when
      they are of one family and one network. Text that is no address counts as 0.0.0.0. */
  lemma MaskKeepsExactlyTheNetwork(a: Address, b: Address)
    requires WellFormed(a) && WellFormed(b)
    ensures Masked(a) == Masked(b) <==> (a.V6? <==> b.V6?) && Network(a) == Network(b)
    ensures WellFormed(Masked(a)) && Masked(Masked(a)) == Masked(a) && Network(Masked(a)) == Network(a)
  {
    NetworkDecides(a, b);
    NetworkDecides(b, a);
    if a.V6? && b.V6? && Masked(a) == Masked(b) {
      assert Masked(a).bytes[..8] == a.bytes[..8] && Masked(b).bytes[..8] == b.bytes[..8];
    }
  }

  lemma NetworkDecides(a: Address, b: Address)
    requires WellFormed(a) && WellFormed(b)
    ensures WellFormed(Masked(a)) && Network(Masked(a)) == Network(a) && Masked(Masked(a)) == Masked(a)
    ensures Masked(a).V6? <==> a.V6?
    ensures !a.V6? && !b.V6? && Network(a) == Network(b) ==> Masked(a) == Masked(b)
  {
    match a
    case V4(o) =>
      assert o[3 := 0][3 := 0] == o[3 := 0] && o[3 := 0][..3] == o[..3];
      assert o[3 := 0] == o[..3] + [0];
      if b.V4? {
        assert b.octets[3 := 0] == b.octets[..3] + [0];
      }
    case V6(bytes) =>
      var m := Masked(a).bytes;
      assert m[10] == 0;
      assert m[..8] == bytes[..8];
      assert Masked(Masked(a)).bytes == m;
    case Unreadable(_) =>
      assert UNREADABLE.octets[3 := 0] == UNREADABLE.octets && UNREADABLE.octets[..3] == [0, 0, 0];
      if b.V4? {
        assert b.octets[3 := 0] == b.octets[..3] + [0];
      }
  }
}
