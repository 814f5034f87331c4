/** net/netip addresses, as far as the node looks at them. */
module NetAddr {

  type u32 = x: nat | x < 0x1_0000_0000
  type u64 = x: nat | x < 0x1_0000_0000_0000_0000

  datatype Addr = Invalid | V4(bits: u32) | V6(hi: u64, lo: u64, zone: string)

  /** IPv4-mapped, section 2.5.5.2 of RFC 4291. */
  predicate Is4In6(a: Addr) {
    a.V6? && a.hi == 0 && a.lo / 0x1_0000_0000 == 0xffff
  }

  function Unmap(a: Addr): (r: Addr)
    ensures !Is4In6(r)
    ensures !Is4In6(a) ==> r == a
  {
    if Is4In6(a) then V4(a.lo % 0x1_0000_0000) else a
  }

  /** The IPv4-mapped form of an IPv4 address. */
  function Mapped(bits: u32, zone: string): (r: Addr)
    ensures Is4In6(r) && Unmap(r) == V4(bits)
  {
    V6(0, 0xffff_0000_0000 + bits, zone)
  }

  function Byte(bits: u32, k: nat): nat
    requires k < 4
  {
    match k
    case 0 => bits / 0x100_0000
    case 1 => bits / 0x1_0000 % 0x100
    case 2 => bits / 0x100 % 0x100
    case 3 => bits % 0x100
  }

  predicate IsLoopback(a: Addr) {
    match a
    case V4(b) => Byte(b, 0) == 127
    case V6(hi, lo, _) => hi == 0 && lo == 1
    case Invalid => false
  }

  predicate IsPrivate(a: Addr) {
    match a
    case V4(b) =>
      || Byte(b, 0) == 10
      || (Byte(b, 0) == 172 && Byte(b, 1) / 16 == 1)
      || (Byte(b, 0) == 192 && Byte(b, 1) == 168)
    case V6(hi, _, _) => hi / 0x200_0000_0000_0000 == 0xfc / 2
    case Invalid => false
  }

  predicate IsLinkLocalUnicast(a: Addr) {
    match a
    case V4(b) => Byte(b, 0) == 169 && Byte(b, 1) == 254
    case V6(hi, _, _) => hi / 0x40_0000_0000_0000 == 0xfe80 / 0x40
    case Invalid => false
  }

  predicate IsMulticast(a: Addr) {
    match a
    case V4(b) => Byte(b, 0) / 16 == 0xe
    case V6(hi, _, _) => hi / 0x100_0000_0000_0000 == 0xff
    case Invalid => false
  }

  /** The one class netip compares with the zone. */
  predicate IsUnspecified(a: Addr) {
    a == V4(0) || a == V6(0, 0, "")
  }

  /** An IPv4 prefix: the addresses with the same quotient by the size of the block. */
  datatype Prefix = Prefix(base: u32, size: nat) {
    predicate Contains(a: Addr)
      requires size > 0
    {
      a.V4? && a.bits / size == base / size
    }
  }
}

/** destination.go: which addresses count as private, and the two filters that use them. */
module Destination {
  import opened NetAddr

  /** 0.0.0.0/8, 100.64.0.0/10 and 255.255.255.255/32. */
  const PRIVATE_PREFIXES: seq<Prefix> :=
    [Prefix(0, 0x100_0000), Prefix(0x6440_0000, 0x40_0000), Prefix(0xffff_ffff, 1)]

  predicate PrivateAddress(addr: Addr) {
    var a := Unmap(addr);
    || IsLoopback(a) || IsPrivate(a) || IsLinkLocalUnicast(a) || IsMulticast(a) || IsUnspecified(a)
    || (exists k | 0 <= k < |PRIVATE_PREFIXES| :: PRIVATE_PREFIXES[k].size > 0 && PRIVATE_PREFIXES[k].Contains(a))
  }

  // ---------------------------------------------------------------- what is private, as address ranges

  datatype Range = Range(first: nat, last: nat)

  /** "This network", private, CGNAT, loopback, link-local, multicast, broadcast; in address order. */
  const PRIVATE_V4: seq<Range> := [
    Range(0x0000_0000, 0x00ff_ffff), Range(0x0a00_0000, 0x0aff_ffff), Range(0x6440_0000, 0x647f_ffff),
    Range(0x7f00_0000, 0x7fff_ffff), Range(0xa9fe_0000, 0xa9fe_ffff), Range(0xac10_0000, 0xac1f_ffff),
    Range(0xc0a8_0000, 0xc0a8_ffff), Range(0xe000_0000, 0xefff_ffff), Range(0xffff_ffff, 0xffff_ffff)]

  predicate In(x: nat, ranges: seq<Range>) {
    exists k | 0 <= k < |ranges| :: ranges[k].first <= x <= ranges[k].last
  }

  predicate PrivateV6(hi: u64, lo: u64, zone: string) {
    || (hi == 0 && lo == 1)
    || (hi == 0 && lo == 0 && zone == "")
    || 0xfc00_0000_0000_0000 <= hi <= 0xfdff_ffff_ffff_ffff
    || 0xfe80_0000_0000_0000 <= hi <= 0xfebf_ffff_ffff_ffff
    || 0xff00_0000_0000_0000 <= hi
  }

  lemma PrefixesAsRanges(b: u32)
    ensures (exists k | 0 <= k < |PRIVATE_PREFIXES| ::
            PRIVATE_PREFIXES[k].size > 0 && PRIVATE_PREFIXES[k].Contains(V4(b)))
            <==> b <= 0x00ff_ffff || 0x6440_0000 <= b <= 0x647f_ffff || b == 0xffff_ffff
  {
    assert PRIVATE_PREFIXES[0].Contains(V4(b)) <==> b <= 0x00ff_ffff;
    assert PRIVATE_PREFIXES[1].Contains(V4(b)) <==> 0x6440_0000 <= b <= 0x647f_ffff;
    assert PRIVATE_PREFIXES[2].Contains(V4(b)) <==> b == 0xffff_ffff;
  }

  lemma ClassesAsRanges(b: u32)
    ensures IsLoopback(V4(b)) <==> 0x7f00_0000 <= b <= 0x7fff_ffff
    ensures IsPrivate(V4(b)) <==>
            0x0a00_0000 <= b <= 0x0aff_ffff || 0xac10_0000 <= b <= 0xac1f_ffff || 0xc0a8_0000 <= b <= 0xc0a8_ffff
    ensures IsLinkLocalUnicast(V4(b)) <==> 0xa9fe_0000 <= b <= 0xa9fe_ffff
    ensures IsMulticast(V4(b)) <==> 0xe000_0000 <= b <= 0xefff_ffff
  {
  }

  lemma InPrivateV4(b: u32)
    ensures In(b, PRIVATE_V4) <==>
            || b <= 0x00ff_ffff || 0x0a00_0000 <= b <= 0x0aff_ffff || 0x6440_0000 <= b <= 0x647f_ffff
            || 0x7f00_0000 <= b <= 0x7fff_ffff || 0xa9fe_0000 <= b <= 0xa9fe_ffff || 0xac10_0000 <= b <= 0xac1f_ffff
            || 0xc0a8_0000 <= b <= 0xc0a8_ffff || 0xe000_0000 <= b <= 0xefff_ffff || b == 0xffff_ffff
  {
    var r := PRIVATE_V4;
    assert r[0].last == 0x00ff_ffff && r[1].last == 0x0aff_ffff && r[2].last == 0x647f_ffff && r[3].last == 0x7fff_ffff
        && r[4].last == 0xa9fe_ffff && r[5].last == 0xac1f_ffff && r[6].last == 0xc0a8_ffff && r[7].last == 0xefff_ffff
        && r[8].last == 0xffff_ffff;
  }

  /** The classification is exactly the listed ranges, IPv4 and IPv6. */
  lemma PrivateIsTheRanges(addr: Addr)
    ensures PrivateAddress(addr) <==>
            match Unmap(addr)
            case V4(b) => In(b, PRIVATE_V4)
            case V6(hi, lo, zone) => PrivateV6(hi, lo, zone)
            case Invalid => false
  {
    match Unmap(addr)
    case V4(b) =>
      PrefixesAsRanges(b);
      ClassesAsRanges(b);
      InPrivateV4(b);
    case _ =>
  }

  /** Writing an IPv4 address in its mapped form, with any zone, does not change its class. */
  lemma MappingKeepsClass(bits: u32, zone: string)
    ensures PrivateAddress(Mapped(bits, zone)) <==> PrivateAddress(V4(bits))
  {
    assert Unmap(Mapped(bits, zone)) == Unmap(V4(bits));
  }

  // ---------------------------------------------------------------- the two filters

  /** M.Socksaddr: an address or a domain. */
  datatype Socksaddr = Socksaddr(addr: Addr, fqdn: string) {
    predicate IsIP() {
      !addr.Invalid?
    }

    predicate IsFqdn() {
      fqdn != ""
    }
  }

  /** What the router knows about a connection's destination. */
  datatype Metadata = Metadata(destination: Socksaddr, addresses: seq<Addr>)

  datatype Result<+T> = Ok(value: T) | Refused

  function Public(addresses: seq<Addr>): (r: seq<Addr>)
    ensures |r| <= |addresses|
  {
    if addresses == [] then []
    else (if PrivateAddress(addresses[0]) then [] else [addresses[0]]) + Public(addresses[1..])
  }

  /** Server.checkDestination; on success the addresses it leaves in the metadata. */
  function CheckDestination(allowPrivate: bool, m: Metadata): Result<Metadata> {
    if allowPrivate then Ok(m)
    else if m.destination.IsIP() && PrivateAddress(m.destination.addr) then Refused
    else if m.addresses != [] then
      if Public(m.addresses) == [] then Refused else Ok(m.(addresses := Public(m.addresses)))
    else Ok(m)
  }

  /** privateFilterDialer.refuses. */
  predicate Refuses(passDomains: bool, destination: Socksaddr) {
    if destination.IsFqdn() then !passDomains
    else destination.addr.Invalid? || PrivateAddress(destination.addr)
  }

  /** The sublist of `addresses` the dialer accepts, in order. */
  function Accepted(passDomains: bool, addresses: seq<Addr>): seq<Addr> {
    if addresses == [] then []
    else (if Refuses(passDomains, Socksaddr(addresses[0], "")) then [] else [addresses[0]])
         + Accepted(passDomains, addresses[1..])
  }

  lemma {:induction false} PublicIsAccepted(passDomains: bool, addresses: seq<Addr>)
    ensures Addr.Invalid !in addresses ==> Public(addresses) == Accepted(passDomains, addresses)
    ensures Addr.Invalid in addresses ==> |Accepted(passDomains, addresses)| < |Public(addresses)|
  {
    if addresses != [] {
      var a, rest := addresses[0], addresses[1..];
      PublicIsAccepted(passDomains, rest);
      assert addresses == [a] + rest;
    }
  }

  /** checkDestination in terms of the dialer: what it refuses goes, what it accepts stays, in order. */
  function FilterByDialer(passDomains: bool, m: Metadata): Result<Metadata> {
    if m.destination.IsIP() && Refuses(passDomains, Socksaddr(m.destination.addr, "")) then Refused
    else if m.addresses == [] then Ok(m)
    else if Accepted(passDomains, m.addresses) == [] then Refused
    else Ok(m.(addresses := Accepted(passDomains, m.addresses)))
  }

  /**
    For an IP destination, with whatever resolved addresses, the router does what the
    dialer's test says if and only if it refuses the destination or no address is invalid.
   */
  lemma FiltersAgreeOnIPs(passDomains: bool, addr: Addr, addresses: seq<Addr>)
    requires !addr.Invalid?
    ensures var m := Metadata(Socksaddr(addr, ""), addresses);
            CheckDestination(false, m) == FilterByDialer(passDomains, m)
            <==> Refuses(passDomains, m.destination) || Addr.Invalid !in addresses
    ensures CheckDestination(false, Metadata(Socksaddr(addr, ""), [])).Ok?
            <==> !Refuses(passDomains, Socksaddr(addr, ""))
  {
    PublicIsAccepted(passDomains, addresses);
  }

  /**
    For a resolved domain the router keeps, in order, exactly the addresses the
    dialer accepts, and fails if and only if none remain; this holds exactly when
    the resolver answered with no invalid address.
   */
  lemma FiltersAgreeOnResolved(passDomains: bool, domain: string, addresses: seq<Addr>)
    requires addresses != []
    ensures var m := Metadata(Socksaddr(Addr.Invalid, domain), addresses);
            CheckDestination(false, m) == FilterByDialer(passDomains, m) <==> Addr.Invalid !in addresses
  {
    PublicIsAccepted(passDomains, addresses);
  }

  /** Server.resolve: `lookup` is the resolver's answer for the domain. */
  function Resolve(resolveDomain: bool, m: Metadata, lookup: Result<seq<Addr>>): Result<Metadata> {
    if !resolveDomain || !m.destination.IsFqdn() || m.addresses != [] then Ok(m)
    else
      match lookup
      case Refused => Refused
      case Ok(addresses) => Ok(m.(addresses := UnmapAll(addresses)))
  }

  function UnmapAll(addresses: seq<Addr>): (r: seq<Addr>)
    ensures |r| == |addresses| && forall k | 0 <= k < |r| :: r[k] == Unmap(addresses[k])
  {
    if addresses == [] then [] else [Unmap(addresses[0])] + UnmapAll(addresses[1..])
  }

  lemma {:induction false} PublicMembers(addresses: seq<Addr>, a: Addr)
    ensures a in Public(addresses) <==> a in addresses && !PrivateAddress(a)
  {
    if addresses != [] {
      assert addresses == [addresses[0]] + addresses[1..];
      PublicMembers(addresses[1..], a);
    }
  }

  /**
    What the router lets through, the dialer lets through: the destination itself
    when it is an address, every valid address left for a domain, and a domain left to a
    front proxy; a domain that the node should have resolved is never dialed as such.
    The dialer is built with passDomains == !resolveDomain.
   */
  lemma {:induction false} RoutedIsDialable(resolveDomain: bool, m: Metadata, lookup: Result<seq<Addr>>,
                                            routed: Metadata)
    requires m.destination.IsIP() != m.destination.IsFqdn()
    requires Resolve(resolveDomain, m, lookup).Ok?
    requires CheckDestination(false, Resolve(resolveDomain, m, lookup).value) == Ok(routed)
    ensures routed.destination == m.destination
    ensures routed.destination.IsIP() ==> !Refuses(!resolveDomain, routed.destination)
    ensures forall a | a in routed.addresses :: Refuses(!resolveDomain, Socksaddr(a, "")) <==> a.Invalid?
    ensures routed.destination.IsFqdn() ==> (Refuses(!resolveDomain, routed.destination) <==> resolveDomain)
  {
    var resolved := Resolve(resolveDomain, m, lookup).value;
    forall a | a in routed.addresses ensures Refuses(!resolveDomain, Socksaddr(a, "")) <==> a.Invalid? {
      PublicMembers(resolved.addresses, a);
    }
  }

  /** A valid address outside every range of the list. */
  ghost predicate Reachable(addr: Addr) {
    match Unmap(addr)
    case V4(b) => !In(b, PRIVATE_V4)
    case V6(hi, lo, zone) => !PrivateV6(hi, lo, zone)
    case Invalid => false
  }

  /** The dialer takes a domain exactly if it passes domains, and an address exactly if it is reachable. */
  lemma RefusesExactly(passDomains: bool, destination: Socksaddr)
    ensures !Refuses(passDomains, destination) <==>
            if destination.fqdn != "" then passDomains else Reachable(destination.addr)
  {
    PrivateIsTheRanges(destination.addr);
  }

  /** A domain gets the resolver's answers, unmapped and in their order; anything else stays as it is. */
  lemma ResolveLeaves(resolveDomain: bool, m: Metadata, lookup: Result<seq<Addr>>)
    ensures var r := Resolve(resolveDomain, m, lookup);
            if resolveDomain && m.destination.fqdn != "" && m.addresses == [] then
              && (r.Ok? <==> lookup.Ok?)
              && (r.Ok? ==>
                    && r.value.destination == m.destination && |r.value.addresses| == |lookup.value|
                    && forall k | 0 <= k < |lookup.value| :: r.value.addresses[k] == Unmap(lookup.value[k]))
            else r == Ok(m)
  {
  }

  lemma {:induction false} PublicConcat(a: seq<Addr>, b: seq<Addr>)
    ensures Public(a + b) == Public(a) + Public(b)
  {
    if a == [] {
      assert a + b == b;
    } else {
      assert (a + b)[1..] == a[1..] + b;
      PublicConcat(a[1..], b);
    }
  }

  lemma PublicOne(a: Addr)
    ensures Public([a]) == if a == Addr.Invalid || Reachable(a) then [a] else []
  {
    PrivateIsTheRanges(a);
    assert [a][1..] == [];
  }

  /**
    A node that allows private destinations takes everything as it is; any other one
    takes a destination that is no private address and, if addresses were resolved,
    has one that is not, and keeps exactly those.
   */
  lemma {:induction false} CheckLeaves(allowPrivate: bool, m: Metadata, a: Addr)
    ensures var r := CheckDestination(allowPrivate, m);
            if allowPrivate then r == Ok(m)
            else
              && (r.Ok? <==>
                    && (m.destination.addr == Addr.Invalid || Reachable(m.destination.addr))
                    && (m.addresses != [] ==> exists b | b in m.addresses :: b == Addr.Invalid || Reachable(b)))
              && (r.Ok? ==>
                    && r.value.destination == m.destination
                    && (a in r.value.addresses <==> a in m.addresses && (a == Addr.Invalid || Reachable(a))))
  {
    PrivateIsTheRanges(m.destination.addr);
    PublicAre(m.addresses);
  }

  lemma PublicAre(addresses: seq<Addr>)
    ensures forall a :: a in Public(addresses) <==> a in addresses && (a == Addr.Invalid || Reachable(a))
    ensures Public(addresses) == [] <==> !exists a | a in addresses :: a == Addr.Invalid || Reachable(a)
  {
    forall a ensures a in Public(addresses) <==> a in addresses && (a == Addr.Invalid || Reachable(a)) {
      PublicMembers(addresses, a);
      PrivateIsTheRanges(a);
    }
    if Public(addresses) != [] {
      assert Public(addresses)[0] in Public(addresses);
    }
  }

  /** The InboundContext of a connection, which resolve and checkDestination overwrite. */
  class InboundContext {
    const destination: Socksaddr
    var addresses: seq<Addr>

    constructor (destination: Socksaddr)
      ensures this.destination == destination && addresses == []
    {
      this.destination, addresses := destination, [];
    }

    ghost function Model(): Metadata
      reads this
    {
      Metadata(destination, addresses)
    }

    /** `lookup` is the resolver's answer. */
    method LookUp(resolveDomain: bool, lookup: Result<seq<Addr>>) returns (ok: bool)
      modifies this`addresses
      ensures ok == Resolve(resolveDomain, old(Model()), lookup).Ok?
      ensures Model() == if ok then Resolve(resolveDomain, old(Model()), lookup).value else old(Model())
    {
      if !resolveDomain || !destination.IsFqdn() || |addresses| > 0 {
        return true;
      }
      if lookup.Refused? {
        return false;
      }
      addresses := UnmapAll(lookup.value);
      ok := true;
    }

    /** Leaves only public addresses, and nothing changed if the destination is refused. */
    method Check(allowPrivate: bool) returns (ok: bool)
      modifies this`addresses
      ensures ok == CheckDestination(allowPrivate, old(Model())).Ok?
      ensures Model() == if ok then CheckDestination(allowPrivate, old(Model())).value else old(Model())
      ensures ok && !allowPrivate ==> forall a | a in addresses :: !PrivateAddress(a)
    {
      if allowPrivate {
        return true;
      }
      if destination.IsIP() && PrivateAddress(destination.addr) {
        return false;
      }
      if |addresses| > 0 {
        var public := Public(addresses);
        forall a | a in public ensures !PrivateAddress(a) {
          PublicMembers(addresses, a);
        }
        if |public| == 0 {
          return false;
        }
        addresses := public;
      }
      ok := true;
    }
  }

  // ---------------------------------------------------------------- packets

  datatype Packet = Packet(payload: seq<bv8>, destination: Socksaddr)

  ghost function Forwarded(passDomains: bool, packets: seq<Packet>): seq<Packet> {
    if packets == [] then []
    else Forwarded(passDomains, packets[..|packets| - 1])
         + (if Refuses(passDomains, packets[|packets| - 1].destination) then [] else [packets[|packets| - 1]])
  }

  /** privateFilterPacketConn over a socket; `sent` is what the socket was given, `offered` what the session wrote. */
  class FilteredPacketConn {
    const passDomains: bool
    var sent: seq<Packet>
    ghost var offered: seq<Packet>

    ghost predicate Valid()
      reads this
    {
      sent == Forwarded(passDomains, offered)
    }

    constructor (passDomains: bool)
      ensures Valid() && offered == [] && this.passDomains == passDomains
    {
      this.passDomains := passDomains;
      sent, offered := [], [];
    }

    /**
      Drops a packet to a refused destination as a firewall would: the writer sees
      success.  A packet that is forwarded fares as the socket does.
     */
    method WritePacket(packet: Packet, delivered: bool) returns (ok: bool)
      requires Valid()
      modifies this
      ensures Valid() && offered == old(offered) + [packet]
      ensures sent == old(sent) + (if Refuses(passDomains, packet.destination) then [] else [packet])
      ensures ok == (Refuses(passDomains, packet.destination) || delivered)
    {
      offered := offered + [packet];
      assert offered[..|offered| - 1] == old(offered);
      ok := true;
      if !Refuses(passDomains, packet.destination) {
        sent := sent + [packet];
        ok := delivered;
      }
    }
  }

  lemma {:induction false} ForwardedConcat(passDomains: bool, a: seq<Packet>, b: seq<Packet>)
    ensures Forwarded(passDomains, a + b) == Forwarded(passDomains, a) + Forwarded(passDomains, b)
  {
    if b == [] {
      assert a + b == a;
    } else {
      assert (a + b)[..|a + b| - 1] == a + b[..|b| - 1];
      ForwardedConcat(passDomains, a, b[..|b| - 1]);
    }
  }

  /** The socket receives exactly the packets to accepted destinations: none other, none missing. */
  lemma {:induction false} ForwardedMembers(passDomains: bool, packets: seq<Packet>)
    ensures multiset(Forwarded(passDomains, packets)) + Dropped(passDomains, packets) == multiset(packets)
    ensures forall p | p in Forwarded(passDomains, packets) :: !Refuses(passDomains, p.destination)
    ensures forall p | p in Dropped(passDomains, packets) :: Refuses(passDomains, p.destination)
  {
    if packets != [] {
      var n := |packets| - 1;
      var last := packets[n];
      assert multiset(packets) == multiset(packets[..n]) + multiset{last} by {
        assert packets == packets[..n] + [last];
      }
      ForwardedMembers(passDomains, packets[..n]);
    }
  }

  ghost function Dropped(passDomains: bool, packets: seq<Packet>): multiset<Packet> {
    if packets == [] then multiset{}
    else Dropped(passDomains, packets[..|packets| - 1])
         + (if Refuses(passDomains, packets[|packets| - 1].destination)
            then multiset{packets[|packets| - 1]} else multiset{})
  }

  /** On the fields: which packets of a session reach the socket. */
  lemma {:induction false} ForwardedAre(passDomains: bool, packets: seq<Packet>, p: Packet)
    ensures p in Forwarded(passDomains, packets) <==>
            p in packets && if p.destination.fqdn != "" then passDomains else Reachable(p.destination.addr)
  {
    ForwardedMembers(passDomains, packets);
    RefusesExactly(passDomains, p.destination);
    var forwarded, dropped := multiset(Forwarded(passDomains, packets)), Dropped(passDomains, packets);
    assert p in packets <==> p in multiset(packets);
    assert p in Forwarded(passDomains, packets) <==> p in forwarded;
    assert (forwarded + dropped)[p] == forwarded[p] + dropped[p];
  }
}
