/** The shared nftables policy (internal/core/network/nftables.go) and the contract it must meet
    (internal/core/network/policy.go, config.go). */
module Firewall {
  import opened Common
  import opened Addressing

  datatype Config = Config(tapName: string, hostIP: string, guestIP: string, allowedPorts: seq<int>, uplink: string)

  const HOST_PROXY_PORT: int := 8080
  const DNS_PORT: int := 53
  const METADATA: Address := [169, 254, 169, 254]

  // ---- validation ----

  function Value(a: Address): nat {
    ((a[0] * 256 + a[1]) * 256 + a[2]) * 256 + a[3]
  }

  /** net.IPNet.Contains: the addresses agree on the network bits. */
  predicate Contains(net: CIDR, a: Address)
    requires net.bits <= 32
  {
    Value(a) / Pow2(32 - net.bits) == Value(net.address) / Pow2(32 - net.bits)
  }

  predicate TapChar(c: char) {
    'a' <= c <= 'z' || 'A' <= c <= 'Z' || '0' <= c <= '9' || c == '_' || c == '-'
  }

  predicate ValidConfig(c: Config) {
    && c.tapName != "" && c.uplink != ""
    && ParseIP(c.hostIP).Some?
    && ParseCIDR(c.guestIP).Some?
    && ParseCIDR(c.guestIP).value.bits <= 32 && Contains(ParseCIDR(c.guestIP).value, ParseIP(c.hostIP).value)
    && (forall p :: p in c.allowedPorts ==> 1 <= p <= 65535)
  }

  predicate ValidNftConfig(c: Config) {
    ValidConfig(c) && 1 <= |c.tapName| <= 15 && forall ch :: ch in c.tapName ==> TapChar(ch)
  }

  function Gateway(c: Config): Address
    requires ParseIP(c.hostIP).Some?
  {
    ParseIP(c.hostIP).value
  }

  /** What the allocator issues for a subnet. */
  function Issued(base: Config, tap: string, subnet: nat): Config {
    base.(tapName := tap, hostIP := HostText(subnet), guestIP := GuestText(subnet))
  }

  lemma NetworkPart(subnet: nat, last: nat)
    requires last < 256
    ensures Value([172, 16, subnet, last]) / Pow2(8) == (172 * 256 + 16) * 256 + subnet
  {
    assert Pow2(8) == 256 by { assert Pow2(4) == 16; }
    var a: Address := [172, 16, subnet, last];
    assert Value(a) == ((172 * 256 + 16) * 256 + subnet) * 256 + last;
  }

  lemma IssuedGateway(base: Config, tap: string, subnet: nat)
    requires subnet < 256
    ensures var c := Issued(base, tap, subnet);
            && ParseIP(c.hostIP) == Some([172, 16, subnet, 1])
            && ParseCIDR(c.guestIP) == Some(CIDR([172, 16, subnet, 2], 24))
            && Contains(CIDR([172, 16, subnet, 2], 24), [172, 16, subnet, 1])
  {
    HostRoundTrip(subnet);
    GuestRoundTrip(subnet);
    NetworkPart(subnet, 1);
    NetworkPart(subnet, 2);
  }

  predicate TapNameChars(tap: string) {
    forall k :: 0 <= k < |tap| ==>
      'a' <= tap[k] <= 'z' || 'A' <= tap[k] <= 'Z' || '0' <= tap[k] <= '9' || tap[k] == '_' || tap[k] == '-'
  }

  lemma TapNameCharsAre(tap: string)
    ensures TapNameChars(tap) <==> forall ch :: ch in tap ==> TapChar(ch)
  {
    if forall ch :: ch in tap ==> TapChar(ch) {
      forall k | 0 <= k < |tap| ensures TapChar(tap[k]) { assert tap[k] in tap; }
    }
  }

  /** Every issued configuration is valid as far as its addresses go: validation comes down to the uplink, the ports
      and, for nftables, a TAP name of 1 to 15 letters, digits, underscores and dashes. Its gateway is never the
      metadata address. */
  lemma IssuedIsValid(base: Config, tap: string, subnet: nat)
    requires subnet < 256
    ensures ParseIP(Issued(base, tap, subnet).hostIP) == Some([172, 16, subnet, 1])
    ensures ValidConfig(Issued(base, tap, subnet)) <==>
            tap != "" && base.uplink != "" && forall p :: p in base.allowedPorts ==> 1 <= p <= 65535
    ensures ValidNftConfig(Issued(base, tap, subnet)) <==>
            && 1 <= |tap| <= 15 && base.uplink != "" && (forall p :: p in base.allowedPorts ==> 1 <= p <= 65535)
            && TapNameChars(tap)
    ensures Gateway(Issued(base, tap, subnet)) != [169, 254, 169, 254]
  {
    IssuedGateway(base, tap, subnet);
    TapNameCharsAre(tap);
  }

  /** A host address outside the guest's network is refused, whatever else the configuration says. */
  lemma ForeignGatewayIsInvalid(c: Config, subnet: nat, other: nat)
    requires subnet < 256 && other < 256 && subnet != other
    requires c.hostIP == HostText(other) && c.guestIP == GuestText(subnet)
    ensures !ValidConfig(c)
  {
    HostRoundTrip(other);
    GuestRoundTrip(subnet);
    NetworkPart(other, 1);
    NetworkPart(subnet, 2);
  }

  // ---- set elements ----

  /** An element of guest_taps, guest_udp_allow or guest_tcp_allow; the three sets are kept as one. */
  datatype Element =
    Tap(tap: string) | Udp(tap: string, addr: Address, port: int) | Tcp(tap: string, addr: Address, port: int)

  type Sets = set<Element>

  function OtherPorts(ports: seq<int>): (r: seq<int>) {
    if ports == [] then []
    else OtherPorts(ports[..|ports| - 1]) +
         if ports[|ports| - 1] != HOST_PROXY_PORT then [ports[|ports| - 1]] else []
  }

  function TcpElements(tap: string, gw: Address, ports: seq<int>): (r: seq<Element>)
    ensures |r| == |ports| && forall k :: 0 <= k < |r| ==> r[k] == Tcp(tap, gw, ports[k])
  {
    if ports == [] then []
    else TcpElements(tap, gw, ports[..|ports| - 1]) + [Tcp(tap, gw, ports[|ports| - 1])]
  }

  /** The elements nftVMElements names, in order. */
  function Elements(c: Config): seq<Element>
    requires ParseIP(c.hostIP).Some?
  {
    [Tap(c.tapName), Udp(c.tapName, Gateway(c), DNS_PORT), Tcp(c.tapName, Gateway(c), HOST_PROXY_PORT)]
    + TcpElements(c.tapName, Gateway(c), OtherPorts(c.allowedPorts))
  }

  lemma {:induction false} OtherPortsMembers(ports: seq<int>)
    ensures forall p :: p in OtherPorts(ports) <==> p in ports && p != HOST_PROXY_PORT
    decreases |ports|
  {
    if ports != [] {
      var init := ports[..|ports| - 1];
      OtherPortsMembers(init);
      assert ports == init + [ports[|ports| - 1]];
    }
  }

  /** What a VM contributes, as sets: its TAP, DNS, the proxy port and its allowed ports, all on its gateway. */
  lemma ElementsAre(c: Config, x: Element)
    requires ParseIP(c.hostIP).Some?
    ensures x in Elements(c) <==>
            || x == Tap(c.tapName)
            || x == Udp(c.tapName, Gateway(c), DNS_PORT)
            || (x.Tcp? && x.tap == c.tapName && x.addr == Gateway(c)
                && (x.port == HOST_PROXY_PORT || x.port in c.allowedPorts))
  {
    var other := OtherPorts(c.allowedPorts);
    var tcp := TcpElements(c.tapName, Gateway(c), other);
    OtherPortsMembers(c.allowedPorts);
    assert x in Elements(c) <==>
           || x in tcp
           || x in [Tap(c.tapName), Udp(c.tapName, Gateway(c), DNS_PORT), Tcp(c.tapName, Gateway(c), HOST_PROXY_PORT)];
    if x.Tcp? && x.tap == c.tapName && x.addr == Gateway(c) && x.port in other {
      var k :| 0 <= k < |other| && other[k] == x.port;
      assert tcp[k] == x;
    }
  }

  // ---- the transactions ----

  function Added(s: Sets, es: seq<Element>): Sets {
    s + Elems(es)
  }

  /** Deleting in order; a missing element aborts the whole transaction. */
  function Deleted(s: Sets, es: seq<Element>): (r: Option<Sets>) {
    if es == [] then Some(s)
    else if es[0] !in s then None
    else Deleted(s - {es[0]}, es[1..])
  }

  /** A delete goes through exactly when it names present elements, each once, and then removes just those. */
  lemma {:induction false} DeleteSucceeds(s: Sets, es: seq<Element>)
    ensures Deleted(s, es).Some? <==> NoDup(es) && Elems(es) <= s
    ensures Deleted(s, es).Some? ==> Deleted(s, es).value == s - Elems(es)
    decreases |es|
  {
    if es != [] {
      var rest := es[1..];
      DeleteSucceeds(s - {es[0]}, rest);
      assert Elems(es) == {es[0]} + Elems(rest);
      assert forall k :: 0 <= k < |rest| ==> rest[k] == es[k + 1];
      if es[0] in s {
        if NoDup(es) && Elems(es) <= s {
          assert NoDup(rest);
          assert es[0] !in rest;
        }
        if NoDup(rest) && Elems(rest) <= s - {es[0]} {
          NoDupCons(es);
        }
      } else {
        assert es[0] in Elems(es);
      }
    }
  }

  lemma NoDupCons(es: seq<Element>)
    requires es != [] && NoDup(es[1..]) && es[0] !in Elems(es[1..])
    ensures NoDup(es)
  {
    forall i, j | 0 <= i < j < |es| ensures es[i] != es[j] {
      assert es[j] == es[1..][j - 1] && es[j] in es[1..];
      if i > 0 { assert es[i] == es[1..][i - 1]; }
    }
  }

  /** The elements of a VM are distinct exactly when its allowed ports other than 8080 are. */
  lemma ElementsDistinct(c: Config)
    requires ParseIP(c.hostIP).Some?
    ensures NoDup(Elements(c)) <==> NoDup(OtherPorts(c.allowedPorts))
  {
    var other, es := OtherPorts(c.allowedPorts), Elements(c);
    OtherPortsMembers(c.allowedPorts);
    if NoDup(es) {
      forall i, j | 0 <= i < j < |other| ensures other[i] != other[j] {
        assert es[3 + i] == Tcp(c.tapName, Gateway(c), other[i]) && es[3 + j] == Tcp(c.tapName, Gateway(c), other[j]);
      }
    }
    if NoDup(other) {
      forall i, j | 0 <= i < j < |es| ensures es[i] != es[j] {
        if j >= 3 {
          assert es[j] == Tcp(c.tapName, Gateway(c), other[j - 3]) && other[j - 3] in other;
          if i >= 3 { assert other[i - 3] != other[j - 3]; }
        }
      }
    }
  }

  // ---- the rule chain ----

  datatype Proto = TCP | UDP | OtherProto
  datatype Verdict = Accept | Drop

  /** A forwarded packet; addr is None for anything but IPv4, and tracked says conntrack knows the connection as
      established or related. */
  datatype Packet = Packet(iif: string, oif: string, addr: Option<Address>, proto: Proto, port: int, tracked: bool)

  datatype Cond = FromGuest | ToGuest | ToAddress(a: Address) | Tracked | InTcpAllow | InUdpAllow

  datatype Rule = Rule(conds: seq<Cond>, verdict: Verdict)

  /** The forward chain of nftBaseRuleset, in order; its policy is accept. */
  const FORWARD: seq<Rule> := [
    Rule([FromGuest, ToAddress(METADATA)], Drop),
    Rule([FromGuest, Tracked], Accept),
    Rule([InTcpAllow], Accept),
    Rule([InUdpAllow], Accept),
    Rule([FromGuest], Drop),
    Rule([ToGuest, Tracked], Accept)]

  predicate Holds(c: Cond, s: Sets, p: Packet) {
    match c
    case FromGuest => Tap(p.iif) in s
    case ToGuest => Tap(p.oif) in s
    case ToAddress(a) => p.addr == Some(a)
    case Tracked => p.tracked
    case InTcpAllow => p.proto == TCP && p.addr.Some? && Tcp(p.iif, p.addr.value, p.port) in s
    case InUdpAllow => p.proto == UDP && p.addr.Some? && Udp(p.iif, p.addr.value, p.port) in s
  }

  predicate Matches(conds: seq<Cond>, s: Sets, p: Packet) {
    conds == [] || (Holds(conds[0], s, p) && Matches(conds[1..], s, p))
  }

  /** First match wins. */
  function Eval(rules: seq<Rule>, s: Sets, p: Packet): Verdict {
    if rules == [] then Accept
    else if Matches(rules[0].conds, s, p) then rules[0].verdict
    else Eval(rules[1..], s, p)
  }

  /** The chain written out as nested tests. */
  function Chain(s: Sets, p: Packet): Verdict {
    if Holds(FromGuest, s, p) && Holds(ToAddress(METADATA), s, p) then Drop
    else if Holds(FromGuest, s, p) && p.tracked then Accept
    else if Holds(InTcpAllow, s, p) || Holds(InUdpAllow, s, p) then Accept
    else if Holds(FromGuest, s, p) then Drop
    else Accept
  }

  lemma MatchesOne(a: Cond, s: Sets, p: Packet)
    ensures Matches([a], s, p) == Holds(a, s, p)
  {
    assert [a][1..] == [];
  }

  lemma MatchesTwo(a: Cond, b: Cond, s: Sets, p: Packet)
    ensures Matches([a, b], s, p) == (Holds(a, s, p) && Holds(b, s, p))
  {
    assert [a, b][1..] == [b];
    MatchesOne(b, s, p);
  }

  lemma EvalIsChain(s: Sets, p: Packet)
    ensures Eval(FORWARD, s, p) == Chain(s, p)
  {
    MatchesTwo(FromGuest, ToAddress(METADATA), s, p);
    MatchesTwo(FromGuest, Tracked, s, p);
    MatchesOne(InTcpAllow, s, p);
    MatchesOne(InUdpAllow, s, p);
    MatchesOne(FromGuest, s, p);
    MatchesTwo(ToGuest, Tracked, s, p);
    var r1 := FORWARD[1..];
    var r2 := r1[1..];
    var r3 := r2[1..];
    var r4 := r3[1..];
    var r5 := r4[1..];
    assert r5[1..] == [];
    assert Eval(r5, s, p) == Accept;
    assert Eval(r4, s, p) == if Holds(FromGuest, s, p) then Drop else Accept;
    assert Eval(r3, s, p) == if Holds(InUdpAllow, s, p) then Accept else Eval(r4, s, p);
    assert Eval(r2, s, p) == if Holds(InTcpAllow, s, p) then Accept else Eval(r3, s, p);
  }

  // ---- the contract ----

  predicate AllowsTCP(c: Config, dest: Option<Address>, port: int) {
    ParseIP(c.hostIP).Some? && dest == ParseIP(c.hostIP) && port in c.allowedPorts
  }

  /** AllowsTCPDestination, with its search loop. */
  method AllowsTCPDestination(c: Config, dest: Option<Address>, port: int) returns (ok: bool)
    ensures ok <==> AllowsTCP(c, dest, port)
    ensures ok <==>
            && dest.Some? && dest == ParseIP(c.hostIP)
            && exists i :: 0 <= i < |c.allowedPorts| && c.allowedPorts[i] == port
  {
    var gateway := ParseIP(c.hostIP);
    if gateway.None? || dest.None? || gateway != dest { return false; }
    for i := 0 to |c.allowedPorts|
      invariant port !in c.allowedPorts[..i]
    {
      if c.allowedPorts[i] == port { return true; }
    }
    assert c.allowedPorts[..|c.allowedPorts|] == c.allowedPorts;
    return false;
  }

  /** The list the loop has built after i ports. */
  ghost function ElementsUpto(c: Config, i: nat): seq<Element>
    requires ParseIP(c.hostIP).Some? && i <= |c.allowedPorts|
  {
    Elements(c.(allowedPorts := c.allowedPorts[..i]))
  }

  lemma OnePortMore(c: Config, i: nat)
    requires ParseIP(c.hostIP).Some? && i < |c.allowedPorts|
    ensures var port := c.allowedPorts[i];
            ElementsUpto(c, i + 1) ==
            ElementsUpto(c, i) + if port != HOST_PROXY_PORT then [Tcp(c.tapName, Gateway(c), port)] else []
  {
    var before, after := c.allowedPorts[..i], c.allowedPorts[..i + 1];
    assert after[..|after| - 1] == before;
    if c.allowedPorts[i] != HOST_PROXY_PORT {
      var o := OtherPorts(after);
      assert o[..|o| - 1] == OtherPorts(before);
    } else {
      assert OtherPorts(after) == OtherPorts(before);
    }
  }

  /** The elements of a VM, built by the loop of nftVMElements. */
  method VMElements(c: Config) returns (es: seq<Element>)
    requires ParseIP(c.hostIP).Some?
    ensures es == Elements(c)
  {
    var gw := Gateway(c);
    es := [Tap(c.tapName), Udp(c.tapName, gw, DNS_PORT), Tcp(c.tapName, gw, HOST_PROXY_PORT)];
    assert es == ElementsUpto(c, 0);
    for i := 0 to |c.allowedPorts|
      invariant es == ElementsUpto(c, i)
    {
      OnePortMore(c, i);
      if c.allowedPorts[i] != HOST_PROXY_PORT {
        es := es + [Tcp(c.tapName, gw, c.allowedPorts[i])];
      }
    }
    assert c.allowedPorts[..|c.allowedPorts|] == c.allowedPorts;
  }

  /** The VMs whose policy is installed, by TAP name. */
  type Live = map<string, Config>

  ghost predicate LiveOk(live: Live) {
    forall t :: t in live ==> live[t].tapName == t && ParseIP(live[t].hostIP).Some?
  }

  /** The union of the live VMs' elements. */
  function SetsOf(live: Live): Sets
    requires LiveOk(live)
  {
    set t, x | t in live && x in Elements(live[t]) :: x
  }

  /** The policy a VM is promised, whatever other VMs there are: metadata is blocked, known connections pass, and new
      ones reach only its own gateway, on an allowed or the proxy TCP port or the DNS UDP port. */
  function Policy(live: Live, p: Packet): Verdict
    requires LiveOk(live)
  {
    if p.iif !in live then Accept
    else
      var c := live[p.iif];
      if p.addr == Some(METADATA) then Drop
      else if p.tracked then Accept
      else if p.proto == TCP
              && (AllowsTCP(c, p.addr, p.port) || (p.addr == Some(Gateway(c)) && p.port == HOST_PROXY_PORT)) then Accept
      else if p.proto == UDP && p.addr == Some(Gateway(c)) && p.port == DNS_PORT then Accept
      else Drop
  }

  /** An element is present exactly when the VM of its TAP is live and contributes it. */
  lemma SetsOfMember(live: Live, x: Element)
    requires LiveOk(live)
    ensures x in SetsOf(live) <==> x.tap in live && x in Elements(live[x.tap])
  {
    if x in SetsOf(live) {
      var t :| t in live && x in Elements(live[t]);
      ElementsAre(live[t], x);
    }
  }

  lemma FromGuestMeans(live: Live, p: Packet)
    requires LiveOk(live)
    ensures Holds(FromGuest, SetsOf(live), p) <==> p.iif in live
  {
    SetsOfMember(live, Tap(p.iif));
    if p.iif in live { ElementsAre(live[p.iif], Tap(p.iif)); }
  }

  lemma TcpAllowMeans(live: Live, p: Packet)
    requires LiveOk(live)
    ensures Holds(InTcpAllow, SetsOf(live), p) <==>
            && p.proto == TCP && p.iif in live && p.addr == Some(Gateway(live[p.iif]))
            && (p.port == HOST_PROXY_PORT || p.port in live[p.iif].allowedPorts)
  {
    if p.addr.Some? {
      var x := Tcp(p.iif, p.addr.value, p.port);
      SetsOfMember(live, x);
      if p.iif in live { ElementsAre(live[p.iif], x); }
    }
  }

  lemma UdpAllowMeans(live: Live, p: Packet)
    requires LiveOk(live)
    ensures Holds(InUdpAllow, SetsOf(live), p) <==>
            p.proto == UDP && p.iif in live && p.addr == Some(Gateway(live[p.iif])) && p.port == DNS_PORT
  {
    if p.addr.Some? {
      var x := Udp(p.iif, p.addr.value, p.port);
      SetsOfMember(live, x);
      if p.iif in live { ElementsAre(live[p.iif], x); }
    }
  }

  /** The rule chain over the shared sets gives every packet the verdict of the per-VM policy. */
  lemma ChainMeetsPolicy(live: Live, p: Packet)
    requires LiveOk(live)
    ensures Eval(FORWARD, SetsOf(live), p) == Policy(live, p)
  {
    EvalIsChain(SetsOf(live), p);
    FromGuestMeans(live, p);
    TcpAllowMeans(live, p);
    UdpAllowMeans(live, p);
  }

  /** For a VM with an issued gateway: a new TCP packet passes exactly when the contract allows its destination or it
      goes to the gateway's proxy port; a new UDP packet passes exactly to the gateway's DNS port. */
  lemma NewConnections(live: Live, p: Packet, base: Config, subnet: nat)
    requires LiveOk(live) && p.iif in live && subnet < 256 && live[p.iif] == Issued(base, p.iif, subnet) && !p.tracked
    ensures p.proto == TCP ==>
              (Eval(FORWARD, SetsOf(live), p) == Accept <==>
                 AllowsTCP(live[p.iif], p.addr, p.port) || (p.addr == Some([172, 16, subnet, 1]) && p.port == 8080))
    ensures p.proto == UDP ==>
              (Eval(FORWARD, SetsOf(live), p) == Accept <==> p.addr == Some([172, 16, subnet, 1]) && p.port == 53)
    ensures p.proto == OtherProto ==> Eval(FORWARD, SetsOf(live), p) == Drop
  {
    ChainMeetsPolicy(live, p);
    IssuedIsValid(base, p.iif, subnet);
  }

  /** The proxy port is open to every VM, but the contract grants it, like any port, only when it is listed; and it
      grants no port on any address but the VM's own gateway. */
  lemma ProxyPortIsNotImplied(live: Live, p: Packet, base: Config, subnet: nat)
    requires LiveOk(live) && p.iif in live && subnet < 256 && live[p.iif] == Issued(base, p.iif, subnet)
    requires !p.tracked && p.proto == TCP
    ensures p.addr == Some([172, 16, subnet, 1]) && p.port == 8080 ==>
              && Eval(FORWARD, SetsOf(live), p) == Accept
              && (AllowsTCP(live[p.iif], p.addr, p.port) <==> 8080 in base.allowedPorts)
    ensures p.addr != Some([172, 16, subnet, 1]) ==>
              Eval(FORWARD, SetsOf(live), p) == Drop && !AllowsTCP(live[p.iif], p.addr, p.port)
  {
    NewConnections(live, p, base, subnet);
    IssuedIsValid(base, p.iif, subnet);
  }

  /** The metadata address is out of every VM's reach, on known connections too; other traffic is not filtered. */
  lemma MetadataIsBlocked(live: Live, p: Packet)
    requires LiveOk(live)
    ensures p.iif in live && p.addr == Some([169, 254, 169, 254]) ==> Eval(FORWARD, SetsOf(live), p) == Drop
    ensures p.iif in live && p.addr != Some([169, 254, 169, 254]) && p.tracked ==>
              Eval(FORWARD, SetsOf(live), p) == Accept
    ensures p.iif !in live ==> Eval(FORWARD, SetsOf(live), p) == Accept
  {
    ChainMeetsPolicy(live, p);
  }

  // ---- setups and cleanups ----

  /** The nft table: absent until the first setup, then the shared sets. */
  type Nft = Option<Sets>

  /** The verdict on a forwarded packet: before the first setup there is no chain to drop it. */
  function Filter(n: Nft, p: Packet): Verdict {
    if n.None? then Accept else Eval(FORWARD, n.value, p)
  }

  /** SetupFirewall; the flags are the answers of the two nft runs. */
  function SetUpVM(n: Nft, c: Config, baseOk: bool, addOk: bool): (r: (Nft, bool)) {
    if !ValidNftConfig(c) then (n, false)
    else if n.None? && !baseOk then (n, false)
    else
      var s: Sets := if n.None? then {} else n.value;
      if addOk then (Some(Added(s, Elements(c))), true) else (Some(s), false)
  }

  /** CleanupFirewall; besides a host failure, nft refuses a delete that names a missing element. */
  function CleanVM(n: Nft, c: Config, hostOk: bool): (r: (Nft, bool)) {
    if !ValidNftConfig(c) || !hostOk || n.None? then (n, false)
    else match Deleted(n.value, Elements(c))
      case None => (n, false)
      case Some(s) => (Some(s), true)
  }

  class Firewalls {
    var nft: Nft

    constructor ()
      ensures nft == None
    {
      nft := None;
    }

    method SetupFirewall(c: Config, baseOk: bool, addOk: bool) returns (ok: bool)
      modifies this
      ensures (nft, ok) == SetUpVM(old(nft), c, baseOk, addOk)
    {
      if !ValidNftConfig(c) { return false; }
      if nft.None? {
        if !baseOk { return false; }
        nft := Some({});
      }
      var es := VMElements(c);
      if !addOk { return false; }
      nft := Some(nft.value + Elems(es));
      return true;
    }

    method CleanupFirewall(c: Config, hostOk: bool) returns (ok: bool)
      modifies this
      ensures (nft, ok) == CleanVM(old(nft), c, hostOk)
    {
      if !ValidNftConfig(c) { return false; }
      var es := VMElements(c);
      if !hostOk || nft.None? { return false; }
      var s := nft.value;
      var i := 0;
      assert es[0..] == es;
      while i < |es|
        invariant 0 <= i <= |es| && nft == old(nft)
        invariant Deleted(s, es[i..]) == Deleted(nft.value, es)
      {
        if es[i] !in s { return false; }
        s := s - {es[i]};
        assert es[i..][1..] == es[i + 1..];
        i := i + 1;
      }
      nft := Some(s);
      return true;
    }
  }

  /** One call, with the host's answers. */
  datatype Op = Setup(c: Config, baseOk: bool, addOk: bool) | Cleanup(c: Config, hostOk: bool)

  datatype State = State(nft: Nft, live: Live)

  function Apply(st: State, op: Op): (r: State) {
    match op
    case Setup(c, baseOk, addOk) =>
      var (n, ok) := SetUpVM(st.nft, c, baseOk, addOk);
      State(n, if ok then st.live[c.tapName := c] else st.live)
    case Cleanup(c, hostOk) =>
      var (n, ok) := CleanVM(st.nft, c, hostOk);
      State(n, if ok then st.live - {c.tapName} else st.live)
  }

  function ApplyAll(st: State, ops: seq<Op>): (r: State) {
    if ops == [] then st else Apply(ApplyAll(st, ops[..|ops| - 1]), ops[|ops| - 1])
  }

  /** The caller sets up TAPs that are not in use and cleans up with the configuration it set up. */
  ghost predicate Proper(st: State, op: Op) {
    match op
    case Setup(c, _, _) => c.tapName !in st.live
    case Cleanup(c, _) => c.tapName in st.live && st.live[c.tapName] == c
  }

  ghost predicate AllProper(st: State, ops: seq<Op>) {
    forall k :: 0 <= k < |ops| ==> Proper(ApplyAll(st, ops[..k]), ops[k])
  }

  ghost predicate Consistent(st: State) {
    && LiveOk(st.live)
    && (if st.nft.None? then st.live == map[] else st.nft.value == SetsOf(st.live))
    && (forall t :: t in st.live ==> ValidNftConfig(st.live[t]))
  }

  lemma SetsGrow(live: Live, c: Config)
    requires LiveOk(live) && c.tapName !in live && ParseIP(c.hostIP).Some?
    ensures LiveOk(live[c.tapName := c])
    ensures SetsOf(live[c.tapName := c]) == SetsOf(live) + Elems(Elements(c))
  {
    var live' := live[c.tapName := c];
    forall x ensures x in SetsOf(live') <==> x in SetsOf(live) + Elems(Elements(c)) {
      SetsOfMember(live, x);
      SetsOfMember(live', x);
      ElementsAre(c, x);
    }
  }

  lemma SetsShrink(live: Live, c: Config)
    requires LiveOk(live) && c.tapName in live && live[c.tapName] == c
    ensures LiveOk(live - {c.tapName})
    ensures SetsOf(live - {c.tapName}) == SetsOf(live) - Elems(Elements(c))
    ensures Elems(Elements(c)) <= SetsOf(live)
  {
    var live' := live - {c.tapName};
    forall x ensures x in SetsOf(live') <==> x in SetsOf(live) - Elems(Elements(c)) {
      SetsOfMember(live, x);
      SetsOfMember(live', x);
      ElementsAre(c, x);
    }
  }

  lemma ApplyKeeps(st: State, op: Op)
    requires Consistent(st) && Proper(st, op)
    ensures Consistent(Apply(st, op))
  {
    match op
    case Setup(c, _, _) => if ValidNftConfig(c) { SetsGrow(st.live, c); }
    case Cleanup(c, _) =>
      SetsShrink(st.live, c);
      if st.nft.Some? { DeleteSucceeds(st.nft.value, Elements(c)); }
  }

  lemma FilterMeetsPolicy(st: State, p: Packet)
    requires Consistent(st)
    ensures Filter(st.nft, p) == Policy(st.live, p)
  {
    ChainMeetsPolicy(st.live, p);
  }

  /** After any proper sequence of setups and cleanups, failed ones included, the three shared sets are exactly the
      union of the live VMs' elements, so every packet gets the verdict of the per-VM policy. */
  lemma {:induction false} SharedSetsAreTheUnion(ops: seq<Op>, p: Packet)
    requires AllProper(State(None, map[]), ops)
    ensures var st := ApplyAll(State(None, map[]), ops);
            Consistent(st) && Filter(st.nft, p) == Policy(st.live, p)
    decreases |ops|
  {
    var st0 := State(None, map[]);
    if ops != [] {
      var init := ops[..|ops| - 1];
      assert forall k :: 0 <= k < |init| ==> ops[..k] == init[..k] && ops[k] == init[k];
      SharedSetsAreTheUnion(init, p);
      ApplyKeeps(ApplyAll(st0, init), ops[|ops| - 1]);
    }
    FilterMeetsPolicy(ApplyAll(st0, ops), p);
  }

  /** Setting up succeeds exactly when the configuration is valid, the table is there or can be made, and the host adds
      the elements. It then puts the VM beside those already live, under its own policy; a failure leaves the sets, and
      so every verdict, as they were. */
  lemma SetUpSucceedsWhen(st: State, c: Config, baseOk: bool, addOk: bool)
    requires Consistent(st) && c.tapName !in st.live
    ensures var st' := Apply(st, Setup(c, baseOk, addOk));
            && (SetUpVM(st.nft, c, baseOk, addOk).1 <==> ValidNftConfig(c) && (st.nft.Some? || baseOk) && addOk)
            && (SetUpVM(st.nft, c, baseOk, addOk).1 ==>
                  && st'.live == st.live[c.tapName := c] && st'.nft.Some?
                  && st'.nft.value == (if st.nft.Some? then st.nft.value else {}) + Elems(Elements(c))
                  && (forall p: Packet :: Filter(st'.nft, p) == Policy(st'.live, p)))
            && (!SetUpVM(st.nft, c, baseOk, addOk).1 ==>
                  st'.live == st.live && forall p: Packet :: Filter(st'.nft, p) == Filter(st.nft, p))
  {
    var op := Setup(c, baseOk, addOk);
    ApplyKeeps(st, op);
    forall p: Packet ensures Filter(st.nft, p) == Policy(st.live, p) { FilterMeetsPolicy(st, p); }
    forall p: Packet ensures Filter(Apply(st, op).nft, p) == Policy(Apply(st, op).live, p) {
      FilterMeetsPolicy(Apply(st, op), p);
    }
  }

  /** Cleaning up a live VM succeeds exactly when the host does its part and the VM's ports other than 8080 are
      distinct: nft refuses to delete the same element twice. */
  lemma CleanupSucceedsWhen(st: State, c: Config, hostOk: bool)
    requires Consistent(st) && c.tapName in st.live && st.live[c.tapName] == c
    ensures CleanVM(st.nft, c, hostOk).1 <==> hostOk && NoDup(OtherPorts(c.allowedPorts))
    ensures CleanVM(st.nft, c, hostOk).1 ==> Apply(st, Cleanup(c, hostOk)).live == st.live - {c.tapName}
  {
    SetsShrink(st.live, c);
    if st.nft.Some? {
      DeleteSucceeds(st.nft.value, Elements(c));
      ElementsDistinct(c);
    }
  }

  lemma PolicyIsPerVM(live: Live, live': Live, p: Packet)
    requires LiveOk(live) && LiveOk(live')
    requires (p.iif in live <==> p.iif in live') && (p.iif in live ==> live'[p.iif] == live[p.iif])
    ensures Policy(live', p) == Policy(live, p)
  {
  }

  lemma OthersStayLive(st: State, op: Op, t: string)
    requires t != op.c.tapName
    ensures t in Apply(st, op).live <==> t in st.live
    ensures t in st.live ==> Apply(st, op).live[t] == st.live[t]
  {
  }

  /** A setup or cleanup never changes the verdict on a packet from another VM's TAP, or from any other interface. */
  lemma OtherVMsUnaffected(st: State, op: Op, p: Packet)
    requires Consistent(st) && Proper(st, op) && p.iif != op.c.tapName
    ensures Filter(Apply(st, op).nft, p) == Filter(st.nft, p)
  {
    ApplyKeeps(st, op);
    OthersStayLive(st, op, p.iif);
    FilterMeetsPolicy(st, p);
    FilterMeetsPolicy(Apply(st, op), p);
    PolicyIsPerVM(st.live, Apply(st, op).live, p);
  }

  lemma RepeatedPorts()
    ensures OtherPorts([443, 443]) == [443, 443] && !NoDup([443, 443])
  {
    assert [443, 443][..1] == [443];
    assert [443][..0] == [];
    assert OtherPorts([443]) == [443];
    var s := [443, 443];
    assert s[0] == s[1];
  }

  /** A repeated port passes validation and setup, and then no cleanup ever succeeds. */
  lemma RepeatedPortBlocksCleanup(subnet: nat, hostOk: bool)
    requires subnet < 256
    ensures var c := Issued(Config("", "", "", [443, 443], "eth0"), "shy0", subnet);
            ValidNftConfig(c) && SetUpVM(None, c, true, true).1 && !CleanVM(SetUpVM(None, c, true, true).0, c, hostOk).1
  {
    var base := Config("", "", "", [443, 443], "eth0");
    var c := Issued(base, "shy0", subnet);
    IssuedIsValid(base, "shy0", subnet);
    assert ValidNftConfig(c);
    var st := State(None, map[]);
    ApplyKeeps(st, Setup(c, true, true));
    CleanupSucceedsWhen(Apply(st, Setup(c, true, true)), c, hostOk);
    RepeatedPorts();
  }
}
