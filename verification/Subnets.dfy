/** IPv4 address blocks, the choice of two free ones
    (infra/monitoring/notification_drill.py) and the check that a block is not
    in use (infra/docker/qualification_network.py). */
module Subnets {
  import opened LlmTypes

  const ADDRESSES: nat := 0x1_0000_0000

  type Prefix = p: nat | p <= 32

  function Size(p: Prefix): (n: nat)
    ensures n > 0
    decreases 32 - p
  {
    if p == 32 then 1 else 2 * Size(p + 1)
  }

  /** The multiple of `s` at or below `a`. */
  function Floor(a: nat, s: nat): (m: nat)
    requires s > 0
    ensures m <= a < m + s
  {
    a - a % s
  }

  /** `address & netmask`. */
  function Mask(address: nat, p: Prefix): nat {
    Floor(address, Size(p))
  }

  datatype Block = Block(base: nat, prefix: Prefix) {
    predicate Aligned() { base == Mask(base, prefix) }

    /** The address lies in the range of the block. */
    predicate Has(address: nat) { base <= address < base + Size(prefix) }

    function Last(): nat { base + Size(prefix) - 1 }

    /** The membership test of the library: compare masked addresses. */
    predicate Contains(address: nat) { Mask(address, prefix) == base }

    predicate SubnetOf(other: Block) { other.base <= base && Last() <= other.Last() }

    /** The overlap test of the library: one end of one lies in the other. */
    predicate Overlaps(other: Block) {
      || other.Contains(base) || other.Contains(Last())
      || Contains(other.base) || Contains(other.Last())
    }

    ghost predicate Shares(other: Block) { exists a: nat :: Has(a) && other.Has(a) }
  }

  lemma SmallMultiple(s: nat, x: int)
    requires s * x < s
    ensures x <= 0
  {
  }

  lemma {:induction false} Multiple(u: nat, v: nat, s: nat)
    requires s > 0 && u % s == 0 && v % s == 0 && u < v + s
    ensures u <= v
  {
    var x, y := u / s, v / s;
    assert u == s * x && v == s * y;
    assert s * (x - y) < s;
    SmallMultiple(s, x - y);
    assert u - v == s * (x - y);
  }

  lemma {:induction false} MaskIsMembership(b: Block, a: nat)
    requires b.Aligned()
    ensures b.Contains(a) <==> b.Has(a)
  {
    FloorIsRange(b.base, a, Size(b.prefix));
  }

  lemma {:induction false} FloorIsRange(base: nat, a: nat, s: nat)
    requires s > 0 && Floor(base, s) == base
    ensures Floor(a, s) == base <==> base <= a < base + s
  {
    if base <= a < base + s {
      assert a == s * (base / s) + (a - base);
      Remainder(base / s, a - base, s);
    }
  }

  lemma Remainder(q: nat, d: nat, s: nat)
    requires d < s
    ensures (s * q + d) % s == d
  {
    var t := s * q + d;
    var x, r := t / s, t % s;
    assert t == s * x + r;
    assert s * (x - q) == d - r && s * (q - x) == r - d;
    SmallMultiple(s, x - q);
    SmallMultiple(s, q - x);
  }

  lemma {:induction false} MaskAligns(address: nat, p: Prefix)
    ensures Block(Mask(address, p), p).Aligned()
    ensures Block(Mask(address, p), p).Has(address)
  {
    var s := Size(p);
    assert Floor(address, s) == s * (address / s) + 0;
    Remainder(address / s, 0, s);
  }

  lemma {:induction false} WholeTimes(q: Prefix, p: Prefix) returns (k: nat)
    requires q <= p
    ensures k > 0 && Size(q) == k * Size(p)
    decreases p - q
  {
    if q == p {
      k := 1;
    } else {
      var half := WholeTimes(q + 1, p);
      k := 2 * half;
      Doubled(half, Size(p));
    }
  }

  lemma Doubled(k: nat, s: nat)
    ensures 2 * (k * s) == (2 * k) * s
  {
  }

  lemma Divides(x: nat, s: nat, k: nat)
    requires s > 0 && k > 0 && x % (k * s) == 0
    ensures x % s == 0
  {
    var q := x / (k * s);
    assert x == (k * s) * q == s * (k * q) + 0;
    Remainder(k * q, 0, s);
  }

  lemma MultipleSum(x: nat, s: nat, k: nat)
    requires s > 0 && x % s == 0
    ensures (x + k * s) % s == 0
  {
    assert x + k * s == s * (x / s + k) + 0;
    Remainder(x / s + k, 0, s);
  }

  /** RFC 4632, section 3.1: the smaller of two aligned blocks with a common
      address lies inside the larger. */
  lemma {:induction false} NestedOrDisjoint(small: Block, large: Block)
    requires small.Aligned() && large.Aligned() && large.prefix <= small.prefix && small.Shares(large)
    ensures small.SubnetOf(large)
  {
    var k := WholeTimes(large.prefix, small.prefix);
    var s := Size(small.prefix);
    Divides(large.base, s, k);
    MultipleSum(large.base, s, k);
    MultipleSum(small.base, s, 1);
    Multiple(large.base, small.base, s);
    Multiple(small.base + s, large.base + k * s, s);
  }

  /** The four membership tests find every common address. */
  lemma {:induction false} OverlapsIffShares(x: Block, y: Block)
    requires x.Aligned() && y.Aligned()
    ensures x.Overlaps(y) <==> x.Shares(y)
    ensures x.Shares(y) ==> x.SubnetOf(y) || y.SubnetOf(x)
  {
    forall a: nat
      ensures x.Contains(a) <==> x.Has(a)
      ensures y.Contains(a) <==> y.Has(a)
    {
      MaskIsMembership(x, a);
      MaskIsMembership(y, a);
    }
    hide Mask, Size;
    if x.Shares(y) {
      if y.prefix <= x.prefix { NestedOrDisjoint(x, y); } else { NestedOrDisjoint(y, x); }
    }
    if x.Overlaps(y) {
      assert x.Has(x.base) && x.Has(x.Last()) && y.Has(y.base) && y.Has(y.Last());
    }
  }

  // -------------------------------------------------------------- inventory

  /** What the address library reads out of a text. `plain` says that the text
      is the library's own spelling of the block. */
  datatype Network = V4(address: nat, prefix: Prefix, plain: bool) | V6 | Malformed

  datatype Allocation = Blank | Subnet(text: Network)

  datatype Ipam = NoIpam | NoConfig | Null | Config(allocations: seq<Allocation>)

  /** One inspected network. A missing flag reads as set, a missing map as empty. */
  datatype DockerNetwork = DockerNetwork(id: string, name: string, driver: string, scope: string,
    isInternal: bool, ipv6: bool, labels: map<string, string>, options: map<string, string>, ipam: Ipam)

  datatype Destination = NoDestination | Default | To(text: Network)

  datatype Route = Route(dst: Destination, dev: Option<string>)

  /** The block of a text read without insisting on zero host bits. */
  function Masked(t: Network): (b: Block)
    requires t.V4?
    ensures b.Aligned() && b.Has(t.address)
  {
    MaskAligns(t.address, t.prefix);
    Block(Mask(t.address, t.prefix), t.prefix)
  }

  predicate Allocates(networks: seq<DockerNetwork>, t: Network) {
    exists n, i :: n in networks && n.ipam.Config? && 0 <= i < |n.ipam.allocations|
      && n.ipam.allocations[i] == Subnet(t)
  }

  predicate Routes(routes: seq<Route>, t: Network) {
    exists r :: r in routes && r.dst == To(t)
  }

  /** Some allocation or route covers the address. */
  ghost predicate Claimed(networks: seq<DockerNetwork>, routes: seq<Route>, a: nat) {
    exists t: Network :: (Allocates(networks, t) || Routes(routes, t)) && t.V4? && Masked(t).Has(a)
  }

  // ---------------------------------------------------------- choose_subnets

  const CANDIDATES: nat := 256

  /** The i-th /28 of 10.254.240.0/20. */
  function Candidate(i: nat): (b: Block)
    ensures b.Aligned() && Size(b.prefix) == 16
    ensures b.base == ((10 * 256 + 254) * 256 + 240) * 256 + 16 * i && b.prefix == 28
  {
    Block(184479744 + 16 * i, 28)
  }

  ghost predicate Free(networks: seq<DockerNetwork>, routes: seq<Route>, i: nat) {
    forall a: nat :: Candidate(i).Has(a) ==> !Claimed(networks, routes, a)
  }

  datatype Choice = Pair(first: Block, second: Block) | NoFreePair | Unread

  predicate Clear(occupied: seq<Network>, b: Block) {
    forall t <- occupied :: t.V4? ==> !b.Overlaps(Masked(t))
  }

  lemma ClearIffFree(networks: seq<DockerNetwork>, routes: seq<Route>, occupied: seq<Network>, i: nat)
    requires forall t :: t in occupied <==> Allocates(networks, t) || Routes(routes, t)
    ensures Clear(occupied, Candidate(i)) <==> Free(networks, routes, i)
  {
    var b := Candidate(i);
    forall t | t in occupied && t.V4?
      ensures b.Overlaps(Masked(t)) <==> b.Shares(Masked(t))
    {
      OverlapsIffShares(b, Masked(t));
    }
  }

  method ReadAllocations(networks: seq<DockerNetwork>) returns (ok: bool, occupied: seq<Network>)
    ensures !ok <==> Allocates(networks, Malformed) || exists n :: n in networks && n.ipam.NoIpam?
    ensures ok ==> forall t :: t in occupied <==> Allocates(networks, t)
  {
    occupied := [];
    for k := 0 to |networks|
      invariant forall t :: t in occupied <==> Allocates(networks[..k], t)
      invariant Malformed !in occupied
      invariant forall n :: n in networks[..k] ==> !n.ipam.NoIpam?
    {
      var network := networks[k];
      assert networks[..k + 1] == networks[..k] + [network];
      if network.ipam.NoIpam? { return false, []; }
      if network.ipam.Config? {
        var allocations := network.ipam.allocations;
        for i := 0 to |allocations|
          invariant forall t :: t in occupied <==>
                    Allocates(networks[..k], t) || exists j :: 0 <= j < i && allocations[j] == Subnet(t)
          invariant Malformed !in occupied
        {
          if allocations[i].Subnet? {
            if allocations[i].text.Malformed? {
              assert Allocates(networks, Malformed);
              return false, [];
            }
            occupied := occupied + [allocations[i].text];
          }
        }
      }
    }
    assert networks[..|networks|] == networks;
    ok := true;
  }

  method ReadRoutes(routes: seq<Route>) returns (ok: bool, occupied: seq<Network>)
    ensures !ok <==> Routes(routes, Malformed)
    ensures ok ==> forall t :: t in occupied <==> Routes(routes, t)
  {
    occupied := [];
    for k := 0 to |routes|
      invariant forall t :: t in occupied <==> Routes(routes[..k], t)
      invariant Malformed !in occupied
    {
      assert routes[..k + 1] == routes[..k] + [routes[k]];
      if routes[k].dst.To? {
        if routes[k].dst.text.Malformed? {
          assert Routes(routes, Malformed);
          return false, [];
        }
        occupied := occupied + [routes[k].dst.text];
      }
    }
    assert routes[..|routes|] == routes;
    ok := true;
  }

  lemma MalformedExactly(networks: seq<DockerNetwork>, routes: seq<Route>)
    ensures Allocates(networks, Malformed) <==>
            exists n <- networks :: n.ipam.Config? && Subnet(Malformed) in n.ipam.allocations
    ensures Routes(routes, Malformed) <==> exists r <- routes :: r.dst == To(Malformed)
  {
  }

  /** First fit: the two lowest candidates without a claimed address, and a
      failure exactly when fewer than two are left. */
  method ChooseSubnets(networks: seq<DockerNetwork>, routes: seq<Route>) returns (c: Choice)
    ensures c.Unread? <==>
            || (exists n <- networks :: n.ipam.NoIpam?)
            || (exists n <- networks :: n.ipam.Config? && Subnet(Malformed) in n.ipam.allocations)
            || (exists r <- routes :: r.dst == To(Malformed))
    ensures c.Pair? ==> exists i, j ::
      && 0 <= i < j < CANDIDATES && c == Pair(Candidate(i), Candidate(j))
      && Free(networks, routes, i) && Free(networks, routes, j)
      && forall k :: 0 <= k < j && k != i ==> !Free(networks, routes, k)
    ensures c.NoFreePair? ==> forall i, j :: 0 <= i < j < CANDIDATES ==>
            !Free(networks, routes, i) || !Free(networks, routes, j)
  {
    hide Allocates, Routes, Claimed, Masked, Clear, Free;
    MalformedExactly(networks, routes);
    var ok, occupied := ReadAllocations(networks);
    if !ok { return Unread; }
    var routed;
    ok, routed := ReadRoutes(routes);
    if !ok { return Unread; }
    occupied := occupied + routed;
    var selected := [];
    ghost var indices := [];
    for i := 0 to CANDIDATES
      invariant |selected| < 2 && |indices| == |selected|
      invariant forall k :: 0 <= k < i && k !in indices ==> !Free(networks, routes, k)
      invariant |selected| == 1 ==>
                0 <= indices[0] < i && selected[0] == Candidate(indices[0]) && Free(networks, routes, indices[0])
    {
      ClearIffFree(networks, routes, occupied, i);
      if Clear(occupied, Candidate(i)) {
        selected := selected + [Candidate(i)];
        indices := indices + [i];
        if |selected| == 2 {
          return Pair(selected[0], selected[1]);
        }
      }
    }
    return NoFreePair;
  }

  // ---------------------------------------------------------------- topology

  predicate Private(b: Block) {
    || b.SubnetOf(Block(0x0A00_0000, 8))
    || b.SubnetOf(Block(0xAC10_0000, 12))
    || b.SubnetOf(Block(0xC0A8_0000, 16))
  }

  /** `subnet` accepts a private /28 in the library's spelling without host bits. */
  predicate ValidSubnet(value: Network) {
    && value.V4? && value.prefix == 28 && value.plain
    && value.address == Mask(value.address, 28)
    && Private(Masked(value))
  }

  datatype Verdict = Accepted | BadSubnet | Overlap | Invalid

  predicate Ours(owned: Option<string>, id: string) {
    owned.Some? && owned.value == id
  }

  /** A route of the owned network's own bridge, inside the selected block. */
  predicate OwnRoute(owned: Option<string>, r: Route, selected: Block) {
    && owned.Some? && r.dev.Some? && r.dst.To? && r.dst.text.V4?
    && r.dev.value == "br-" + (if |owned.value| > 12 then owned.value[..12] else owned.value)
    && Masked(r.dst.text).SubnetOf(selected)
  }

  /** An allocation list the check can read. */
  predicate Readable(ipam: Ipam) {
    ipam.Null? || (ipam.Config? && forall x <- ipam.allocations :: x.Subnet? && !x.text.Malformed?)
  }

  /** The route of a readable table: the default route or an IPv4 block. */
  predicate ReadableRoute(r: Route) {
    r.dst.Default? || (r.dst.To? && r.dst.text.V4?)
  }

  /** No foreign allocation of the network shares an address with `selected`. */
  ghost predicate KeepsClear(ipam: Ipam, selected: Block) {
    ipam.Config? ==> forall x <- ipam.allocations :: x.Subnet? && x.text.V4? ==> !selected.Shares(Masked(x.text))
  }

  ghost predicate RouteKeepsClear(owned: Option<string>, r: Route, selected: Block) {
    r.dst.To? && r.dst.text.V4? && !OwnRoute(owned, r, selected) ==> !selected.Shares(Masked(r.dst.text))
  }

  method CheckNetwork(selected: Block, ipam: Ipam) returns (v: Verdict)
    requires selected.Aligned()
    ensures v.Accepted? <==> Readable(ipam) && KeepsClear(ipam, selected)
    ensures v.Overlap? ==> !KeepsClear(ipam, selected)
    ensures v.Invalid? ==> !Readable(ipam)
    ensures !v.BadSubnet?
  {
    if !ipam.Config? && !ipam.Null? { return Invalid; }
    if ipam.Config? {
      for i := 0 to |ipam.allocations|
        invariant forall x <- ipam.allocations[..i] :: x.Subnet? && !x.text.Malformed?
        invariant forall x <- ipam.allocations[..i] :: x.Subnet? && x.text.V4? ==> !selected.Shares(Masked(x.text))
      {
        var x := ipam.allocations[i];
        assert x in ipam.allocations;
        assert ipam.allocations[..i + 1] == ipam.allocations[..i] + [x];
        if x.Blank? || x.text.Malformed? { return Invalid; }
        if x.text.V4? {
          OverlapsIffShares(selected, Masked(x.text));
          if selected.Overlaps(Masked(x.text)) { return Overlap; }
        }
      }
      assert ipam.allocations[..|ipam.allocations|] == ipam.allocations;
    }
    return Accepted;
  }

  method CheckRoute(selected: Block, r: Route, owned: Option<string>) returns (v: Verdict)
    requires selected.Aligned()
    ensures v.Accepted? <==> ReadableRoute(r) && RouteKeepsClear(owned, r, selected)
    ensures v.Overlap? ==> !RouteKeepsClear(owned, r, selected)
    ensures v.Invalid? ==> !ReadableRoute(r)
    ensures !v.BadSubnet?
  {
    if r.dst.NoDestination? { return Invalid; }
    if r.dst.Default? { return Accepted; }
    if !r.dst.text.V4? { return Invalid; }
    OverlapsIffShares(selected, Masked(r.dst.text));
    if OwnRoute(owned, r, selected) { return Accepted; }
    return if selected.Overlaps(Masked(r.dst.text)) then Overlap else Accepted;
  }

  /** A block passes exactly when the inventory is readable and no foreign
      allocation or route shares an address with it. */
  method Topology(value: Network, networks: seq<DockerNetwork>, routes: seq<Route>, owned: Option<string>)
    returns (v: Verdict)
    ensures v.BadSubnet? <==> !ValidSubnet(value)
    ensures v.Accepted? <==> Admits(value, networks, routes, owned)
    ensures v.Overlap? ==>
      || (exists n <- networks :: !Ours(owned, n.id) && !KeepsClear(n.ipam, Masked(value)))
      || (exists r <- routes :: !RouteKeepsClear(owned, r, Masked(value)))
    ensures v.Invalid? ==>
      || (exists n <- networks :: !Ours(owned, n.id) && !Readable(n.ipam))
      || (exists r <- routes :: !ReadableRoute(r))
  {
    if !ValidSubnet(value) { return BadSubnet; }
    var selected := Masked(value);
    hide Readable, KeepsClear, ReadableRoute, RouteKeepsClear, Masked, ValidSubnet;
    for k := 0 to |networks|
      invariant forall n <- networks[..k] :: !Ours(owned, n.id) ==> Readable(n.ipam) && KeepsClear(n.ipam, selected)
    {
      assert networks[..k + 1] == networks[..k] + [networks[k]];
      assert networks[k] in networks;
      if !Ours(owned, networks[k].id) {
        v := CheckNetwork(selected, networks[k].ipam);
        if !v.Accepted? { return; }
      }
    }
    for k := 0 to |routes|
      invariant forall r <- routes[..k] :: ReadableRoute(r) && RouteKeepsClear(owned, r, selected)
    {
      assert routes[..k + 1] == routes[..k] + [routes[k]];
      assert routes[k] in routes;
      v := CheckRoute(selected, routes[k], owned);
      if !v.Accepted? { return; }
    }
    assert networks[..|networks|] == networks && routes[..|routes|] == routes;
    return Accepted;
  }

  ghost predicate Admits(value: Network, networks: seq<DockerNetwork>, routes: seq<Route>, owned: Option<string>) {
    && ValidSubnet(value)
    && (forall n <- networks :: !Ours(owned, n.id) ==> Readable(n.ipam) && KeepsClear(n.ipam, Masked(value)))
    && (forall r <- routes :: ReadableRoute(r) && RouteKeepsClear(owned, r, Masked(value)))
  }

  lemma CandidateIsValid(i: nat)
    requires i < CANDIDATES
    ensures var value := V4(Candidate(i).base, 28, true); ValidSubnet(value) && Masked(value) == Candidate(i)
  {
    assert Size(24) == 256 && Size(16) == 256 * 256 && Size(8) == 256 * 256 * 256;
    assert Candidate(i).SubnetOf(Block(0x0A00_0000, 8));
  }

  /** Before the network exists, a free candidate is exactly one that the
      continuity check admits over the same readable inventory. */
  lemma FreeIffAdmitted(networks: seq<DockerNetwork>, routes: seq<Route>, i: nat)
    requires i < CANDIDATES
    requires (forall n <- networks :: Readable(n.ipam)) && (forall r <- routes :: ReadableRoute(r))
    ensures Free(networks, routes, i) <==> Admits(V4(Candidate(i).base, 28, true), networks, routes, None)
  {
    var value := V4(Candidate(i).base, 28, true);
    CandidateIsValid(i);
    hide Masked, Candidate, ValidSubnet, Mask;
    if Free(networks, routes, i) {
      forall n | n in networks
        ensures KeepsClear(n.ipam, Masked(value))
      {
        if n.ipam.Config? {
          forall x | x in n.ipam.allocations && x.Subnet? && x.text.V4?
            ensures !Masked(value).Shares(Masked(x.text))
          {
            assert Allocates(networks, x.text);
          }
        }
      }
      forall r | r in routes && r.dst.To?
        ensures RouteKeepsClear(None, r, Masked(value))
      {
        assert Routes(routes, r.dst.text);
      }
    }
  }

  // ------------------------------------------------- in terms of addresses

  /** How many addresses the blocks in question have. */
  lemma {:induction false} SizeExactly(p: Prefix)
    ensures p == 32 ==> Size(p) == 1
    ensures p == 28 ==> Size(p) == 16
    ensures p == 16 ==> Size(p) == 0x1_0000
    ensures p == 12 ==> Size(p) == 0x10_0000
    ensures p == 8 ==> Size(p) == 0x100_0000
    ensures p == 0 ==> Size(p) == ADDRESSES
  {
    assert Size(28) == 16 && Size(24) == 256 && Size(20) == 4096 && Size(16) == 0x1_0000;
    assert Size(12) == 0x10_0000 && Size(8) == 0x100_0000 && Size(4) == 0x1000_0000 && Size(0) == ADDRESSES;
  }

  /** An accepted block: sixteen addresses on a boundary of sixteen, within one
      of the private ranges of RFC 1918, section 3. */
  lemma ValidSubnetExactly(value: Network)
    ensures ValidSubnet(value) <==>
      && value.V4? && value.prefix == 28 && value.plain && value.address % 16 == 0
      && (|| 0x0A00_0000 <= value.address < 0x0B00_0000
          || 0xAC10_0000 <= value.address < 0xAC20_0000
          || 0xC0A8_0000 <= value.address < 0xC0A9_0000)
  {
    SizeExactly(28);
    SizeExactly(16);
    SizeExactly(12);
    SizeExactly(8);
    hide Size;
  }

  /** The addresses a text stands for: those that agree with it in the first
      `prefix` bits. */
  ghost predicate Covers(t: Network, a: nat) {
    t.V4? && a / Size(t.prefix) == t.address / Size(t.prefix)
  }

  lemma CoversExactly(t: Network, a: nat)
    requires t.V4?
    ensures Masked(t).Has(a) <==> Covers(t, a)
  {
    var s := Size(t.prefix);
    hide Size;
    MaskIsMembership(Masked(t), a);
    SameFloor(a, t.address, s);
  }

  lemma SameFloor(a: nat, b: nat, s: nat)
    requires s > 0
    ensures Floor(a, s) == Floor(b, s) <==> a / s == b / s
  {
    FloorIs(a, s);
    FloorIs(b, s);
    hide Floor;
    SameFactor(s, a / s, b / s);
  }

  lemma FloorIs(a: nat, s: nat)
    requires s > 0
    ensures Floor(a, s) == s * (a / s)
  {
  }

  lemma SameFactor(s: nat, x: nat, y: nat)
    requires s > 0
    ensures s * x == s * y <==> x == y
  {
    if s * x == s * y {
      assert s * (x - y) == 0 && s * (y - x) == 0;
      SmallMultiple(s, x - y);
      SmallMultiple(s, y - x);
    }
  }

  /** One of the sixteen addresses of the block. */
  predicate InBlock(value: Network, a: nat)
    requires value.V4?
  {
    value.address <= a < value.address + 16
  }

  /** No address of the block is covered by the text. */
  ghost predicate Apart(value: Network, t: Network)
    requires value.V4?
  {
    forall a: nat :: InBlock(value, a) ==> !Covers(t, a)
  }

  /** A route of the owned network's bridge, which is named after the first
      twelve characters of its id, to nothing but addresses of the block. */
  ghost predicate OwnBridge(value: Network, r: Route, owned: Option<string>)
    requires value.V4?
  {
    && owned.Some? && r.dst.To? && r.dst.text.V4?
    && r.dev == Some("br-" + if |owned.value| <= 12 then owned.value else owned.value[..12])
    && forall a: nat :: Covers(r.dst.text, a) ==> InBlock(value, a)
  }

  /** A block is admitted exactly when every network but the owned one has a
      readable address management without an address of the block, and every
      route is the default one, the owned bridge's, or leads elsewhere. */
  lemma AdmitsExactly(value: Network, networks: seq<DockerNetwork>, routes: seq<Route>, owned: Option<string>)
    ensures Admits(value, networks, routes, owned) <==>
      && ValidSubnet(value)
      && (forall n <- networks :: n.ipam.Null? || n.ipam.Config? || owned == Some(n.id))
      && (forall n <- networks :: n.ipam.Config? && owned != Some(n.id) ==>
            forall x <- n.ipam.allocations :: x.Subnet? && !x.text.Malformed? && Apart(value, x.text))
      && (forall r <- routes :: r.dst.Default? || (r.dst.To? && r.dst.text.V4?))
      && (forall r <- routes :: r.dst.To? && r.dst.text.V4? && !OwnBridge(value, r, owned) ==>
            Apart(value, r.dst.text))
  {
    if ValidSubnet(value) {
      hide ValidSubnet, OwnRoute, OwnBridge, Masked, Apart;
      ValidIsV4(value);
      forall t: Network
        ensures t.V4? ==> (Masked(value).Shares(Masked(t)) <==> !Apart(value, t))
        ensures !t.V4? ==> Apart(value, t)
      {
        ApartExactly(value, t);
      }
      forall r: Route
        ensures OwnRoute(owned, r, Masked(value)) <==> OwnBridge(value, r, owned)
      {
        OwnExactly(value, r, owned);
      }
      hide Block.Shares;
    }
  }

  lemma ValidIsV4(value: Network)
    requires ValidSubnet(value)
    ensures value.V4?
  {
  }

  lemma BlockIs(value: Network)
    requires ValidSubnet(value)
    ensures forall a: nat :: Masked(value).Has(a) <==> InBlock(value, a)
    ensures Masked(value).base == value.address && Masked(value).Last() == value.address + 15
  {
    SizeExactly(28);
    hide Size;
  }

  lemma ApartExactly(value: Network, t: Network)
    requires ValidSubnet(value)
    ensures t.V4? ==> (Masked(value).Shares(Masked(t)) <==> !Apart(value, t))
    ensures !t.V4? ==> Apart(value, t)
  {
    BlockIs(value);
    hide ValidSubnet, Masked;
    if t.V4? {
      forall a: nat
        ensures Masked(t).Has(a) <==> Covers(t, a)
      {
        CoversExactly(t, a);
      }
      hide Block.Has, InBlock, Covers;
    }
  }

  lemma OwnExactly(value: Network, r: Route, owned: Option<string>)
    requires ValidSubnet(value)
    ensures OwnRoute(owned, r, Masked(value)) <==> OwnBridge(value, r, owned)
  {
    BlockIs(value);
    hide ValidSubnet, Masked;
    if r.dst.To? && r.dst.text.V4? {
      var b := Masked(r.dst.text);
      forall a: nat
        ensures b.Has(a) <==> Covers(r.dst.text, a)
      {
        CoversExactly(r.dst.text, a);
      }
      assert b.Has(b.base) && b.Has(b.Last());
      hide Covers, Size;
    }
  }
}
