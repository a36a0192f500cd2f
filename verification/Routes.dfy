/** The routes a tunnel claims, in their short form. */
module Routes {
  import opened Prefixes
  import opened Sorting

  datatype Option<+T> = None | Some(value: T)

  type Address = a: Addr | a.Valid() witness Addr(32, 0)
  type Block = p: Prefix | p.Valid() witness Prefix(Addr(32, 0), 0)
  type Net = p: Prefix | p.Canonical() witness Prefix(Addr(32, 0), 0)

  /** What discovery found; an entry that does not parse is None. */
  datatype Network = Network(
    podCidrs: seq<Option<Block>>, podIps: seq<Option<Address>>,
    serviceCidrs: seq<Option<Block>>, serviceIps: seq<Option<Address>>)

  function Mask(p: Block): (n: Net)
  {
    MaskedKeepsAddresses(p);
    p.Masked()
  }

  lemma HostHoldsOnlyItself(a: Address)
    ensures Host(a).Canonical() && forall b: Addr :: Host(a).Contains(b) <==> b == a
  {
    assert Pow2(0) == 1;
  }

  function HostNet(a: Address): (n: Net)
  {
    HostHoldsOnlyItself(a);
    Host(a)
  }

  /** The second block lies within the first. */
  predicate Covers(q: Net, p: Net) { q.addr.width == p.addr.width && q.bits <= p.bits && q.Contains(p.addr) }

  ghost predicate Holds(s: set<Net>, a: Addr) { exists p: Net :: p in s && p.Contains(a) }

  /** The blocks that lie within no other. */
  ghost function Outermost(s: set<Net>): set<Net> { set p | p in s && forall q :: q in s && Covers(q, p) ==> q == p }

  predicate BySize(p: Net, q: Net) {
    if p.addr.width != q.addr.width then p.addr.width < q.addr.width
    else if p.bits != q.bits then p.bits < q.bits
    else p.addr.value <= q.addr.value
  }

  lemma BySizeIsTotal()
    ensures TotalOrder(BySize)
  {
  }

  /** The text of a prefix, as a position in the order of strings. */
  ghost predicate Injective<T(!new)>(text: T -> real) { forall p, q :: text(p) == text(q) ==> p == q }

  function By<T(!new)>(text: T -> real): (T, T) -> bool { (p, q) => text(p) <= text(q) }

  lemma ByIsTotal<T(!new)>(text: T -> real)
    requires Injective(text)
    ensures TotalOrder(By(text))
  {
  }

  // ----- compaction -----

  /** The compacted form of a set of blocks. */
  ghost predicate Compacted(routes: seq<Net>, s: set<Net>, text: Net -> real) {
    Distinct(routes) && Sorted(routes, By(text)) && Elements(routes) == Outermost(s)
  }

  lemma CoversTransitive(r: Net, q: Net, p: Net)
    requires Covers(r, q) && Covers(q, p)
    ensures Covers(r, p)
  {
    ShorterSeesLess(r, q, p.addr);
  }

  /** Every block lies within an outermost one. */
  lemma {:induction false} Root(s: set<Net>, p: Net) returns (r: Net)
    requires p in s
    ensures r in Outermost(s) && Covers(r, p)
    decreases p.bits
  {
    r := p;
    if p !in Outermost(s) {
      var q :| q in s && Covers(q, p) && q != p;
      if q.bits == p.bits { CanonicalIsUnique(q, p); }
      r := Root(s, q);
      CoversTransitive(r, q, p);
    }
  }

  /** Compaction loses no address and adds none. */
  lemma Lossless(s: set<Net>, a: Addr)
    ensures Holds(s, a) <==> Holds(Outermost(s), a)
  {
    if Holds(s, a) {
      var p: Net :| p in s && p.Contains(a);
      var r := Root(s, p);
      ShorterSeesLess(r, p, a);
    }
  }

  /** No address is in two compacted blocks, so none of them can be left out. */
  lemma Irredundant(s: set<Net>, p: Net, q: Net, a: Addr)
    requires p in Outermost(s) && q in Outermost(s) && p.Contains(a) && q.Contains(a)
    ensures p == q
  {
    if p.bits <= q.bits { NestedOrDisjoint(p, q, a); } else { NestedOrDisjoint(q, p, a); }
  }

  /** Compacting a compacted set, or one written in another order, gives the same routes. */
  lemma CompactedIsCanonical(r: seq<Net>, t: seq<Net>, s: set<Net>, text: Net -> real)
    requires Injective(text) && Compacted(r, s, text) && (Compacted(t, s, text) || Compacted(t, Elements(r), text))
    ensures r == t
  {
    assert Outermost(Outermost(s)) == Outermost(s);
    SortedIsUnique(r, t, By(text));
  }

  predicate IsCovered(covering: seq<Net>, p: Net) {
    exists c | c in covering :: c.addr.width == p.addr.width && c.Contains(p.addr)
  }

  /** What a scan in order of size has kept so far, less the blocks of one address. */
  ghost predicate Covering(covering: seq<Net>, prefixes: seq<Net>, i: nat)
    requires i <= |prefixes|
  {
    forall p :: p in covering <==> p in Outermost(Elements(prefixes)) && p in prefixes[..i] && p.bits < p.addr.width
  }

  lemma EarlierIsShorter(prefixes: seq<Net>, i: nat, r: Net)
    requires Sorted(prefixes, BySize) && i < |prefixes| && r in prefixes
    ensures r in prefixes[..i] && r.addr.width == prefixes[i].addr.width ==> r.bits <= prefixes[i].bits
    ensures r.addr.width == prefixes[i].addr.width && r.bits < prefixes[i].bits ==> r in prefixes[..i]
  {
    var j :| 0 <= j < |prefixes| && prefixes[j] == r;
    assert j > i ==> BySize(prefixes[i], r);
    if r in prefixes[..i] {
      var k :| 0 <= k < i && prefixes[k] == r;
      assert BySize(r, prefixes[i]);
    }
  }

  /** Scanning in order of size, a block is covered exactly when it is not outermost. */
  lemma ScanDecides(prefixes: seq<Net>, i: nat, covering: seq<Net>)
    requires Sorted(prefixes, BySize) && Distinct(prefixes) && i < |prefixes| && Covering(covering, prefixes, i)
    ensures IsCovered(covering, prefixes[i]) <==> prefixes[i] !in Outermost(Elements(prefixes))
  {
    assert prefixes[i].bits <= prefixes[i].addr.width;
    hide Prefix.Contains, Prefix.Canonical, Prefix.Valid, Addr.Valid, BySize, Sorted;
    var s, p := Elements(prefixes), prefixes[i];
    if IsCovered(covering, p) {
      var c :| c in covering && c.addr.width == p.addr.width && c.Contains(p.addr);
      EarlierIsShorter(prefixes, i, c);
      assert Covers(c, p) && c in s && c != p;
    }
    if p !in Outermost(s) {
      var r := Root(s, p);
      if r.bits == p.bits { CanonicalIsUnique(r, p); }
      EarlierIsShorter(prefixes, i, r);
      assert r in covering;
    }
  }

  method CompactRoutes(keys: seq<Net>, text: Net -> real) returns (routes: seq<Net>)
    requires Distinct(keys) && Injective(text)
    ensures Compacted(routes, Elements(keys), text)
  {
    BySizeIsTotal();
    SortSorts(keys, BySize);
    var prefixes := Sort(keys, BySize);
    ghost var outermost := Outermost(Elements(keys));
    hide Outermost, Sort, IsCovered, BySize;
    var covering: seq<Net> := [];
    routes := [];
    for i := 0 to |prefixes|
      invariant Distinct(routes)
      invariant forall p :: p in routes <==> p in outermost && p in prefixes[..i]
      invariant forall p :: p in covering <==> p in routes && p.bits < p.addr.width
    {
      var prefix := prefixes[i];
      assert Covering(covering, prefixes, i);
      ScanDecides(prefixes, i, covering);
      assert prefixes[..i + 1] == prefixes[..i] + [prefix];
      if !IsCovered(covering, prefix) {
        routes := routes + [prefix];
        if prefix.bits < prefix.addr.width { covering := covering + [prefix]; }
      }
    }
    assert prefixes[..|prefixes|] == prefixes;
    assert forall p :: p in outermost ==> p in Elements(keys) by { OutermostIsPart(Elements(keys)); }
    assert Elements(routes) == outermost;
    SortSorts(routes, By(text));
    routes := Sort(routes, By(text));
  }

  lemma OutermostIsPart(s: set<Net>)
    ensures Outermost(s) <= s
  {
  }

  // ----- from what discovery found -----

  ghost predicate Parses(n: Network) {
    && None !in n.podCidrs && None !in n.podIps && None !in n.serviceCidrs
    && (n.serviceCidrs == [] ==> None !in n.serviceIps)
  }

  function FromCidr(c: Option<Block>): set<Net> { if c.Some? then {Mask(c.value)} else {} }
  function FromIp(a: Option<Address>): set<Net> { if a.Some? then {HostNet(a.value)} else {} }

  ghost function FromCidrs(cs: seq<Option<Block>>): set<Net> {
    if cs == [] then {} else FromCidrs(cs[..|cs| - 1]) + FromCidr(cs[|cs| - 1])
  }

  ghost function FromIps(ips: seq<Option<Address>>): set<Net> {
    if ips == [] then {} else FromIps(ips[..|ips| - 1]) + FromIp(ips[|ips| - 1])
  }

  lemma {:induction false} InFromCidrs(cs: seq<Option<Block>>, n: Net)
    ensures n in FromCidrs(cs) <==> exists c: Block :: Some(c) in cs && n == Mask(c)
  {
    if cs != [] {
      InFromCidrs(cs[..|cs| - 1], n);
      assert cs == cs[..|cs| - 1] + [cs[|cs| - 1]];
    }
  }

  lemma {:induction false} InFromIps(ips: seq<Option<Address>>, n: Net)
    ensures n in FromIps(ips) <==> exists a: Address :: Some(a) in ips && n == HostNet(a)
  {
    if ips != [] {
      InFromIps(ips[..|ips| - 1], n);
      assert ips == ips[..|ips| - 1] + [ips[|ips| - 1]];
    }
  }

  /** What the tunnel is for; the addresses of Services count only where their range is unknown. */
  ghost function Targets(n: Network): set<Net> {
    FromCidrs(n.podCidrs) + FromIps(n.podIps) + FromCidrs(n.serviceCidrs) +
    (if n.serviceCidrs == [] then FromIps(n.serviceIps) else {})
  }

  method AddCidrs(routeSet: set<Net>, cidrs: seq<Option<Block>>) returns (ok: bool, routes: set<Net>)
    ensures ok <==> None !in cidrs
    ensures ok ==> routes == routeSet + FromCidrs(cidrs)
  {
    hide Mask, HostNet, Prefix.Canonical, Prefix.Valid, Prefix.Size, Addr.Valid;
    routes := routeSet;
    for i := 0 to |cidrs|
      invariant None !in cidrs[..i] && routes == routeSet + FromCidrs(cidrs[..i])
    {
      if cidrs[i].None? { return false, routes; }
      assert cidrs[..i + 1][..i] == cidrs[..i];
      routes := routes + {Mask(cidrs[i].value)};
    }
    assert cidrs[..|cidrs|] == cidrs;
    ok := true;
  }

  method AddIps(routeSet: set<Net>, ips: seq<Option<Address>>) returns (ok: bool, routes: set<Net>)
    ensures ok <==> None !in ips
    ensures ok ==> routes == routeSet + FromIps(ips)
  {
    hide Mask, HostNet, Prefix.Canonical, Prefix.Valid, Prefix.Size, Addr.Valid;
    routes := routeSet;
    for i := 0 to |ips|
      invariant None !in ips[..i] && routes == routeSet + FromIps(ips[..i])
    {
      if ips[i].None? { return false, routes; }
      assert ips[..i + 1][..i] == ips[..i];
      routes := routes + {HostNet(ips[i].value)};
    }
    assert ips[..|ips|] == ips;
    ok := true;
  }

  /** The keys of a set, in whatever order. */
  method Collect(s: set<Net>) returns (keys: seq<Net>)
    ensures Distinct(keys) && Elements(keys) == s
  {
    keys := [];
    var left := s;
    while left != {}
      invariant Distinct(keys) && Elements(keys) !! left && Elements(keys) + left == s
      decreases left
    {
      var p :| p in left;
      assert p !in Elements(keys);
      assert Elements(keys + [p]) == Elements(keys) + {p};
      keys := keys + [p];
      left := left - {p};
    }
  }

  /** The routes of the tunnel, or an error for an entry that does not parse or when there is nothing to route. */
  method ClusterRoutes(n: Network, text: Net -> real) returns (routes: Option<seq<Net>>)
    requires Injective(text)
    ensures routes.Some? <==> Parses(n) && Targets(n) != {}
    ensures routes.Some? ==> Compacted(routes.value, Targets(n), text)
  {
    var ok, routeSet := AddCidrs({}, n.podCidrs);
    if !ok { return None; }
    ok, routeSet := AddIps(routeSet, n.podIps);
    if !ok { return None; }
    ok, routeSet := AddCidrs(routeSet, n.serviceCidrs);
    if !ok { return None; }
    if |n.serviceCidrs| == 0 {
      ok, routeSet := AddIps(routeSet, n.serviceIps);
      if !ok { return None; }
    }
    assert routeSet == Targets(n);
    if routeSet == {} { return None; }
    var keys := Collect(routeSet);
    var compacted := CompactRoutes(keys, text);
    routes := Some(compacted);
  }

  /** Discovery found a range or a single address that `a` is in. */
  ghost predicate Found(n: Network, a: Address) {
    || (exists c: Block :: Some(c) in n.podCidrs + n.serviceCidrs && c.Contains(a))
    || Some(a) in n.podIps || (n.serviceCidrs == [] && Some(a) in n.serviceIps)
  }

  lemma HeldIsFound(n: Network, p: Net, a: Address)
    requires p in Targets(n) && p.Contains(a)
    ensures Found(n, a)
  {
    hide Prefix.Contains, Prefix.Canonical, Prefix.Valid, Addr.Valid;
    InFromCidrs(n.podCidrs, p);
    InFromCidrs(n.serviceCidrs, p);
    InFromIps(n.podIps, p);
    InFromIps(n.serviceIps, p);
    if c: Block :| Some(c) in n.podCidrs + n.serviceCidrs && p == Mask(c) {
      MaskedKeepsAddresses(c);
    } else if b: Address :| Some(b) in n.podIps + n.serviceIps && p == HostNet(b) {
      HostHoldsOnlyItself(b);
    }
  }

  lemma FoundIsHeld(n: Network, a: Address)
    requires Found(n, a)
    ensures Holds(Targets(n), a)
  {
    hide Prefix.Contains, Prefix.Canonical;
    if c: Block :| Some(c) in n.podCidrs + n.serviceCidrs && c.Contains(a) {
      MaskedKeepsAddresses(c);
      InFromCidrs(n.podCidrs, Mask(c));
      InFromCidrs(n.serviceCidrs, Mask(c));
      assert Mask(c) in Targets(n);
    } else {
      HostHoldsOnlyItself(a);
      InFromIps(n.podIps, HostNet(a));
      InFromIps(n.serviceIps, HostNet(a));
      assert HostNet(a) in Targets(n);
    }
  }

  /** The addresses a tunnel claims are those of its Pods and of its Services, and no others. */
  lemma CoverageIsWhatWasFound(n: Network, routes: seq<Net>, text: Net -> real, a: Address)
    requires Compacted(routes, Targets(n), text)
    ensures (exists p: Net :: p in routes && p.Contains(a)) <==> Found(n, a)
  {
    hide Prefix.Contains;
    Lossless(Targets(n), a);
    assert forall p: Net :: p in routes <==> p in Elements(routes);
    if p: Net :| p in Targets(n) && p.Contains(a) { HeldIsFound(n, p, a); }
    if Found(n, a) { FoundIsHeld(n, a); }
  }
}
