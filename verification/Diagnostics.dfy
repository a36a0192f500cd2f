/** The check of a tunnel's targets against the routes the host already has. */
module Diagnostics {
  import opened Prefixes
  import opened Sorting
  import opened Routes

  datatype HostRoute = HostRoute(prefix: Block, iface: string)
  datatype Issue = Issue(target: Net, conflict: Net, iface: string)

  ghost function Parsed(n: Network): set<Net> {
    FromCidrs(n.podCidrs) + FromIps(n.podIps) +
    (if n.serviceCidrs == [] then FromIps(n.serviceIps) else FromCidrs(n.serviceCidrs))
  }

  /** The ranges and single addresses found, each once; what does not parse is skipped. */
  method DiscoveryRoutes(n: Network, text: Net -> real) returns (routes: seq<Net>)
    requires Injective(text)
    ensures Distinct(routes) && Sorted(routes, By(text)) && Elements(routes) == Parsed(n)
  {
    hide Mask, FromIps, Injective, Prefix.Canonical, Prefix.Valid, Addr.Valid;
    var values := AppendHosts(n.podCidrs, n.podIps);
    if |n.serviceCidrs| > 0 {
      ghost var before := values;
      values := values + n.serviceCidrs;
      FromCidrsJoin(before, n.serviceCidrs);
    } else {
      values := AppendHosts(values, n.serviceIps);
    }
    routes := EachOnce(values);
    ByIsTotal(text);
    SortSorts(routes, By(text));
    routes := Sort(routes, By(text));
  }

  method EachOnce(values: seq<Option<Block>>) returns (routes: seq<Net>)
    ensures Distinct(routes) && Elements(routes) == FromCidrs(values)
  {
    hide Mask, Prefix.Canonical, Prefix.Valid, Addr.Valid;
    var seen: set<Net> := {};
    routes := [];
    for i := 0 to |values|
      invariant Distinct(routes) && Elements(routes) == seen == FromCidrs(values[..i])
    {
      assert values[..i + 1][..i] == values[..i];
      if values[i].Some? {
        var prefix := Mask(values[i].value);
        if prefix !in seen {
          assert prefix !in Elements(routes);
          assert Elements(routes + [prefix]) == Elements(routes) + {prefix};
          seen := seen + {prefix};
          routes := routes + [prefix];
        }
      }
    }
    assert values[..|values|] == values;
  }

  lemma {:induction false} FromCidrsJoin(a: seq<Option<Block>>, b: seq<Option<Block>>)
    ensures FromCidrs(a + b) == FromCidrs(a) + FromCidrs(b)
  {
    if b == [] {
      assert a + b == a;
    } else {
      assert (a + b)[..|a + b| - 1] == a + b[..|b| - 1];
      FromCidrsJoin(a, b[..|b| - 1]);
    }
  }

  lemma HostMasks(a: Address)
    ensures Host(a).Valid() && Mask(Host(a)) == HostNet(a)
  {
    assert Pow2(0) == 1;
  }

  /** The addresses that parse, as ranges of one. */
  method AppendHosts(values: seq<Option<Block>>, ips: seq<Option<Address>>) returns (all: seq<Option<Block>>)
    ensures FromCidrs(all) == FromCidrs(values) + FromIps(ips)
  {
    all := values;
    for i := 0 to |ips|
      invariant FromCidrs(all) == FromCidrs(values) + FromIps(ips[..i])
    {
      assert ips[..i + 1][..i] == ips[..i];
      if ips[i].Some? {
        HostMasks(ips[i].value);
        var host: Block := Host(ips[i].value);
        assert (all + [Some(host)])[..|all|] == all;
        all := all + [Some(host)];
      }
    }
    assert ips[..|ips|] == ips;
  }

  // ----- conflicts -----

  function IssueOf(target: Block, route: HostRoute): Issue { Issue(Mask(target), Mask(route.prefix), route.iface) }

  /** The route is as narrow as the target or narrower and lies within it. */
  predicate Conflicting(target: Block, route: HostRoute) { Covers(Mask(target), Mask(route.prefix)) }

  lemma ConflictingMeans(target: Block, route: HostRoute)
    ensures var t, p := Mask(target), Mask(route.prefix);
            t.bits <= t.addr.width &&
              (Conflicting(target, route) <==> t.addr.width == p.addr.width && p.bits >= t.bits && t.Contains(p.addr))
  {}

  predicate Before(text: Net -> real, name: string -> real, a: Issue, b: Issue) {
    if text(a.target) != text(b.target) then text(a.target) < text(b.target)
    else if text(a.conflict) != text(b.conflict) then text(a.conflict) < text(b.conflict)
    else name(a.iface) <= name(b.iface)
  }

  function InOrder(text: Net -> real, name: string -> real): (Issue, Issue) -> bool {
    (a, b) => Before(text, name, a, b)
  }

  lemma IssuesAreOrdered(text: Net -> real, name: string -> real)
    requires Injective(text) && Injective(name)
    ensures TotalOrder(InOrder(text, name))
  {
  }

  predicate Earlier(t: int, r: int, i: nat, j: nat, routes: nat) {
    0 <= t && 0 <= r < routes && (t < i || (t == i && r < j))
  }

  /** Everything that is reported of some targets, up to a point in the list of routes for the next one. */
  ghost predicate Reported(issues: seq<Issue>, targets: seq<Block>, existing: seq<HostRoute>, i: nat, j: nat)
    requires i <= |targets| && j <= |existing| && (j > 0 ==> i < |targets|)
  {
    && Distinct(issues)
    && (forall t, r :: Earlier(t, r, i, j, |existing|) && Conflicting(targets[t], existing[r]) ==>
          IssueOf(targets[t], existing[r]) in issues)
    && (forall x :: x in issues ==>
          exists t, r :: t in targets && r in existing && Conflicting(t, r) && x == IssueOf(t, r))
  }

  /** What is reported is what conflicts. */
  ghost predicate Exactly(issues: seq<Issue>, targets: seq<Block>, existing: seq<HostRoute>) {
    forall x :: x in issues <==> exists t, r :: t in targets && r in existing && Conflicting(t, r) && x == IssueOf(t, r)
  }

  /** One issue for each target, route and interface that conflict. */
  method AnalyzeRouteConflicts(targets: seq<Block>, existing: seq<HostRoute>, text: Net -> real, name: string -> real)
    returns (issues: seq<Issue>)
    requires Injective(text) && Injective(name)
    ensures Distinct(issues) && Sorted(issues, InOrder(text, name)) && Exactly(issues, targets, existing)
  {
    hide Mask, Conflicting, Prefix.Canonical, Prefix.Valid, Addr.Valid;
    issues := [];
    var seen: set<Issue> := {};
    for i := 0 to |targets|
      invariant Reported(issues, targets, existing, i, 0) && seen == Elements(issues)
    {
      for j := 0 to |existing|
        invariant Reported(issues, targets, existing, i, j) && seen == Elements(issues)
      {
        var target, prefix := Mask(targets[i]), Mask(existing[j].prefix);
        ConflictingMeans(targets[i], existing[j]);
        assert target.bits <= target.addr.width;
        if target.addr.width == prefix.addr.width && prefix.bits >= target.bits && target.Contains(prefix.addr)
        {
          var issue := Issue(target, prefix, existing[j].iface);
          if issue !in seen {
            assert Elements(issues + [issue]) == Elements(issues) + {issue};
            assert issue !in issues;
            seen := seen + {issue};
            issues := issues + [issue];
          }
        }
      }
    }
    IssuesAreOrdered(text, name);
    ghost var found := issues;
    SortSorts(issues, InOrder(text, name));
    issues := Sort(issues, InOrder(text, name));
    assert forall x :: x in issues <==> x in found by {
      assert forall x :: x in issues <==> x in Elements(issues);
      assert forall x :: x in found <==> x in Elements(found);
    }
  }

  // ----- the gate -----

  lemma NetsAreBlocks(s: seq<Net>)
    ensures forall i :: 0 <= i < |s| ==> s[i].Valid()
  {
  }

  lemma NetsAreMasked(t: Net)
    ensures Mask(t) == t
  {
    RoundedDown(t.addr.value, t.Size());
    DivMod(t.addr.value, t.Size());
  }

  ghost predicate SomeConflict(targets: set<Net>, existing: seq<HostRoute>) {
    exists t, r :: t in targets && r in existing && Covers(t, Mask(r.prefix))
  }

  /** Where everything parses, the host conflicts with what discovery found exactly when one of its routes lies
      within a route the tunnel installs. */
  lemma GateAgreesWithTunnel(n: Network, routes: seq<Net>, text: Net -> real, existing: seq<HostRoute>)
    requires Parses(n) && Compacted(routes, Targets(n), text)
    ensures SomeConflict(Parsed(n), existing) <==> SomeConflict(Elements(routes), existing)
  {
    assert Parsed(n) == Targets(n);
    if SomeConflict(Parsed(n), existing) {
      var t: Net, r :| t in Parsed(n) && r in existing && Covers(t, Mask(r.prefix));
      var root := Root(Targets(n), t);
      CoversTransitive(root, t, Mask(r.prefix));
    }
  }

  lemma ReportedIfConflicting(issues: seq<Issue>, targets: seq<Net>, existing: seq<HostRoute>)
    requires Exactly(issues, targets, existing)
    ensures issues != [] <==> SomeConflict(Elements(targets), existing)
  {
    hide *;
    NetsAreBlocks(targets);
    if issues != [] {
      var _, _ := Cause(issues, targets, existing);
    }
    if SomeConflict(Elements(targets), existing) {
      Effect(issues, targets, existing);
    }
  }

  lemma Cause(issues: seq<Issue>, targets: seq<Net>, existing: seq<HostRoute>) returns (t: Net, r: HostRoute)
    requires Exactly(issues, targets, existing) && issues != []
    ensures t in Elements(targets) && r in existing && Covers(t, Mask(r.prefix)) &&
            SomeConflict(Elements(targets), existing)
  {
    hide Mask, Covers, Prefix.Contains;
    assert issues[0] in issues;
    var b: Block, route :| b in targets && route in existing && Conflicting(b, route) && issues[0] == IssueOf(b, route);
    var i :| 0 <= i < |targets| && targets[i] == b;
    NetsAreMasked(targets[i]);
    t, r := targets[i], route;
  }

  lemma Effect(issues: seq<Issue>, targets: seq<Net>, existing: seq<HostRoute>)
    requires Exactly(issues, targets, existing) && SomeConflict(Elements(targets), existing)
    ensures issues != []
  {
    hide Mask, Covers, Prefix.Contains;
    var t: Net, r :| t in Elements(targets) && r in existing && Covers(t, Mask(r.prefix));
    NetsAreMasked(t);
    assert Conflicting(t, r);
    assert IssueOf(t, r) in issues;
  }

  /** What an inspection reports: conflicts and a DNS port in use are warnings, routes that cannot be read are not. */
  datatype Report = RoutesUnread | Conflict(issue: Issue) | DnsPortTaken

  predicate Warns(report: seq<Report>) { exists i :: 0 <= i < |report| && !report[i].RoutesUnread? }

  /** The conflicts reported are those between what was found and the routes of the host. */
  ghost predicate Tells(report: seq<Report>, found: set<Net>, existing: seq<HostRoute>) {
    forall x :: Conflict(x) in report <==>
      exists t: Net, r :: t in found && r in existing && Conflicting(t, r) && x == IssueOf(t, r)
  }

  lemma ExactlyTold(report: seq<Report>, issues: seq<Issue>, targets: seq<Net>, existing: seq<HostRoute>)
    requires Exactly(issues, targets, existing)
    requires |report| == |issues| && forall i :: 0 <= i < |issues| ==> report[i] == Conflict(issues[i])
    ensures Tells(report, Elements(targets), existing)
  {
    hide Conflicting, IssueOf;
    forall x ensures Conflict(x) in report <==> x in issues {
      if x in issues {
        var i :| 0 <= i < |issues| && issues[i] == x;
        assert report[i] == Conflict(x);
      }
    }
    forall x | x in issues
      ensures exists t: Net, r :: t in Elements(targets) && r in existing && Conflicting(t, r) && x == IssueOf(t, r)
    {
      var b: Block, r :| b in targets && r in existing && Conflicting(b, r) && x == IssueOf(b, r);
      var i :| 0 <= i < |targets| && targets[i] == b;
      assert targets[i] in Elements(targets);
    }
    forall t: Net, r | t in Elements(targets) && r in existing && Conflicting(t, r) ensures IssueOf(t, r) in issues {
      assert t in targets;
    }
  }

  /** Where everything parses, the inspection warns exactly when a route of the host lies within a route the tunnel
      installs or the DNS port is taken; routes that cannot be read are reported, and stop nothing. */
  method Inspect(n: Network, existing: Option<seq<HostRoute>>, dnsPortFree: bool, text: Net -> real,
                 name: string -> real,
                 ghost tunnel: seq<Net>)
    returns (report: seq<Report>)
    requires Injective(text) && Injective(name)
    ensures RoutesUnread in report <==> existing.None?
    ensures DnsPortTaken in report <==> !dnsPortFree
    ensures Tells(report, Parsed(n), if existing.Some? then existing.value else [])
    ensures Parses(n) && Compacted(tunnel, Targets(n), text) ==>
              (Warns(report) <==> !dnsPortFree || (existing.Some? && SomeConflict(Elements(tunnel), existing.value)))
  {
    hide Compacted, SomeConflict, Exactly, Distinct, Sorted, Elements, Targets, Parses, Parsed, Injective, Mask, Covers;
    if existing.None? {
      report := [RoutesUnread];
    } else {
      var targets := DiscoveryRoutes(n, text);
      NetsAreBlocks(targets);
      var issues := AnalyzeRouteConflicts(targets, existing.value, text, name);
      ReportedIfConflicting(issues, targets, existing.value);
      if Parses(n) && Compacted(tunnel, Targets(n), text) {
        GateAgreesWithTunnel(n, tunnel, text, existing.value);
      }
      report := seq(|issues|, i requires 0 <= i < |issues| => Conflict(issues[i]));
      assert issues != [] ==> report[0] == Conflict(issues[0]);
      assert Warns(report) <==> issues != [];
      ExactlyTold(report, issues, targets, existing.value);
    }
    ghost var found := report;
    if !dnsPortFree {
      report := report + [DnsPortTaken];
      assert report[|found|].DnsPortTaken?;
      assert Warns(report);
    }
  }
}
